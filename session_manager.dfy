// The session manager (src/session/manager.rs): the map of browsers by id,
// with creation, lookup, closing, the page search across browsers, and the
// cleanup of inactive browsers. The DevTools browser factory's outcome and
// the fresh browser id (a random UUID) are parameters.

module SessionRegistry {
  import opened Wrappers
  import opened Errors
  import opened Json
  import opened SessionTypes
  import opened SessionPage
  import opened SessionBrowser

  /** The pages held by a set of browsers. */
  ghost function PagesOf(bs: set<BrowserContext>): set<PageContext>
    reads bs
  {
    set b, p | b in bs && p in b.pages.Values :: p
  }

  /** The first page with the id in a browser's page list, if any. */
  method FindPage(pages: set<PageContext>, pageId: string) returns (found: Option<PageContext>)
    ensures found.Some? ==> found.value in pages && found.value.id == pageId
    ensures found.None? ==> forall p :: p in pages ==> p.id != pageId
  {
    var rest := pages;
    while rest != {}
      invariant rest <= pages
      invariant forall p :: p in pages - rest ==> p.id != pageId
      decreases |rest|
    {
      var p :| p in rest;
      if p.id == pageId {
        return Some(p);
      }
      rest := rest - {p};
    }
    found := None;
  }

  class SessionManager {
    var browsers: map<string, BrowserContext>

    /** Every browser is stored under its own id and keeps its own invariant. */
    ghost predicate Valid()
      reads this, browsers.Values, PagesOf(browsers.Values)
    {
      forall k :: k in browsers ==> browsers[k].id == k && browsers[k].Valid()
    }

    /** Whether an active browser lists a page with the id: what get_page can find. */
    ghost predicate Listed(pageId: string)
      reads this, browsers.Values
    {
      exists b, p :: b in browsers.Values && b.active && p in b.pages.Values && p.id == pageId
    }

    constructor()
      ensures Valid() && browsers == map[]
    {
      browsers := map[];
    }

    /** create_browser: a factory failure stores nothing; otherwise a new active browser is stored under its fresh id, and the count grows by one (unless the id was taken). */
    method CreateBrowser(options: BrowserOptions, factory: Result<(), Error>, id: string) returns (r: Result<string, Error>)
      requires Valid()
      modifies this
      ensures Valid()
      ensures factory.Err? ==> r == Err(factory.error) && browsers == old(browsers)
      ensures factory.Ok? ==>
        && r == Ok(id) && id in browsers && fresh(browsers[id])
        && browsers == old(browsers)[id := browsers[id]]
        && browsers[id].active && browsers[id].pages == map[] && browsers[id].options == options
        && |browsers| == |old(browsers)| + (if id in old(browsers) then 0 else 1)
    {
      if factory.Err? {
        return Err(factory.error);
      }
      var browser := new BrowserContext(id, options);
      browsers := browsers[id := browser];
      r := Ok(id);
    }

    /** get_browser: the browser stored under the id, or BrowserNotFound. */
    method GetBrowser(id: string) returns (r: Result<BrowserContext, Error>)
      ensures r.Ok? <==> id in browsers
      ensures r.Ok? ==> r.value == browsers[id]
      ensures r.Err? ==> r.error == BrowserNotFound(id)
    {
      if id !in browsers {
        return Err(BrowserNotFound(id));
      }
      r := Ok(browsers[id]);
    }

    /** close_browser: an unknown id fails and changes no browser and no page; otherwise the browser is closed (its pages closed and drained) and only then removed, and every other browser and page is left as it was. */
    method CloseBrowser(id: string) returns (r: Result<(), Error>)
      requires Valid()
      modifies this, browsers.Values, PagesOf(browsers.Values)
      ensures Valid()
      ensures r.Ok? <==> id in old(browsers)
      ensures r.Err? ==> r.error == BrowserNotFound(id) && browsers == old(browsers)
      ensures r.Ok? ==> browsers == old(browsers) - {id} && !old(browsers)[id].active && old(browsers)[id].pages == map[]
      ensures r.Ok? ==> forall p :: p in old(browsers[id].pages.Values) ==> ClosedSinceEntry(p)
      ensures forall b :: b in old(browsers.Values) && (r.Err? || b != old(browsers[id])) ==> unchanged(b)
      ensures forall q :: q in old(PagesOf(browsers.Values)) && (r.Err? || q !in old(browsers[id].pages.Values)) ==> unchanged(q)
    {
      var found := GetBrowser(id);
      if found.Err? {
        return Err(found.error);
      }
      var browser := found.value;
      var _ := browser.Close();
      browsers := browsers - {id};
      r := Ok(());
    }

    /** list_browsers: the ids of the stored browsers. */
    method ListBrowsers() returns (ids: set<string>)
      ensures forall id :: id in ids <==> id in browsers
    {
      ids := browsers.Keys;
    }

    /** create_page: the browser is looked up (BrowserNotFound for an unknown id) and asked for the page, with the outcomes of its own create_page; no other browser changes. */
    method CreatePage(browserId: string, pageOptions: PageOptions, pageId: string, target: Result<string, Error>, client: Result<(), Error>,
                      enableReply: Result<(), Error>, overrideReply: Result<Json, Error>)
      returns (r: Result<PageContext, Error>)
      requires Valid()
      modifies browsers.Values
      ensures Valid() && browsers == old(browsers)
      ensures forall b :: b in old(browsers.Values) && (browserId !in browsers || b != browsers[browserId]) ==> unchanged(b)
      ensures browserId !in browsers ==> r == Err(BrowserNotFound(browserId))
      ensures browserId in browsers ==>
        var b := browsers[browserId];
        && b.active == old(b.active)
        && (!old(b.active) ==> r == Err(BrowserNotFound(browserId)) && unchanged(b))
        && (old(b.active) ==> b.targetRequests == old(b.targetRequests) + [UnwrapOr(pageOptions.defaultUrl, "about:blank")])
        && (old(b.active) && target.Err? ==> r == Err(target.error))
        && (old(b.active) && target.Ok? && client.Err? ==> r == Err(client.error))
        && (old(b.active) && target.Ok? && client.Ok? && SetupCalls(b.options.userAgent) != [] && enableReply.Err? ==> r == Err(enableReply.error))
        && (old(b.active) && target.Ok? && client.Ok? && SetupCalls(b.options.userAgent) != [] && enableReply.Ok? && overrideReply.Err? ==> r == Err(overrideReply.error))
        && (r.Ok? <==> old(b.active) && target.Ok? && client.Ok? && (SetupCalls(b.options.userAgent) != [] ==> enableReply.Ok? && overrideReply.Ok?))
        && (r.Err? ==> b.pages == old(b.pages))
      ensures r.Ok? ==>
        && browserId in browsers && fresh(r.value)
        && browsers[browserId].pages == old(browsers[browserId].pages)[LastSegment(target.value) := r.value]
        && r.value.id == pageId && r.value.browserId == browserId && r.value.options == pageOptions
        && r.value.active && r.value.calls == SetupCalls(browsers[browserId].options.userAgent)
    {
      var found := GetBrowser(browserId);
      if found.Err? {
        return Err(found.error);
      }
      r := found.value.CreatePage(pageOptions, pageId, target, client, enableReply, overrideReply);
      if r.Ok? {
        assert found.value.pages[LastSegment(target.value)] == r.value;
      }
    }

    /** get_page: the browsers are searched in turn, skipping those whose page list is refused (the inactive ones); the first page with the id is returned, else PageNotFound. */
    method GetPage(pageId: string) returns (r: Result<PageContext, Error>)
      requires Valid()
      ensures r.Ok? <==> Listed(pageId)
      ensures r.Ok? ==> r.value.id == pageId && r.value.Valid()
      ensures r.Ok? ==> exists b :: b in browsers.Values && b.active && r.value in b.pages.Values
      ensures r.Err? ==> r.error == PageNotFound(pageId)
    {
      var remaining := browsers.Values;
      while remaining != {}
        invariant remaining <= browsers.Values
        invariant forall b, p :: b in browsers.Values - remaining && b.active && p in b.pages.Values ==> p.id != pageId
        decreases |remaining|
      {
        var b :| b in remaining;
        var pages := b.GetPages();
        if pages.Ok? {
          var found := FindPage(pages.value, pageId);
          if found.Some? {
            ghost var k :| k in browsers && browsers[k] == b;
            assert b.Valid();
            return Ok(found.value);
          }
        }
        remaining := remaining - {b};
      }
      r := Err(PageNotFound(pageId));
    }

    /** close_page: the page is found as get_page finds it and closed; it stays in its browser's page list, inactive. */
    method ClosePage(pageId: string) returns (r: Result<(), Error>)
      requires Valid()
      modifies PagesOf(browsers.Values)
      ensures Valid()
      ensures r.Ok? <==> old(Listed(pageId))
      ensures r.Err? ==> r.error == PageNotFound(pageId)
      ensures r.Ok? ==> exists b, p :: (b in browsers.Values && p in b.pages.Values && p.id == pageId && !p.active
        && forall q :: q in PagesOf(browsers.Values) && q != p ==> unchanged(q))
      ensures r.Err? ==> forall q :: q in PagesOf(browsers.Values) ==> unchanged(q)
    {
      var page := GetPage(pageId);
      if page.Err? {
        return Err(page.error);
      }
      ghost var b :| b in browsers.Values && page.value in b.pages.Values;
      r := page.value.Close();
      assert b in browsers.Values && page.value in b.pages.Values && !page.value.active;
      forall k | k in browsers
        ensures browsers[k].Valid()
      {
        var owner := browsers[k];
        assert old(owner.Valid());
        forall key | key in owner.pages
          ensures owner.pages[key].Valid()
        {
          var q := owner.pages[key];
          assert old(q.Valid());
          if q != page.value {
            assert unchanged(q);
          }
        }
      }
    }

    /** cleanup: exactly the inactive browsers are removed; every active one stays. */
    method Cleanup() returns (r: Result<(), Error>)
      requires Valid()
      modifies this
      ensures Valid()
      ensures r == Ok(())
      ensures browsers == map k | k in old(browsers) && old(browsers[k].active) :: old(browsers)[k]
    {
      var toRemove: set<string> := {};
      var keys := browsers.Keys;
      while keys != {}
        invariant keys <= browsers.Keys
        invariant toRemove == set k | k in browsers.Keys - keys && !browsers[k].active
        decreases |keys|
      {
        var k :| k in keys;
        if !browsers[k].active {
          toRemove := toRemove + {k};
        }
        keys := keys - {k};
      }
      browsers := browsers - toRemove;
      r := Ok(());
    }

    /** session_count: the number of stored browsers. */
    method SessionCount() returns (n: nat)
      ensures n == |browsers|
    {
      n := |browsers|;
    }
  }
}
