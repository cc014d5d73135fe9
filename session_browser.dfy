// A browser of a session (src/session/browser.rs): a map of its pages,
// keyed by the DevTools target id, and an active flag. Opening a page asks
// the DevTools browser for a target and a client, optionally overrides the
// user agent on that client, and stores the page; closing the browser
// drains the map, closes every drained page and then goes inactive. The
// DevTools browser's answers and the fresh page id (a random UUID) are
// parameters.

module SessionBrowser {
  import opened Wrappers
  import opened Errors
  import opened Json
  import opened SessionTypes
  import opened SessionPage

  /** The last '/'-separated segment of a target's WebSocket URL (`rsplit('/').next()`, which always yields one). */
  function LastSegment(s: string): string
  {
    if s == [] then []
    else if s[|s| - 1] == '/' then []
    else LastSegment(s[..|s| - 1]) + [s[|s| - 1]]
  }

  /** `r` is the longest suffix of `s` without a '/': either all of `s`, or what follows its last '/'. */
  predicate FinalSegment(s: string, r: string) {
    && '/' !in r
    && |r| <= |s| && r == s[|s| - |r|..]
    && (|r| < |s| ==> s[|s| - |r| - 1] == '/')
  }

  /** The segment is the longest suffix without a '/': either the whole URL, or what follows its last '/'. */
  lemma {:induction false} LastSegmentShape(s: string)
    ensures FinalSegment(s, LastSegment(s))
  {
    if s == [] || s[|s| - 1] == '/' {
      assert LastSegment(s) == [] && s[|s|..] == [];
    } else {
      var t := s[..|s| - 1];
      var c := s[|s| - 1];
      LastSegmentShape(t);
      assert LastSegment(s) == LastSegment(t) + [c];
      SnocSegment(t, c, LastSegment(t));
      SplitLast(s);
    }
  }

  lemma SplitLast(s: string)
    requires s != []
    ensures s == s[..|s| - 1] + [s[|s| - 1]]
  {
  }

  /** A final segment stays one when a character other than '/' is appended to both. */
  lemma SnocSegment(t: string, c: char, r: string)
    requires c != '/' && FinalSegment(t, r)
    ensures FinalSegment(t + [c], r + [c])
  {
    var s := t + [c];
    assert s[|t| - |r|..] == t[|t| - |r|..] + [c];
  }

  /** The key of a page opened on target `id` under any URL prefix is the target id itself. */
  lemma {:induction false} LastSegmentOfTarget(prefix: string, id: string)
    requires '/' !in id
    ensures LastSegment(prefix + "/" + id) == id
  {
    var s := prefix + "/" + id;
    var r := LastSegment(s);
    LastSegmentShape(s);
    assert s[|s| - |id| - 1] == '/';
    assert s[|s| - |id|..] == id;
  }

  /** The calls create_page makes on a new client before the page exists: Network.enable and the override, only for a user agent that is given and not empty. */
  function SetupCalls(userAgent: Option<string>): (cs: seq<ClientCall>)
    ensures userAgent.None? || userAgent.value == "" ==> cs == []
    ensures userAgent.Some? && userAgent.value != "" ==>
      cs == [EnableDomainCall("Network"), MethodCall("Network.setUserAgentOverride", JObject(map["userAgent" := JString(userAgent.value)]))]
    ensures PageCloseCall !in cs
  {
    if userAgent.Some? && userAgent.value != "" then
      [EnableDomainCall("Network"), MethodCall("Network.setUserAgentOverride", JObject(map["userAgent" := JString(userAgent.value)]))]
    else []
  }

  /** A page closed since the enclosing operation began: inactive, with Page.close sent once more if it was active then, and nothing sent otherwise. */
  twostate predicate ClosedSinceEntry(p: PageContext)
    reads p
  {
    && !p.active
    && p.calls == (if old(p.active) then old(p.calls) + [PageCloseCall] else old(p.calls))
  }

  /** The loop of close: every drained page is closed in turn, whatever its close answers. */
  method CloseEach(drained: set<PageContext>)
    requires forall p :: p in drained ==> p.Valid()
    modifies drained
    ensures forall p :: p in drained ==> p.Valid() && ClosedSinceEntry(p)
  {
    var remaining := drained;
    while remaining != {}
      invariant remaining <= drained
      invariant forall p :: p in drained ==> p.Valid()
      invariant forall p :: p in drained - remaining ==> ClosedSinceEntry(p)
      invariant forall p :: p in remaining ==> unchanged(p)
      decreases |remaining|
    {
      var page :| page in remaining;
      var _ := page.Close();
      remaining := remaining - {page};
    }
  }

  class BrowserContext {
    const id: string
    const options: BrowserOptions
    /** The open pages, by target id. */
    var pages: map<string, PageContext>
    var active: bool
    /** The URLs of the targets asked of the DevTools browser, in order. */
    var targetRequests: seq<string>

    /** Every page belongs to this browser and keeps its own invariant. */
    ghost predicate Valid()
      reads this, pages.Values
    {
      forall k :: k in pages ==> pages[k].browserId == id && pages[k].Valid()
    }

    /** new: active, with no pages. */
    constructor(id: string, options: BrowserOptions)
      ensures Valid()
      ensures this.id == id && this.options == options
      ensures active && pages == map[] && targetRequests == []
    {
      this.id := id;
      this.options := options;
      pages := map[];
      active := true;
      targetRequests := [];
    }

    /** create_page: refused with BrowserNotFound once inactive. Otherwise a target is created at the page's default URL (about:blank when none), a client is opened on it, the user agent is overridden when the browser has one, and the new page is stored under the target id. Any failure along the way stores nothing. */
    method CreatePage(pageOptions: PageOptions, pageId: string, target: Result<string, Error>, client: Result<(), Error>,
                      enableReply: Result<(), Error>, overrideReply: Result<Json, Error>)
      returns (r: Result<PageContext, Error>)
      requires Valid()
      modifies this
      ensures Valid() && active == old(active)
      ensures !active ==> r == Err(BrowserNotFound(id)) && unchanged(this)
      ensures active ==> targetRequests == old(targetRequests) + [UnwrapOr(pageOptions.defaultUrl, "about:blank")]
      ensures r.Err? ==> pages == old(pages)
      ensures active && target.Err? ==> r == Err(target.error)
      ensures active && target.Ok? && client.Err? ==> r == Err(client.error)
      ensures active && target.Ok? && client.Ok? && SetupCalls(options.userAgent) != [] && enableReply.Err? ==> r == Err(enableReply.error)
      ensures active && target.Ok? && client.Ok? && SetupCalls(options.userAgent) != [] && enableReply.Ok? && overrideReply.Err? ==> r == Err(overrideReply.error)
      ensures r.Ok? <==> active && target.Ok? && client.Ok? && (SetupCalls(options.userAgent) != [] ==> enableReply.Ok? && overrideReply.Ok?)
      ensures r.Ok? ==>
        && fresh(r.value)
        && pages == old(pages)[LastSegment(target.value) := r.value]
        && r.value.id == pageId && r.value.browserId == id && r.value.options == pageOptions
        && r.value.active && r.value.calls == SetupCalls(options.userAgent)
    {
      if !active {
        return Err(BrowserNotFound(id));
      }
      var defaultUrl := UnwrapOr(pageOptions.defaultUrl, "about:blank");
      targetRequests := targetRequests + [defaultUrl];
      if target.Err? {
        return Err(target.error);
      }
      var wsUrl := target.value;
      if client.Err? {
        return Err(client.error);
      }
      var setup := SetupCalls(options.userAgent);
      if setup != [] {
        if enableReply.Err? {
          return Err(enableReply.error);
        }
        if overrideReply.Err? {
          return Err(overrideReply.error);
        }
      }
      var targetId := LastSegment(wsUrl);
      var page := new PageContext(pageId, id, pageOptions, setup);
      pages := pages[targetId := page];
      r := Ok(page);
    }

    /** get_pages: the open pages, or BrowserNotFound once inactive. */
    method GetPages() returns (r: Result<set<PageContext>, Error>)
      ensures !active ==> r == Err(BrowserNotFound(id))
      ensures active ==> r == Ok(pages.Values)
    {
      if !active {
        return Err(BrowserNotFound(id));
      }
      r := Ok(pages.Values);
    }

    /** close: the page map is drained, every drained page is closed (its outcome ignored), and the browser goes inactive. */
    method Close() returns (r: Result<(), Error>)
      requires Valid()
      modifies this, pages.Values
      ensures Valid()
      ensures r == Ok(()) && !active && pages == map[] && targetRequests == old(targetRequests)
      ensures forall p :: p in old(pages.Values) ==> p.Valid() && ClosedSinceEntry(p)
    {
      var drained := pages.Values;
      pages := map[];
      CloseEach(drained);
      active := false;
      r := Ok(());
    }

    /** is_active: the flag, or false when its lock is poisoned. */
    method IsActive(poisoned: bool) returns (a: bool)
      ensures a <==> active && !poisoned
    {
      a := active && !poisoned;
    }
  }
}
