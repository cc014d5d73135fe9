// The stealth script injector (src/stealth/injector.rs): a per-page record
// of the scripts and styles injected into each page, and the operations
// that inject through the page's CDP client and keep that record. The
// page lookup and the CDP calls are parameters: each is the outcome the
// session manager or the browser gave for that call.

module ScriptInjection {
  import opened Wrappers
  import opened Errors
  import opened JsText

  datatype ScriptType = InitScript | EvaluatedScript | Style

  datatype InjectedScript = InjectedScript(scriptId: string, scriptType: ScriptType, content: string)

  /** The page's list, or the empty list for a page without one. */
  function ListOf(m: map<string, seq<InjectedScript>>, pageId: string): seq<InjectedScript>
  {
    if pageId in m then m[pageId] else []
  }

  /** The record after one more script is tracked for pageId. */
  function Tracked(m: map<string, seq<InjectedScript>>, pageId: string, s: InjectedScript): (r: map<string, seq<InjectedScript>>)
    ensures r.Keys == m.Keys + {pageId}
    ensures r[pageId] == ListOf(m, pageId) + [s]
    ensures forall p :: p in m && p != pageId ==> r[p] == m[p]
  {
    m[pageId := ListOf(m, pageId) + [s]]
  }

  /** Vec::retain with the test script_id != id: the scripts with another id, in their order. */
  function Retained(xs: seq<InjectedScript>, id: string): (r: seq<InjectedScript>)
    ensures |r| <= |xs|
    ensures forall s :: s in r <==> s in xs && s.scriptId != id
  {
    if |xs| == 0 then []
    else
      var last := xs[|xs| - 1];
      Retained(xs[..|xs| - 1], id) + (if last.scriptId != id then [last] else [])
  }

  /** Removing an id no script carries changes nothing. */
  lemma {:induction false} RetainedUnknownId(xs: seq<InjectedScript>, id: string)
    requires forall i :: 0 <= i < |xs| ==> xs[i].scriptId != id
    ensures Retained(xs, id) == xs
  {
    if |xs| > 0 {
      RetainedUnknownId(xs[..|xs| - 1], id);
      assert xs[..|xs| - 1] + [xs[|xs| - 1]] == xs;
    }
  }

  /** Removing an id twice is removing it once. */
  lemma {:induction false} RetainedIdempotent(xs: seq<InjectedScript>, id: string)
    ensures Retained(Retained(xs, id), id) == Retained(xs, id)
  {
    var r := Retained(xs, id);
    forall i | 0 <= i < |r|
      ensures r[i].scriptId != id
    {
      assert r[i] in r;
    }
    RetainedUnknownId(r, id);
  }

  /** Retaining distributes over a split of the list: what is kept of each part, in order. */
  lemma {:induction false} RetainedAppend(a: seq<InjectedScript>, b: seq<InjectedScript>, id: string)
    ensures Retained(a + b, id) == Retained(a, id) + Retained(b, id)
    decreases |b|
  {
    if |b| == 0 {
      assert a + b == a;
    } else {
      var b' := b[..|b| - 1];
      assert (a + b)[..|a + b| - 1] == a + b';
      assert (a + b)[|a + b| - 1] == b[|b| - 1];
      RetainedAppend(a, b', id);
    }
  }

  function StyleHead(): string { "(function() {\n                const style = document.createElement('style');\n                style.textContent = " }
  function StyleTail(): string { ";\n                document.head.appendChild(style);\n            })();" }

  /** inject_style's escaping: backslashes doubled, then single quotes escaped; the chain is the one-pass escape of the two characters. */
  function EscapeCss(css: string): (r: string)
    ensures r == EscapeAll(css, {'\\', '\''})
  {
    ReplaceBackslash(css);
    ReplaceAfterEscape(css, {'\\'}, '\'');
    assert {'\\'} + {'\''} == {'\\', '\''};
    assert "\\'" == ['\\', '\''];
    Replace(Replace(css, '\\', "\\\\"), '\'', "\\'")
  }

  /** The escaped CSS between single quotes reads back as the CSS, whatever script text follows the closing quote. */
  lemma EscapeCssReadsBack(css: string, tail: string)
    requires SingleLine(css)
    ensures ReadLiteral(EscapeCss(css) + "'" + tail, '\'') == Some((css, tail))
  {
    ReadEscaped(css, {'\\', '\''}, '\'', tail);
  }

  /** The script inject_style evaluates: a style element whose text is the CSS literal. */
  function StyleScript(css: string): string
  {
    StyleHead() + "'" + EscapeCss(css) + "'" + StyleTail()
  }

  /** evaluate, given the page lookup, the outcome of Runtime.evaluate and the JSON text of result.value when present: a missing value is a script failure. */
  function Evaluate(lookup: Result<(), Error>, evaluated: Result<Option<string>, Error>): (r: Result<string, Error>)
    ensures lookup.Err? ==> r == Err(lookup.error)
    ensures lookup.Ok? && evaluated.Err? ==> r == Err(evaluated.error)
    ensures r.Ok? <==> lookup.Ok? && evaluated.Ok? && evaluated.value.Some?
    ensures r.Ok? ==> r.value == evaluated.value.value
    ensures lookup.Ok? && evaluated == Ok(None) ==> r == Err(ScriptExecutionFailed("No result value"))
  {
    if lookup.Err? then Err(lookup.error)
    else if evaluated.Err? then Err(evaluated.error)
    else if evaluated.value.None? then Err(ScriptExecutionFailed("No result value"))
    else Ok(evaluated.value.value)
  }

  /** set_user_agent, given the page lookup, enabling the Network domain and Network.setUserAgentOverride: the first failure is the result. */
  function SetUserAgent(lookup: Result<(), Error>, enabled: Result<(), Error>, overridden: Result<(), Error>): (r: Result<(), Error>)
    ensures r.Ok? <==> lookup.Ok? && enabled.Ok? && overridden.Ok?
    ensures r.Err? ==> r.error == (if lookup.Err? then lookup.error else if enabled.Err? then enabled.error else overridden.error)
  {
    if lookup.Err? then Err(lookup.error)
    else if enabled.Err? then Err(enabled.error)
    else if overridden.Err? then Err(overridden.error)
    else Ok(())
  }

  /** The injector and its record of injected scripts per page. */
  class ScriptInjector {
    var injected: map<string, seq<InjectedScript>>

    constructor()
      ensures injected == map[]
    {
      injected := map[];
    }

    /** track_script: the script is appended to the page's list, which is created on first use. */
    method TrackScript(pageId: string, scriptId: string, scriptType: ScriptType, content: string)
      modifies this
      ensures injected == Tracked(old(injected), pageId, InjectedScript(scriptId, scriptType, content))
    {
      var s := InjectedScript(scriptId, scriptType, content);
      if pageId in injected {
        injected := injected[pageId := injected[pageId] + [s]];
      } else {
        assert [] + [s] == [s];
        injected := injected[pageId := [s]];
      }
    }

    /** get_injected_scripts: the page's list, or PageNotFound for a page with none. */
    method GetInjectedScripts(pageId: string) returns (r: Result<seq<InjectedScript>, Error>)
      ensures r.Ok? <==> pageId in injected
      ensures r.Ok? ==> r.value == injected[pageId]
      ensures r.Err? ==> r.error == PageNotFound("No scripts injected for page: " + pageId)
    {
      if pageId in injected {
        r := Ok(injected[pageId]);
      } else {
        r := Err(PageNotFound("No scripts injected for page: " + pageId));
      }
    }

    /** remove_script: the page's list keeps the scripts with another id; an unknown page or id is not an error. */
    method RemoveScript(pageId: string, scriptId: string) returns (r: Result<(), Error>)
      modifies this
      ensures r.Ok?
      ensures injected == if pageId in old(injected)
        then old(injected)[pageId := Retained(old(injected)[pageId], scriptId)]
        else old(injected)
    {
      if pageId in injected {
        var xs := injected[pageId];
        var kept := [];
        var i := 0;
        while i < |xs|
          invariant i <= |xs|
          invariant kept == Retained(xs[..i], scriptId)
        {
          assert xs[..i + 1][..i] == xs[..i];
          if xs[i].scriptId != scriptId {
            kept := kept + [xs[i]];
          }
          i := i + 1;
        }
        assert xs[..i] == xs;
        injected := injected[pageId := kept];
      }
      r := Ok(());
    }

    /** clear_all: the page's entry is deleted. */
    method ClearAll(pageId: string) returns (r: Result<(), Error>)
      modifies this
      ensures r.Ok?
      ensures injected == old(injected) - {pageId}
    {
      injected := injected - {pageId};
      r := Ok(());
    }

    /** inject_init_script, given the page lookup and the outcomes of Page.addScriptToEvaluateOnNewDocument and Runtime.evaluate: the script is recorded as an InitScript once the first call succeeds, whatever the second does. */
    method InjectInitScript(pageId: string, script: string, scriptId: string,
                            lookup: Result<(), Error>, added: Result<(), Error>, evaluated: Result<(), Error>)
      returns (r: Result<(), Error>)
      modifies this
      ensures lookup.Err? ==> r == Err(lookup.error) && injected == old(injected)
      ensures lookup.Ok? && added.Err? ==>
        r == Err(Internal("Page.addScriptToEvaluateOnNewDocument failed: " + Display(added.error))) && injected == old(injected)
      ensures lookup.Ok? && added.Ok? ==>
        r == Ok(()) && injected == Tracked(old(injected), pageId, InjectedScript(scriptId, InitScript, script))
    {
      if lookup.Err? {
        return Err(lookup.error);
      }
      if added.Err? {
        return Err(Internal("Page.addScriptToEvaluateOnNewDocument failed: " + Display(added.error)));
      }
      TrackScript(pageId, scriptId, InitScript, script);
      r := Ok(());
    }

    /** inject_style, given the page lookup and the outcome of evaluating StyleScript(css): the original CSS is recorded as a Style only when the evaluation succeeded. */
    method InjectStyle(pageId: string, css: string, scriptId: string,
                       lookup: Result<(), Error>, evaluated: Result<Option<string>, Error>)
      returns (r: Result<(), Error>)
      modifies this
      ensures r.Ok? <==> Evaluate(lookup, evaluated).Ok?
      ensures r.Err? ==> r.error == Evaluate(lookup, evaluated).error && injected == old(injected)
      ensures r.Ok? ==> injected == Tracked(old(injected), pageId, InjectedScript(scriptId, Style, css))
    {
      var e := Evaluate(lookup, evaluated);
      if e.Err? {
        return Err(e.error);
      }
      TrackScript(pageId, scriptId, Style, css);
      r := Ok(());
    }
  }

  // ------------------------------------------------------------ the record across operations

  /** A tracked script is found at the end of its page's list, and no other page's list changes. */
  lemma TrackThenList(m: map<string, seq<InjectedScript>>, pageId: string, other: string, s: InjectedScript)
    ensures var m' := Tracked(m, pageId, s);
      && pageId in m' && m'[pageId][|m'[pageId]| - 1] == s
      && m'[pageId][..|m'[pageId]| - 1] == ListOf(m, pageId)
      && (other != pageId ==> ListOf(m', other) == ListOf(m, other) && (other in m' <==> other in m))
  {
    var m' := Tracked(m, pageId, s);
    assert m'[pageId][..|m'[pageId]| - 1] == ListOf(m, pageId);
  }

  /** Removing a tracked script leaves the page's list as it was before tracking, when the id was fresh on that page. */
  lemma TrackThenRemove(m: map<string, seq<InjectedScript>>, pageId: string, s: InjectedScript)
    requires forall i :: 0 <= i < |ListOf(m, pageId)| ==> ListOf(m, pageId)[i].scriptId != s.scriptId
    ensures Retained(Tracked(m, pageId, s)[pageId], s.scriptId) == ListOf(m, pageId)
  {
    var xs := ListOf(m, pageId);
    RetainedAppend(xs, [s], s.scriptId);
    RetainedUnknownId(xs, s.scriptId);
    assert Retained([s], s.scriptId) == Retained([], s.scriptId) + [];
    assert Retained([], s.scriptId) == [];
  }
}
