/**
 * The page scripts the Google search clients evaluate in the browser
 * (google_search.py and google_search.go carry identical copies): the
 * result extraction cascade, the "is there a next page" probe and the
 * search submission chain, over an abstract document.
 */
module SearchPage {
  import opened Wrappers
  import PercentCodec

  // ---------------------------------------------------------------- JS trim

  /** WhiteSpace and LineTerminator code points `String.prototype.trim` removes. */
  predicate IsJsSpace(c: char) {
    c == '\t' || c == '\n' || c == '\U{000B}' || c == '\U{000C}' || c == '\r' || c == ' '
    || c == '\U{00A0}' || c == '\U{1680}' || ('\U{2000}' <= c <= '\U{200A}')
    || c == '\U{2028}' || c == '\U{2029}' || c == '\U{202F}' || c == '\U{205F}'
    || c == '\U{3000}' || c == '\U{FEFF}'
  }

  function TrimStart(s: seq<char>): (r: seq<char>)
    ensures |r| <= |s| && r == s[|s| - |r|..]
    ensures r == [] || !IsJsSpace(r[0])
    ensures forall i :: 0 <= i < |s| - |r| ==> IsJsSpace(s[i])
  {
    if s != [] && IsJsSpace(s[0]) then TrimStart(s[1..]) else s
  }

  function TrimEnd(s: seq<char>): (r: seq<char>)
    ensures |r| <= |s| && r == s[..|r|]
    ensures r == [] || !IsJsSpace(r[|r| - 1])
    ensures forall i :: |r| <= i < |s| ==> IsJsSpace(s[i])
  {
    if s != [] && IsJsSpace(s[|s| - 1]) then TrimEnd(s[..|s| - 1]) else s
  }

  /** `String.prototype.trim`. */
  function Trim(s: seq<char>): seq<char> {
    TrimEnd(TrimStart(s))
  }

  /** `t` is the slice `s[i..j]`, and everything of `s` outside it is white space. */
  predicate SpaceAround(s: seq<char>, t: seq<char>, i: int, j: int) {
    0 <= i <= j <= |s| && t == s[i..j]
    && (forall k :: 0 <= k < i ==> IsJsSpace(s[k]))
    && (forall k :: j <= k < |s| ==> IsJsSpace(s[k]))
  }

  /** A white-space suffix cut from a suffix of `s` that follows white space leaves a slice with white space around it. */
  lemma CutTwice(s: seq<char>, a: seq<char>, e: seq<char>)
    requires |a| <= |s| && a == s[|s| - |a|..]
    requires forall k :: 0 <= k < |s| - |a| ==> IsJsSpace(s[k])
    requires |e| <= |a| && e == a[..|e|]
    requires forall k :: |e| <= k < |a| ==> IsJsSpace(a[k])
    ensures SpaceAround(s, e, |s| - |a|, |s| - |a| + |e|)
  {
    var i := |s| - |a|;
    assert e == s[i..i + |e|];
    forall k | i + |e| <= k < |s|
      ensures IsJsSpace(s[k])
    {
      assert s[k] == a[k - i];
    }
  }

  /**
   * Trim removes exactly a run of white space at each end: the result is a
   * slice of the input with no white space at either end, and everything
   * cut away is white space.
   */
  lemma TrimIsSlice(s: seq<char>)
    ensures exists i, j :: SpaceAround(s, Trim(s), i, j)
    ensures Trim(s) == [] || (!IsJsSpace(Trim(s)[0]) && !IsJsSpace(Trim(s)[|Trim(s)| - 1]))
  {
    var a := TrimStart(s);
    var e := TrimEnd(a);
    CutTwice(s, a, e);
    assert SpaceAround(s, Trim(s), |s| - |a|, |s| - |a| + |e|);
    if e != [] {
      assert e[0] == a[0];
    }
  }

  lemma TrimIdempotent(s: seq<char>)
    ensures Trim(Trim(s)) == Trim(s)
  {
    var t := Trim(s);
    TrimIsSlice(s);
    assert TrimStart(t) == t;
    assert TrimEnd(t) == t;
  }

  // ---------------------------------------------------------------- redirect links

  predicate OccursAt(t: seq<char>, s: seq<char>, i: int) {
    0 <= i && i + |t| <= |s| && s[i..i + |t|] == t
  }

  /** `s.includes(t)`. */
  predicate Occurs(t: seq<char>, s: seq<char>) {
    exists i :: 0 <= i <= |s| - |t| && OccursAt(t, s, i)
  }

  /** Whether `/[?&]q=([^&]+)/` can match at position `i`. */
  predicate QueryMatchAt(s: seq<char>, i: int) {
    0 <= i && i + 3 < |s| && (s[i] == '?' || s[i] == '&') && s[i + 1] == 'q' && s[i + 2] == '='
    && s[i + 3] != '&'
  }

  /** The leftmost position at or after `from` where the pattern matches. */
  function FirstQueryMatch(s: seq<char>, from: nat): (r: Option<nat>)
    ensures r.Some? ==> from <= r.value && QueryMatchAt(s, r.value)
    ensures r.Some? ==> forall j :: from <= j < r.value ==> !QueryMatchAt(s, j)
    ensures r.None? ==> forall j :: from <= j ==> !QueryMatchAt(s, j)
    decreases |s| - from
  {
    if from + 3 >= |s| then None
    else if QueryMatchAt(s, from) then Some(from)
    else FirstQueryMatch(s, from + 1)
  }

  /** Length of the run of characters other than `&` at the head of `s` (the greedy `[^&]+`). */
  function RunWithoutAmp(s: seq<char>): (n: nat)
    ensures n <= |s|
    ensures forall k :: 0 <= k < n ==> s[k] != '&'
    ensures n == |s| || s[n] == '&'
  {
    if s == [] || s[0] == '&' then 0 else 1 + RunWithoutAmp(s[1..])
  }

  /** The capture group of the first match, if the pattern matches at all. */
  function QueryCapture(s: seq<char>): (r: Option<seq<char>>)
    ensures r.Some? ==> r.value != []
  {
    match FirstQueryMatch(s, 0)
    case None => None
    case Some(i) => Some(s[i + 3..][..RunWithoutAmp(s[i + 3..])])
  }

  /**
   * The URL recorded for a link: the decoded `q` parameter of a Google
   * redirect, or the link itself. None where `decodeURIComponent` throws,
   * which makes the script skip the container.
   */
  function FinalUrl(href: seq<char>): Option<seq<char>> {
    if Occurs("/url?q=", href) then
      match QueryCapture(href)
      case Some(q) => PercentCodec.DecodeComponent(q)
      case None => Some(href)
    else Some(href)
  }

  /**
   * A redirect link `<base>/url?q=<encoded target>[&...]` yields its target,
   * whenever the base holds no `?` or `&`.
   */
  lemma RedirectYieldsTarget(base: seq<char>, target: seq<char>, tail: seq<char>)
    requires forall k :: 0 <= k < |base| ==> base[k] != '?' && base[k] != '&'
    requires target != []
    requires tail == [] || tail[0] == '&'
    ensures FinalUrl(base + "/url?q=" + PercentCodec.EncodeComponent(target) + tail) == Some(target)
  {
    var enc := PercentCodec.EncodeComponent(target);
    var href := base + "/url?q=" + enc + tail;
    EncodedNonEmpty(target);
    RedirectCapture(base, enc, tail);
    assert OccursAt("/url?q=", href, |base|);
    PercentCodec.DecodeEncode(target);
  }

  lemma RedirectCapture(base: seq<char>, enc: seq<char>, tail: seq<char>)
    requires forall k :: 0 <= k < |base| ==> base[k] != '?' && base[k] != '&'
    requires enc != [] && forall k :: 0 <= k < |enc| ==> enc[k] != '&'
    requires tail == [] || tail[0] == '&'
    ensures QueryCapture(base + "/url?q=" + enc + tail) == Some(enc)
  {
    var href := base + "/url?q=" + enc + tail;
    var p := |base|;
    assert href[p..p + 7] == "/url?q=";
    assert href[p + 4] == '?' && href[p + 5] == 'q' && href[p + 6] == '=' && href[p + 7] == enc[0];
    assert QueryMatchAt(href, p + 4);
    forall j | 0 <= j < p + 4
      ensures !QueryMatchAt(href, j)
    {
      if j < p { assert href[j] == base[j]; }
      else { assert href[j] == "/url"[j - p]; }
    }
    FirstMatchIs(href, 0, p + 4);
    var rest := href[p + 7..];
    assert rest == enc + tail;
    RunOverEncoded(enc, tail);
    assert rest[..RunWithoutAmp(rest)] == enc;
  }

  lemma {:induction false} FirstMatchIs(s: seq<char>, from: nat, i: nat)
    requires from <= i && QueryMatchAt(s, i)
    requires forall j :: from <= j < i ==> !QueryMatchAt(s, j)
    ensures FirstQueryMatch(s, from) == Some(i)
    decreases i - from
  {
    if from < i {
      FirstMatchIs(s, from + 1, i);
    }
  }

  lemma EncodedNonEmpty(s: seq<char>)
    requires s != []
    ensures PercentCodec.EncodeComponent(s) != []
  {
    var h := PercentCodec.EncodeChar(s[0]);
    if !PercentCodec.IsUnreserved(s[0]) {
      assert |PercentCodec.Utf8(s[0])| >= 1;
    }
    assert |h| >= 1;
  }

  lemma {:induction false} RunOverEncoded(enc: seq<char>, tail: seq<char>)
    requires forall k :: 0 <= k < |enc| ==> enc[k] != '&'
    requires tail == [] || tail[0] == '&'
    ensures RunWithoutAmp(enc + tail) == |enc|
  {
    if enc == [] {
      assert enc + tail == tail;
    } else {
      assert (enc + tail)[0] == enc[0];
      assert (enc + tail)[1..] == enc[1..] + tail;
      RunOverEncoded(enc[1..], tail);
    }
  }

  // ---------------------------------------------------------------- extraction

  /**
   * One element returned by a selector pattern: its tag, its text, the
   * text of its first `h3` descendant, the `href` of its first `a`
   * descendant and the `href` of the first `a` under its parent.
   */
  datatype Container = Container(
    isH3: bool,
    text: seq<char>,
    firstHeading: Option<seq<char>>,
    firstLink: Option<seq<char>>,
    parentLink: Option<seq<char>>)

  /** A result as the script reports it. */
  datatype Item = Item(title: seq<char>, url: seq<char>, displayUrl: seq<char>)

  /**
   * The document: the elements each selector pattern matches (by pattern
   * index; a missing index matches nothing) and which of the three
   * next-page markers exist.
   */
  datatype Dom = Dom(matches: seq<seq<Container>>, nextMarkers: set<NextMarker>)

  datatype NextMarker = PnNext | AriaNext | NavSpan

  /** The selector patterns, tried in this order. */
  const Patterns: seq<seq<char>> := [
    "div.g", "div[data-hveid]", "div.tF2Cxc", "div.yuRUbf", "div[lang]", "div[data-hveid] h3"]

  function Matches(dom: Dom, i: nat): seq<Container> {
    if i < |dom.matches| then dom.matches[i] else []
  }

  /** The heading text and link of a container, after the H3 fallback. */
  function HeadingAndLink(c: Container): (Option<seq<char>>, Option<seq<char>>) {
    if c.firstHeading.None? && c.isH3 then (Some(c.text), c.parentLink)
    else (c.firstHeading, c.firstLink)
  }

  /** What one container contributes: nothing, or one item with a non-empty trimmed title. */
  function ContainerItem(c: Container): (r: Option<Item>)
    ensures r.Some? ==> r.value.title != [] && Trim(r.value.title) == r.value.title
  {
    var (heading, link) := HeadingAndLink(c);
    if heading.None? || link.None? then None
    else
      match FinalUrl(link.value)
      case None => None
      case Some(url) =>
        var title := Trim(heading.value);
        TrimIdempotent(heading.value);
        if title == [] then None else Some(Item(title, url, link.value))
  }

  function AsSeq(o: Option<Item>): seq<Item> {
    if o.Some? then [o.value] else []
  }

  /** The items of a container list, in document order. */
  function ItemsOf(cs: seq<Container>): (r: seq<Item>)
    ensures |r| <= |cs|
    ensures forall k :: 0 <= k < |r| ==> r[k].title != [] && Trim(r[k].title) == r[k].title
  {
    if cs == [] then []
    else ItemsOf(cs[..|cs| - 1]) + AsSeq(ContainerItem(cs[|cs| - 1]))
  }

  /** A `selectors_tested` entry. */
  datatype Probe = Probe(selector: seq<char>, count: nat)

  datatype Report = Report(results: seq<Item>, probes: seq<Probe>, foundElements: nat)

  /** What one pattern gives: how many containers it matched and their items. */
  datatype Attempt = Attempt(count: nat, items: seq<Item>)

  function AttemptAt(dom: Dom, i: nat): (a: Attempt)
    ensures |a.items| <= a.count
  {
    Attempt(|Matches(dom, i)|, ItemsOf(Matches(dom, i)))
  }

  function Attempts(dom: Dom): (r: seq<Attempt>)
    ensures |r| == |Patterns|
    ensures forall i :: 0 <= i < |r| ==> r[i] == AttemptAt(dom, i)
  {
    seq(|Patterns|, i requires 0 <= i => AttemptAt(dom, i))
  }

  /** A pattern produces items; the cascade stops at the first that does. */
  predicate Productive(a: Attempt) {
    a.count > 0 && |a.items| > 0
  }

  /**
   * The cascade from pattern `i` on: a pattern with matches sets
   * `found_elements` and ends the cascade once it produced an item.
   */
  function Cascade(attempts: seq<Attempt>, i: nat, found: nat): Report
    requires i <= |attempts| <= |Patterns|
    decreases |attempts| - i
  {
    if i == |attempts| then Report([], [], found)
    else
      var a := attempts[i];
      var probe := Probe(Patterns[i], a.count);
      if Productive(a) then Report(a.items, [probe], |a.items|)
      else
        var rest := Cascade(attempts, i + 1, if a.count > 0 then 0 else found);
        Report(rest.results, [probe] + rest.probes, rest.foundElements)
  }

  /** The report the extraction script builds for a document. */
  function Extraction(dom: Dom): Report {
    Cascade(Attempts(dom), 0, 0)
  }

  /** With no productive pattern from `i` on, the cascade reports nothing and probes every remaining pattern. */
  lemma {:induction false} CascadeBarren(attempts: seq<Attempt>, i: nat, found: nat)
    requires i <= |attempts| <= |Patterns|
    requires forall p :: i <= p < |attempts| ==> !Productive(attempts[p])
    ensures Cascade(attempts, i, found).results == []
    ensures |Cascade(attempts, i, found).probes| == |attempts| - i
    decreases |attempts| - i
  {
    if i < |attempts| {
      CascadeBarren(attempts, i + 1, if attempts[i].count > 0 then 0 else found);
    }
  }

  /**
   * The cascade reports all the items of the first productive pattern,
   * with `found_elements` their number, after probing every pattern up to
   * and including it.
   */
  lemma {:induction false} CascadeFirstProductive(attempts: seq<Attempt>, i: nat, found: nat, p: nat)
    requires i <= p < |attempts| <= |Patterns| && Productive(attempts[p])
    requires forall q :: i <= q < p ==> !Productive(attempts[q])
    ensures Cascade(attempts, i, found).results == attempts[p].items
    ensures Cascade(attempts, i, found).foundElements == |attempts[p].items|
    ensures |Cascade(attempts, i, found).probes| == p - i + 1
    decreases p - i
  {
    if i < p {
      CascadeFirstProductive(attempts, i + 1, if attempts[i].count > 0 then 0 else found, p);
    }
  }

  /** The probes are the patterns in order, each with its match count. */
  lemma {:induction false} CascadeProbes(attempts: seq<Attempt>, i: nat, found: nat)
    requires i <= |attempts| <= |Patterns|
    ensures i + |Cascade(attempts, i, found).probes| <= |attempts|
    ensures forall k :: 0 <= k < |Cascade(attempts, i, found).probes| ==>
      Cascade(attempts, i, found).probes[k] == Probe(Patterns[i + k], attempts[i + k].count)
    decreases |attempts| - i
  {
    if i < |attempts| && Productive(attempts[i]) {
      var t := Cascade(attempts, i, found).probes;
      assert t == [Probe(Patterns[i], attempts[i].count)];
      forall k | 0 <= k < |t|
        ensures t[k] == Probe(Patterns[i + k], attempts[i + k].count)
      {
        assert k == 0;
      }
    } else if i < |attempts| {
      var r := Cascade(attempts, i, found);
      var next := if attempts[i].count > 0 then 0 else found;
      var rest := Cascade(attempts, i + 1, next);
      CascadeProbes(attempts, i + 1, next);
      assert r.probes == [Probe(Patterns[i], attempts[i].count)] + rest.probes;
      assert r == Cascade(attempts, i, found);
      forall k | 0 <= k < |Cascade(attempts, i, found).probes|
        ensures Cascade(attempts, i, found).probes[k] == Probe(Patterns[i + k], attempts[i + k].count)
      {
        if k > 0 {
          assert r.probes[k] == rest.probes[k - 1];
          assert i + 1 + (k - 1) == i + k;
          assert rest.probes[k - 1] == Probe(Patterns[i + 1 + (k - 1)], attempts[i + 1 + (k - 1)].count);
        } else {
          assert r.probes[0] == Probe(Patterns[i], attempts[i].count);
        }
      }
    } else {
      assert Cascade(attempts, i, found).probes == [];
    }
  }

  /** The reported results are the items of one of the attempts. */
  lemma {:induction false} CascadeResultsFromAttempt(attempts: seq<Attempt>, i: nat, found: nat)
    requires i <= |attempts| <= |Patterns|
    ensures var r := Cascade(attempts, i, found);
      r.results == [] || exists p :: i <= p < |attempts| && r.results == attempts[p].items
    decreases |attempts| - i
  {
    if i < |attempts| && !Productive(attempts[i]) {
      CascadeResultsFromAttempt(attempts, i + 1, if attempts[i].count > 0 then 0 else found);
    }
  }

  /** Every reported title is non-empty and already trimmed. */
  lemma ExtractionTitles(dom: Dom)
    ensures forall k :: 0 <= k < |Extraction(dom).results| ==>
      Extraction(dom).results[k].title != [] && Trim(Extraction(dom).results[k].title) == Extraction(dom).results[k].title
  {
    var attempts := Attempts(dom);
    CascadeResultsFromAttempt(attempts, 0, 0);
    var r := Extraction(dom);
    if r.results != [] {
      var p :| 0 <= p < |attempts| && r.results == attempts[p].items;
      assert r.results == ItemsOf(Matches(dom, p));
    }
  }

  /** The extraction loop's invariant: what remains of the cascade from pattern `i`. */
  ghost predicate CascadeRemains(whole: Report, attempts: seq<Attempt>, i: nat, found: nat, probes: seq<Probe>)
    requires i <= |attempts| <= |Patterns|
  {
    var rest := Cascade(attempts, i, found);
    whole.results == rest.results && whole.probes == probes + rest.probes && whole.foundElements == rest.foundElements
  }

  /** An unproductive pattern passes the cascade on to the next one. */
  lemma CascadeAdvance(whole: Report, attempts: seq<Attempt>, i: nat, found: nat, probes: seq<Probe>)
    requires i < |attempts| <= |Patterns| && !Productive(attempts[i])
    requires CascadeRemains(whole, attempts, i, found, probes)
    ensures CascadeRemains(whole, attempts, i + 1, if attempts[i].count > 0 then 0 else found,
      probes + [Probe(Patterns[i], attempts[i].count)])
  {
    var probe := Probe(Patterns[i], attempts[i].count);
    var rest := Cascade(attempts, i + 1, if attempts[i].count > 0 then 0 else found);
    assert Cascade(attempts, i, found).probes == [probe] + rest.probes;
    assert probes + ([probe] + rest.probes) == (probes + [probe]) + rest.probes;
  }

  /** A productive pattern ends the cascade with its items. */
  lemma CascadeStop(whole: Report, attempts: seq<Attempt>, i: nat, found: nat, probes: seq<Probe>)
    requires i < |attempts| <= |Patterns| && Productive(attempts[i])
    requires CascadeRemains(whole, attempts, i, found, probes)
    ensures whole == Report(attempts[i].items, probes + [Probe(Patterns[i], attempts[i].count)], |attempts[i].items|)
  {
  }

  /** The `forEach` over one pattern's containers. */
  method CollectItems(containers: seq<Container>) returns (results: seq<Item>)
    ensures results == ItemsOf(containers)
  {
    results := [];
    var j := 0;
    while j < |containers|
      invariant 0 <= j <= |containers|
      invariant results == ItemsOf(containers[..j])
    {
      assert containers[..j + 1][..j] == containers[..j];
      var item := ContainerItem(containers[j]);
      if item.Some? {
        results := results + [item.value];
      }
      j := j + 1;
    }
    assert containers[..j] == containers;
  }

  /** The extraction script: the loop over the patterns, stopping at the first that yields. */
  method RunExtraction(dom: Dom) returns (report: Report)
    ensures report == Extraction(dom)
  {
    ghost var attempts := Attempts(dom);
    ghost var whole := Extraction(dom);
    var probes: seq<Probe> := [];
    var found: nat := 0;
    var i := 0;
    while i < |Patterns|
      invariant 0 <= i <= |Patterns|
      invariant CascadeRemains(whole, attempts, i, found, probes)
    {
      var containers := Matches(dom, i);
      assert attempts[i] == AttemptAt(dom, i);
      if |containers| > 0 {
        var results := CollectItems(containers);
        if |results| > 0 {
          CascadeStop(whole, attempts, i, found, probes);
          return Report(results, probes + [Probe(Patterns[i], |containers|)], |results|);
        }
      }
      CascadeAdvance(whole, attempts, i, found, probes);
      probes := probes + [Probe(Patterns[i], |containers|)];
      if |containers| > 0 {
        found := 0;
      }
      i := i + 1;
    }
    return Report([], probes, found);
  }

  // ---------------------------------------------------------------- next-page probe

  /** `!!(#pnnext || a[aria-label="Next"] || span.YyVfkd)`: true exactly when some next-page marker exists. */
  function HasNextScript(dom: Dom): (r: bool)
    ensures r <==> dom.nextMarkers != {}
  {
    if dom.nextMarkers == {} then false
    else
      var m :| m in dom.nextMarkers;
      assert m == PnNext || m == AriaNext || m == NavSpan;
      PnNext in dom.nextMarkers || AriaNext in dom.nextMarkers || NavSpan in dom.nextMarkers
  }

  // ---------------------------------------------------------------- submission

  /** What the submission script finds on the search page. */
  datatype SubmitDom = SubmitDom(hasForm: bool, hasSubmitButton: bool, searchInput: Option<seq<char>>)

  datatype SubmitMethod = FormSubmit | ButtonClick | DirectNavigation | NoMethod

  datatype Submission = Submission(via: SubmitMethod, success: bool, navigateTo: Option<seq<char>>)

  const SearchUrlPrefix: seq<char> := "https://www.google.com/search?q="

  /** The submission chain: the form, else the submit button, else a constructed search URL. */
  function SubmitScript(d: SubmitDom): (r: Submission)
    ensures r.success <==> r.via != NoMethod
    ensures r.via == FormSubmit <==> d.hasForm
    ensures r.via == ButtonClick <==> !d.hasForm && d.hasSubmitButton
    ensures r.via == DirectNavigation <==>
      !d.hasForm && !d.hasSubmitButton && d.searchInput.Some? && d.searchInput.value != []
    ensures r.navigateTo.Some? <==> r.via == DirectNavigation
  {
    if d.hasForm then Submission(FormSubmit, true, None)
    else if d.hasSubmitButton then Submission(ButtonClick, true, None)
    else if d.searchInput.Some? && d.searchInput.value != [] then
      Submission(DirectNavigation, true, Some(SearchUrlPrefix + PercentCodec.EncodeComponent(d.searchInput.value)))
    else Submission(NoMethod, false, None)
  }

  /** The constructed search URL carries the typed query, recoverable by decoding. */
  lemma DirectNavigationCarriesQuery(d: SubmitDom)
    requires SubmitScript(d).via == DirectNavigation
    ensures var url := SubmitScript(d).navigateTo.value;
      |url| >= |SearchUrlPrefix| && url[..|SearchUrlPrefix|] == SearchUrlPrefix
      && PercentCodec.DecodeComponent(url[|SearchUrlPrefix|..]) == Some(d.searchInput.value)
  {
    var url := SubmitScript(d).navigateTo.value;
    assert url[|SearchUrlPrefix|..] == PercentCodec.EncodeComponent(d.searchInput.value);
    PercentCodec.DecodeEncode(d.searchInput.value);
  }

  // ---------------------------------------------------------------- reply parsing

  /**
   * The shapes the extraction reply's text can take once parsed as JSON.
   * The script always produces `WithResults`; the clients also accept a
   * bare array, the older format.
   */
  datatype Payload =
    | WithResults(records: seq<Item>)
    | WithoutResults
    | Array(records: seq<Item>)
    | OtherJson
    | NotJson

  /** The text `JSON.stringify({results, debug})` produces, once parsed. */
  function Stringified(r: Report): Payload {
    WithResults(r.results)
  }

  /**
   * Parsing the reply: the object's `results`, or the array itself;
   * anything else, including text that is not JSON, gives no results.
   */
  function ParsePayload(p: Payload): (r: seq<Item>)
    ensures (p.WithResults? || p.Array?) ==> r == p.records
    ensures !(p.WithResults? || p.Array?) ==> r == []
  {
    match p
    case WithResults(rs) => rs
    case Array(rs) => rs
    case _ => []
  }
}
