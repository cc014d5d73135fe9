/**
 * The Google search clients (google_search.py and google_search.go): the
 * search set-up, the page-by-page crawl with its ranking and stop rules,
 * the next-page click and the final cap on the number of results.
 *
 * The browser is seen through the server's replies. A session fixes how
 * each set-up request goes and, for every results page, the document and
 * whether the requests about it fail. Past the last listed page the
 * browser shows a blank page: nothing to extract and no next link.
 */
module SearchClient {
  import opened Wrappers
  import SearchPage

  /** The two clients differ on transport failures and on the final cap. */
  datatype Client = Python | Go

  /**
   * How a request about a page went: the script ran; the reply carried an
   * error; or the call itself failed (a raised RPC exception in Python,
   * a non-nil `err` in Go).
   */
  datatype Fault = Clean | ReplyError | TransportFailure

  /** One next-page selector: not found, found but the click was refused, or clicked. */
  datatype ClickOutcome = NotFound | ClickRefused | Clicked

  datatype Page = Page(dom: SearchPage.Dom, extractFault: Fault, probeFault: Fault, clicks: seq<ClickOutcome>)

  /** How one set-up request went; a failure carries the server's message. */
  datatype Step = Done | Failed(message: seq<char>)

  datatype Session = Session(
    navigate: Step,
    findBox: Step,
    typing: Step,
    submitFault: Fault,
    pressEnter: Step,
    web: seq<Page>)

  datatype Failure =
    | NavigationFailed(message: seq<char>)
    | SearchBoxNotFound(message: seq<char>)
    | TypingFailed(message: seq<char>)
    | SubmissionFailed(message: seq<char>)
    | Raised
    | SlicePanic

  datatype Record = Record(rank: int, title: seq<char>, url: seq<char>, displayUrl: seq<char>)

  /** The selectors tried, in order, to reach the next page. */
  const NextSelectors: seq<seq<char>> := ["a#pnnext", "a[aria-label=\"Next\"]", "span.YyVfkd"]

  const BlankPage := Page(SearchPage.Dom([], {}), Clean, Clean, [])

  function PageAt(web: seq<Page>, k: nat): Page {
    if k < |web| then web[k] else BlankPage
  }

  // ---------------------------------------------------------------- per-page requests

  /** The results one page contributes, or the exception Python raises. */
  function Extract(client: Client, page: Page): (r: Result<seq<SearchPage.Item>, Failure>)
    ensures r.Err? <==> client == Python && page.extractFault == TransportFailure
    ensures page.extractFault == Clean ==> r == Ok(SearchPage.Extraction(page.dom).results)
    ensures page.extractFault == ReplyError ==> r == Ok([])
  {
    match page.extractFault
    case Clean => Ok(SearchPage.ParsePayload(SearchPage.Stringified(SearchPage.Extraction(page.dom))))
    case ReplyError => Ok([])
    case TransportFailure => if client == Python then Err(Raised) else Ok([])
  }

  /** The next-page probe's answer, or the exception Python raises. */
  function HasNext(client: Client, page: Page): (r: Result<bool, Failure>)
    ensures r.Err? <==> client == Python && page.probeFault == TransportFailure
    ensures r == Ok(true) <==> page.probeFault == Clean && SearchPage.HasNextScript(page.dom)
  {
    match page.probeFault
    case Clean => Ok(SearchPage.HasNextScript(page.dom))
    case ReplyError => Ok(false)
    case TransportFailure => if client == Python then Err(Raised) else Ok(false)
  }

  function ClickAt(clicks: seq<ClickOutcome>, i: nat): ClickOutcome {
    if i < |clicks| then clicks[i] else NotFound
  }

  /** Some next-page selector can be found and clicked. */
  predicate CanAdvance(page: Page) {
    exists i :: 0 <= i < |NextSelectors| && ClickAt(page.clicks, i) == Clicked
  }

  /**
   * The next-page click: each selector in turn, the first click that
   * succeeds wins; a failure of any kind moves on to the next selector.
   */
  method ClickNextPage(page: Page) returns (clicked: Option<nat>)
    ensures clicked.Some? ==> clicked.value < |NextSelectors| && ClickAt(page.clicks, clicked.value) == Clicked
    ensures clicked.Some? ==> forall j :: 0 <= j < clicked.value ==> ClickAt(page.clicks, j) != Clicked
    ensures clicked.None? <==> !CanAdvance(page)
  {
    var i := 0;
    while i < |NextSelectors|
      invariant 0 <= i <= |NextSelectors|
      invariant forall j :: 0 <= j < i ==> ClickAt(page.clicks, j) != Clicked
    {
      if ClickAt(page.clicks, i) == Clicked {
        return Some(i);
      }
      i := i + 1;
    }
    return None;
  }

  // ---------------------------------------------------------------- ranking

  function Ranked(items: seq<SearchPage.Item>, first: int): (r: seq<Record>)
    ensures |r| == |items|
    ensures forall i :: 0 <= i < |r| ==> r[i].rank == first + i
    ensures forall i :: 0 <= i < |r| ==> Strip(r[i]) == items[i]
  {
    seq(|items|, i requires 0 <= i < |items| =>
      Record(first + i, items[i].title, items[i].url, items[i].displayUrl))
  }

  function Strip(r: Record): SearchPage.Item {
    SearchPage.Item(r.title, r.url, r.displayUrl)
  }

  function StripAll(rs: seq<Record>): (r: seq<SearchPage.Item>)
    ensures |r| == |rs|
    ensures forall i :: 0 <= i < |rs| ==> r[i] == Strip(rs[i])
  {
    seq(|rs|, i requires 0 <= i < |rs| => Strip(rs[i]))
  }

  /** Ranks count up from 1 in list order. */
  predicate RankedFromOne(rs: seq<Record>) {
    forall i :: 0 <= i < |rs| ==> rs[i].rank == i + 1
  }

  // ---------------------------------------------------------------- the crawl

  /** What a client learns from one page: its results, the probe's answer, whether a click works. */
  datatype View = View(extracted: Result<seq<SearchPage.Item>, Failure>, next: Result<bool, Failure>, canAdvance: bool)

  function ViewOf(client: Client, page: Page): View {
    View(Extract(client, page), HasNext(client, page), CanAdvance(page))
  }

  /** The blank page past the last one: no results, no next page. */
  const BlankView := View(Ok([]), Ok(false), false)

  function Views(client: Client, web: seq<Page>): (r: seq<View>)
    ensures |r| == |web|
    ensures forall k :: 0 <= k < |web| ==> r[k] == ViewOf(client, web[k])
  {
    seq(|web|, k requires 0 <= k < |web| => ViewOf(client, web[k]))
  }

  function ViewAt(views: seq<View>, k: nat): View {
    if k < |views| then views[k] else BlankView
  }

  lemma BlankPageView(client: Client)
    ensures ViewOf(client, BlankPage) == BlankView
  {
    SearchPage.CascadeBarren(SearchPage.Attempts(BlankPage.dom), 0, 0);
  }

  lemma ViewAtPage(client: Client, web: seq<Page>, k: nat)
    ensures ViewAt(Views(client, web), k) == ViewOf(client, PageAt(web, k))
  {
    if k >= |web| {
      BlankPageView(client);
    }
  }

  /**
   * The crawl from page `k` with `acc` collected so far: extract and rank
   * the page, stop once `maxResults` is reached, when the probe finds no
   * next page or when no next-page selector can be clicked; otherwise go
   * on to the next page. Nothing else ends it: a page without results does
   * not.
   */
  function Crawl(views: seq<View>, k: nat, acc: seq<Record>, maxResults: int): Result<seq<Record>, Failure>
    decreases |views| - k
  {
    if |acc| >= maxResults then Ok(acc)
    else
      var view := ViewAt(views, k);
      match view.extracted
      case Err(e) => Err(e)
      case Ok(items) =>
        var more := acc + Ranked(items, |acc| + 1);
        if |more| >= maxResults then Ok(more)
        else
          match view.next
          case Err(e) => Err(e)
          case Ok(next) =>
            if !next || !view.canAdvance then Ok(more)
            else Crawl(views, k + 1, more, maxResults)
  }

  /** The set-up before the crawl: navigate, find the box, type, submit. */
  function SetUp(client: Client, s: Session): (r: Option<Failure>)
    ensures s.navigate.Failed? ==> r == Some(NavigationFailed(s.navigate.message))
    ensures r.None? <==>
      s.navigate.Done? && s.findBox.Done? && s.typing.Done?
      && (s.submitFault.ReplyError? ==> s.pressEnter.Done?)
      && (s.submitFault.TransportFailure? ==> client.Go? && s.pressEnter.Done?)
  {
    if s.navigate.Failed? then Some(NavigationFailed(s.navigate.message))
    else if s.findBox.Failed? then Some(SearchBoxNotFound(s.findBox.message))
    else if s.typing.Failed? then Some(TypingFailed(s.typing.message))
    else if s.submitFault.TransportFailure? && client.Python? then Some(Raised)
    else if !s.submitFault.Clean? && s.pressEnter.Failed? then Some(SubmissionFailed(s.pressEnter.message))
    else None
  }

  /** `all_results[:max_results]` with Python's slice rules, negative bounds included. */
  function PythonPrefix<T>(s: seq<T>, n: int): (r: seq<T>)
    ensures 0 <= n ==> r == s[..if n < |s| then n else |s|]
    ensures n < 0 ==> r == s[..if |s| + n > 0 then |s| + n else 0]
  {
    if n >= 0 then s[..if n < |s| then n else |s|]
    else s[..if |s| + n > 0 then |s| + n else 0]
  }

  /**
   * Go's cap as written: `if len(all) > max { all = all[:max] }`, which
   * panics for a negative `max` because the slice bound is negative.
   */
  function GoCapAsWritten(s: seq<Record>, maxResults: int): Result<seq<Record>, Failure> {
    if |s| > maxResults then
      if maxResults < 0 then Err(SlicePanic) else Ok(s[..maxResults])
    else Ok(s)
  }

  /** Go's cap as intended: at most `max` results, none for a negative `max`. */
  function GoCap(s: seq<Record>, maxResults: int): (r: seq<Record>)
    ensures |r| <= |s| && r == s[..|r|]
    ensures |r| == if maxResults < 0 then 0 else if maxResults < |s| then maxResults else |s|
  {
    if |s| > maxResults then s[..if maxResults < 0 then 0 else maxResults] else s
  }

  /** What `search` / `Search` return for a session. */
  function SearchOutcome(client: Client, s: Session, maxResults: int): Result<seq<Record>, Failure> {
    match SetUp(client, s)
    case Some(e) => Err(e)
    case None =>
      match Crawl(Views(client, s.web), 0, [], maxResults)
      case Err(e) => Err(e)
      case Ok(all) => Ok(if client == Python then PythonPrefix(all, maxResults) else GoCap(all, maxResults))
  }

  // ---------------------------------------------------------------- the clients' loops

  /** The Python client's `search`, loop and all. */
  method PythonSearch(s: Session, maxResults: int) returns (r: Result<seq<Record>, Failure>)
    ensures r == SearchOutcome(Python, s, maxResults)
  {
    var failure := SetUp(Python, s);
    if failure.Some? {
      return Err(failure.value);
    }
    var all: seq<Record> := [];
    var k: nat := 0;
    while |all| < maxResults
      invariant Crawl(Views(Python, s.web), k, all, maxResults) == Crawl(Views(Python, s.web), 0, [], maxResults)
      decreases |s.web| - k
    {
      var page := PageAt(s.web, k);
      ViewAtPage(Python, s.web, k);
      var extracted := Extract(Python, page);
      if extracted.Err? {
        return Err(extracted.error);
      }
      all := all + Ranked(extracted.value, |all| + 1);
      if |all| >= maxResults {
        break;
      }
      var next := HasNext(Python, page);
      if next.Err? {
        return Err(next.error);
      }
      if !next.value {
        break;
      }
      var clicked := ClickNextPage(page);
      if clicked.None? {
        break;
      }
      k := k + 1;
    }
    return Ok(PythonPrefix(all, maxResults));
  }

  /** The Go client's `Search`, with the cap corrected for a negative `maxResults`. */
  method GoSearch(s: Session, maxResults: int) returns (r: Result<seq<Record>, Failure>)
    ensures r == SearchOutcome(Go, s, maxResults)
  {
    var failure := SetUp(Go, s);
    if failure.Some? {
      return Err(failure.value);
    }
    var all: seq<Record> := [];
    var k: nat := 0;
    while |all| < maxResults
      invariant Crawl(Views(Go, s.web), k, all, maxResults) == Crawl(Views(Go, s.web), 0, [], maxResults)
      decreases |s.web| - k
    {
      var page := PageAt(s.web, k);
      ViewAtPage(Go, s.web, k);
      var extracted := Extract(Go, page);
      all := all + Ranked(extracted.value, |all| + 1);
      if |all| >= maxResults {
        break;
      }
      var next := HasNext(Go, page);
      if !next.value {
        break;
      }
      var clicked := ClickNextPage(page);
      if clicked.None? {
        break;
      }
      k := k + 1;
    }
    return Ok(GoCap(all, maxResults));
  }
}
