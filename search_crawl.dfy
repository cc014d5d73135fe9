/**
 * Properties of the Google search clients' crawl (google_search.py and
 * google_search.go): ranking, page order, the stop page, the final cap,
 * and where the two clients agree and differ.
 */
module SearchCrawl {
  import opened Wrappers
  import SearchPage
  import opened SearchClient

  /** Ranks count on from the results collected so far, so a whole crawl ranks 1, 2, 3, ... */
  lemma {:induction false} CrawlRanks(views: seq<View>, k: nat, acc: seq<Record>, maxResults: int)
    requires RankedFromOne(acc)
    ensures Crawl(views, k, acc, maxResults).Ok? ==>
      RankedFromOne(Crawl(views, k, acc, maxResults).value) && IsPrefix(acc, Crawl(views, k, acc, maxResults).value)
    decreases |views| - k
  {
    var view := ViewAt(views, k);
    if |acc| < maxResults && view.extracted.Ok? {
      var items := view.extracted.value;
      var more := acc + Ranked(items, |acc| + 1);
      assert RankedFromOne(more) by {
        forall i | 0 <= i < |more| ensures more[i].rank == i + 1 {
          if i >= |acc| { assert more[i] == Ranked(items, |acc| + 1)[i - |acc|]; }
        }
      }
      if |more| < maxResults && view.next == Ok(true) && view.canAdvance {
        CrawlRanks(views, k + 1, more, maxResults);
        var r := Crawl(views, k + 1, more, maxResults);
        if r.Ok? {
          assert r.value[..|acc|] == r.value[..|more|][..|acc|];
        }
      }
    }
  }

  predicate IsPrefix<T(==)>(a: seq<T>, b: seq<T>) {
    |a| <= |b| && a == b[..|a|]
  }

  function ItemsOrNone(r: Result<seq<SearchPage.Item>, Failure>): seq<SearchPage.Item> {
    if r.Ok? then r.value else []
  }

  /** Everything the pages from `k` on offer, in page order. */
  function Harvest(views: seq<View>, k: nat): seq<SearchPage.Item>
    decreases |views| - k
  {
    if k >= |views| then [] else ItemsOrNone(views[k].extracted) + Harvest(views, k + 1)
  }

  lemma StripRanked(acc: seq<Record>, items: seq<SearchPage.Item>, first: int)
    ensures StripAll(acc + Ranked(items, first)) == StripAll(acc) + items
  {
  }

  /**
   * The crawl only ever takes whole pages, in order, from the first: the
   * results are a prefix of everything the pages offer.
   */
  lemma {:induction false} CrawlTakesPagesInOrder(views: seq<View>, k: nat, acc: seq<Record>, maxResults: int)
    ensures Crawl(views, k, acc, maxResults).Ok? ==>
      IsPrefix(StripAll(Crawl(views, k, acc, maxResults).value), StripAll(acc) + Harvest(views, k))
    decreases |views| - k
  {
    var r := Crawl(views, k, acc, maxResults);
    var offered := StripAll(acc) + Harvest(views, k);
    if r.Ok? && |acc| < maxResults {
      var view := ViewAt(views, k);
      var items := view.extracted.value;
      var more := acc + Ranked(items, |acc| + 1);
      StripRanked(acc, items, |acc| + 1);
      assert offered == StripAll(more) + Harvest(views, k + 1);
      if |more| < maxResults && view.next == Ok(true) && view.canAdvance {
        CrawlTakesPagesInOrder(views, k + 1, more, maxResults);
      }
    }
  }

  /** A page the crawl reads and then leaves for the next one: results, a next link, a working click. */
  predicate Continues(view: View) {
    view.extracted.Ok? && view.next == Ok(true) && view.canAdvance
  }

  /** The items pages `k` to `m - 1` offer, in page order. */
  function Offered(views: seq<View>, k: nat, m: nat): seq<SearchPage.Item>
    decreases m - k
  {
    if k >= m then [] else ItemsOrNone(ViewAt(views, k).extracted) + Offered(views, k + 1, m)
  }

  /** `acc` followed by the items of pages `k` to `m - 1`, ranked on from `acc`. */
  function Upto(views: seq<View>, k: nat, m: nat, acc: seq<Record>): seq<Record> {
    acc + Ranked(Offered(views, k, m), |acc| + 1)
  }

  /**
   * The crawl from page `k` stops at page `m` with outcome `r`: it left
   * every page before `m` for the next one while under `maxResults`, and
   * at page `m` the extraction failed, the probe failed, or it returned
   * everything up to and including page `m` because `maxResults` was
   * reached, the probe found no next page or no selector clicked.
   */
  predicate StopsAt(views: seq<View>, k: nat, acc: seq<Record>, maxResults: int, m: nat, r: Result<seq<Record>, Failure>) {
    var view := ViewAt(views, m);
    var upto := Upto(views, k, m + 1, acc);
    k <= m
    && (forall j :: k <= j < m ==> Continues(ViewAt(views, j)))
    && |acc| + |Offered(views, k, m)| < maxResults
    && (r.Ok? ==>
          view.extracted.Ok? && r.value == upto
          && (|upto| >= maxResults || (view.next.Ok? && !(view.next.value && view.canAdvance))))
    && (r.Err? ==> view.extracted.Err? || (|upto| < maxResults && view.next.Err?))
  }

  /** Ranking two lists in one go ranks the first on from `acc` and the second on from the first. */
  lemma RankedSplit(acc: seq<Record>, items: seq<SearchPage.Item>, rest: seq<SearchPage.Item>)
    ensures var more := acc + Ranked(items, |acc| + 1);
      acc + Ranked(items + rest, |acc| + 1) == more + Ranked(rest, |more| + 1)
  {
    var more := acc + Ranked(items, |acc| + 1);
    var whole := Ranked(items + rest, |acc| + 1);
    assert whole == Ranked(items, |acc| + 1) + Ranked(rest, |more| + 1);
  }

  /** Reading page `k` first and then pages `k + 1` to `m - 1` ranks the same records. */
  lemma UptoStep(views: seq<View>, k: nat, m: nat, acc: seq<Record>)
    requires k < m
    ensures Upto(views, k, m, acc)
      == Upto(views, k + 1, m, acc + Ranked(ItemsOrNone(ViewAt(views, k).extracted), |acc| + 1))
  {
    var items := ItemsOrNone(ViewAt(views, k).extracted);
    assert Offered(views, k, m) == items + Offered(views, k + 1, m);
    RankedSplit(acc, items, Offered(views, k + 1, m));
  }

  /**
   * Where a crawl stops: already at `maxResults` it returns what it has
   * without reading a page; otherwise there is a page at which it stops,
   * as `StopsAt` describes, whatever the outcome.
   */
  lemma {:induction false} CrawlStopPage(views: seq<View>, k: nat, acc: seq<Record>, maxResults: int)
    ensures |acc| >= maxResults ==> Crawl(views, k, acc, maxResults) == Ok(acc)
    ensures |acc| < maxResults ==> exists m: nat :: StopsAt(views, k, acc, maxResults, m, Crawl(views, k, acc, maxResults))
    decreases |views| - k
  {
    if |acc| < maxResults {
      var view := ViewAt(views, k);
      var r := Crawl(views, k, acc, maxResults);
      assert Offered(views, k, k) == [];
      assert Offered(views, k + 1, k + 1) == [];
      UptoStep(views, k, k + 1, acc);
      if view.extracted.Err? || !Continues(view) {
        assert StopsAt(views, k, acc, maxResults, k, r);
      } else {
        var more := acc + Ranked(view.extracted.value, |acc| + 1);
        if |more| >= maxResults {
          assert StopsAt(views, k, acc, maxResults, k, r);
        } else {
          CrawlStopPage(views, k + 1, more, maxResults);
          var m: nat :| StopsAt(views, k + 1, more, maxResults, m, r);
          UptoStep(views, k, m, acc);
          UptoStep(views, k, m + 1, acc);
          assert StopsAt(views, k, acc, maxResults, m, r);
        }
      }
    }
  }

  /**
   * A search returns the records of the pages up to its stop page `m`,
   * ranked from 1 and cut to `maxResults`. With nothing to collect it reads
   * no page (`m` is 0). Otherwise it left every page before `m` for the
   * next one while still under the cap, extracted page `m`, and stopped
   * there because the cap was reached, the probe found no next page or no
   * selector clicked. It never reads past the last listed page.
   */
  predicate SearchStops(views: seq<View>, maxResults: int, m: nat, out: seq<Record>) {
    var all := Ranked(Offered(views, 0, m + 1), 1);
    var cap := if maxResults < 0 then 0 else maxResults;
    var view := ViewAt(views, m);
    m <= |views|
    && (forall j :: 0 <= j < m ==> Continues(ViewAt(views, j)))
    && (cap == 0 ==> m == 0)
    && (cap > 0 ==> |Offered(views, 0, m)| < cap && view.extracted.Ok?)
    && (|all| >= cap || (view.next.Ok? && !(view.next.value && view.canAdvance)))
    && |out| == (if cap < |all| then cap else |all|)
    && out == all[..|out|]
  }

  lemma {:induction false} SearchStopPage(client: Client, s: Session, maxResults: int)
    ensures var r := SearchOutcome(client, s, maxResults);
      r.Ok? ==> exists m: nat :: SearchStops(Views(client, s.web), maxResults, m, r.value)
  {
    var views := Views(client, s.web);
    var r := SearchOutcome(client, s, maxResults);
    if r.Ok? {
      CrawlStopPage(views, 0, [], maxResults);
      if maxResults <= 0 {
        assert SearchStops(views, maxResults, 0, r.value);
      } else {
        var all := Crawl(views, 0, [], maxResults).value;
        var m: nat :| StopsAt(views, 0, [], maxResults, m, Ok(all));
        CutAtStop(views, maxResults, m, all, r.value);
      }
    }
  }

  lemma CutAtStop(views: seq<View>, maxResults: int, m: nat, all: seq<Record>, out: seq<Record>)
    requires maxResults > 0
    requires StopsAt(views, 0, [], maxResults, m, Ok(all))
    requires |out| == (if maxResults < |all| then maxResults else |all|) && out == all[..|out|]
    ensures SearchStops(views, maxResults, m, out)
  {
    assert all == Ranked(Offered(views, 0, m + 1), 1);
    if m > 0 {
      assert Continues(ViewAt(views, m - 1));
    }
  }

  /** The pages before a later page offer no more items than the pages up to it. */
  lemma {:induction false} OfferedGrows(views: seq<View>, k: nat, m: nat, n: nat)
    requires k <= m <= n
    ensures |Offered(views, k, m)| <= |Offered(views, k, n)|
    decreases n - k
  {
    if k < m {
      OfferedGrows(views, k + 1, m, n);
    }
  }

  /** The stop page and the records are determined: at most one page satisfies SearchStops, with one list of records. */
  lemma SearchStopsUnique(views: seq<View>, maxResults: int, m1: nat, out1: seq<Record>, m2: nat, out2: seq<Record>)
    requires SearchStops(views, maxResults, m1, out1)
    requires SearchStops(views, maxResults, m2, out2)
    ensures m1 == m2 && out1 == out2
  {
    NoStopBefore(views, maxResults, m1, out1, m2, out2);
    NoStopBefore(views, maxResults, m2, out2, m1, out1);
  }

  /** A search cannot also stop on a page it left for the next one. */
  lemma NoStopBefore(views: seq<View>, maxResults: int, m1: nat, out1: seq<Record>, m2: nat, out2: seq<Record>)
    requires SearchStops(views, maxResults, m1, out1)
    requires SearchStops(views, maxResults, m2, out2)
    ensures m2 <= m1
  {
    assert m1 < m2 ==> Continues(ViewAt(views, m1));
    OfferedGrows(views, 0, m1 + 1, if m1 < m2 then m2 else m1 + 1);
  }

  /** A page with no results, a next link and a working next button hands the crawl on unchanged. */
  lemma EmptyPageContinues(views: seq<View>, k: nat, acc: seq<Record>, maxResults: int)
    requires |acc| < maxResults
    requires ViewAt(views, k) == View(Ok([]), Ok(true), true)
    ensures Crawl(views, k, acc, maxResults) == Crawl(views, k + 1, acc, maxResults)
  {
    assert acc + Ranked([], |acc| + 1) == acc;
  }

  /**
   * Both clients return at most `maxResults` results (none for a negative
   * `maxResults`), ranked 1, 2, 3, ... in the order the pages offered them.
   */
  lemma SearchResultsBounded(client: Client, s: Session, maxResults: int)
    ensures var r := SearchOutcome(client, s, maxResults);
      r.Ok? ==> (|r.value| <= (if maxResults < 0 then 0 else maxResults) && RankedFromOne(r.value)
        && IsPrefix(StripAll(r.value), Harvest(Views(client, s.web), 0)))
  {
    var views := Views(client, s.web);
    var r := SearchOutcome(client, s, maxResults);
    if r.Ok? {
      var all := Crawl(views, 0, [], maxResults).value;
      CrawlRanks(views, 0, [], maxResults);
      CrawlTakesPagesInOrder(views, 0, [], maxResults);
      CrawlStopPage(views, 0, [], maxResults);
      assert StripAll([]) + Harvest(views, 0) == Harvest(views, 0);
      CapKeepsOrder(all, r.value, Harvest(views, 0), maxResults);
    }
  }

  /** Either client's cap keeps a prefix of ranked results whose items begin `offered`, at most `maxResults` long. */
  lemma CapKeepsOrder(all: seq<Record>, out: seq<Record>, offered: seq<SearchPage.Item>, maxResults: int)
    requires RankedFromOne(all) && IsPrefix(StripAll(all), offered)
    requires maxResults <= 0 ==> all == []
    requires out == PythonPrefix(all, maxResults) || out == GoCap(all, maxResults)
    ensures |out| <= (if maxResults < 0 then 0 else maxResults) && RankedFromOne(out) && IsPrefix(StripAll(out), offered)
  {
    PrefixKeepsOrder(all, out, offered);
  }

  /** A prefix of ranked results whose items begin `offered` is ranked and its items begin `offered` too. */
  lemma PrefixKeepsOrder(all: seq<Record>, r: seq<Record>, offered: seq<SearchPage.Item>)
    requires RankedFromOne(all) && IsPrefix(StripAll(all), offered)
    requires IsPrefix(r, all)
    ensures RankedFromOne(r) && IsPrefix(StripAll(r), offered)
  {
    assert StripAll(r) == StripAll(all)[..|r|];
  }

  /** No failed RPC transport anywhere in the session. */
  predicate TransportHolds(s: Session) {
    !s.submitFault.TransportFailure?
    && forall k :: 0 <= k < |s.web| ==> !s.web[k].extractFault.TransportFailure? && !s.web[k].probeFault.TransportFailure?
  }

  /** While every RPC gets through, the two clients return the same thing. */
  lemma ClientsAgree(s: Session, maxResults: int)
    requires TransportHolds(s)
    ensures SearchOutcome(Python, s, maxResults) == SearchOutcome(Go, s, maxResults)
  {
    var py, go := Views(Python, s.web), Views(Go, s.web);
    forall k | 0 <= k < |s.web|
      ensures py[k] == go[k]
    {
      assert Extract(Python, s.web[k]) == Extract(Go, s.web[k]);
      assert HasNext(Python, s.web[k]) == HasNext(Go, s.web[k]);
    }
    assert py == go;
    assert SetUp(Python, s) == SetUp(Go, s);
    var c := Crawl(go, 0, [], maxResults);
    if c.Ok? {
      if maxResults <= 0 {
        assert c.value == [];
      }
    }
  }

  /** A transport failure on the first results page raises in Python, while Go reads it as an empty page. */
  lemma TransportFailureOnFirstPage(s: Session, maxResults: int)
    requires SetUp(Python, s).None? && maxResults > 0
    requires |s.web| > 0 && s.web[0].extractFault.TransportFailure?
    ensures SearchOutcome(Python, s, maxResults) == Err(Raised)
    ensures SearchOutcome(Go, s, maxResults).Ok?
  {
    assert Views(Python, s.web)[0].extracted == Err(Raised);
    GoNeverFailsAfterSetUp(s, maxResults);
  }

  lemma {:induction false} CrawlWithoutErrors(views: seq<View>, k: nat, acc: seq<Record>, maxResults: int)
    requires forall j :: 0 <= j < |views| ==> views[j].extracted.Ok? && views[j].next.Ok?
    ensures Crawl(views, k, acc, maxResults).Ok?
    decreases |views| - k
  {
    var view := ViewAt(views, k);
    if |acc| < maxResults && view.next == Ok(true) && view.canAdvance {
      CrawlWithoutErrors(views, k + 1, acc + Ranked(view.extracted.value, |acc| + 1), maxResults);
    }
  }

  /** Once its set-up succeeds the Go client always returns results: page-level failures only shorten the crawl. */
  lemma GoNeverFailsAfterSetUp(s: Session, maxResults: int)
    requires SetUp(Go, s).None?
    ensures SearchOutcome(Go, s, maxResults).Ok?
  {
    CrawlWithoutErrors(Views(Go, s.web), 0, [], maxResults);
  }

  /**
   * Go's cap as written panics for every negative `maxResults`: the crawl
   * collects nothing and the cap then slices with a negative bound.
   */
  lemma GoCapPanicsOnNegativeMax(views: seq<View>, maxResults: int)
    requires maxResults < 0
    ensures Crawl(views, 0, [], maxResults) == Ok([])
    ensures GoCapAsWritten([], maxResults) == Err(SlicePanic)
  {
  }

  /** For a non-negative `maxResults` the corrected cap is the cap as written. */
  lemma GoCapMatchesAsWritten(all: seq<Record>, maxResults: int)
    requires maxResults >= 0
    ensures GoCapAsWritten(all, maxResults) == Ok(GoCap(all, maxResults))
  {
  }
}
