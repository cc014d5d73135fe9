// Cookie handling of the page service (src/services/page/handlers/cookies.rs
// and the copy in src/services/page/service.rs): reading the cookies a
// script reports, with defaults for missing fields, and setting cookies one
// script at a time. The reading script's text and the printing of a string
// as a JSON string literal are parameters; the page's answers are too.

module Cookies {
  import opened Wrappers
  import opened Errors
  import opened Json
  import opened SessionTypes
  import CdpClient
  import SessionPage
  import SessionElement
  import PageConversions
  import Fingerprints

  /** A Rust `i64`. */
  type I64 = x: int | -0x8000_0000_0000_0000 <= x < 0x8000_0000_0000_0000

  datatype Cookie = Cookie(
    name: string, value: string, domain: string, path: string,
    expires: I64, size: PageConversions.I32,
    httpOnly: bool, secure: bool, session: bool, sameSite: string)

  /** `Value::as_i64`: a whole number within the i64 range. */
  function AsI64(j: Json): (r: Option<I64>)
    ensures r.Some? <==> j.JNumber? && IsWhole(j.n) && -0x8000_0000_0000_0000 <= j.n.Floor < 0x8000_0000_0000_0000
    ensures r.Some? ==> r.value as real == j.n
  {
    if j.JNumber? && IsWhole(j.n) && -0x8000_0000_0000_0000 <= j.n.Floor < 0x8000_0000_0000_0000 then Some(j.n.Floor) else None
  }

  /** A field read as a string, with a default for a missing field or one of another type. */
  function StrOr(fields: map<string, Json>, key: string, default: string): string
  {
    if key in fields && fields[key].JString? then fields[key].s else default
  }

  /** A field read as a boolean, false for a missing field or one of another type. */
  function BoolOr(fields: map<string, Json>, key: string): bool
  {
    key in fields && fields[key].JBool? && fields[key].b
  }

  /** A field read as an i64, 0 for a missing field or one that is not one. */
  function I64Or(fields: map<string, Json>, key: string): I64
  {
    if key in fields && AsI64(fields[key]).Some? then AsI64(fields[key]).value else 0
  }

  /** One cookie of get_cookies from an object entry: every field defaults to "", 0 or false, the same-site policy to "Lax", and the size is cut to an i32. */
  function CookieOf(fields: map<string, Json>): Cookie
  {
    Cookie(
      StrOr(fields, "name", ""), StrOr(fields, "value", ""), StrOr(fields, "domain", ""), StrOr(fields, "path", ""),
      I64Or(fields, "expires"), Fingerprints.WrapI32(I64Or(fields, "size")),
      BoolOr(fields, "http_only"), BoolOr(fields, "secure"), BoolOr(fields, "session"),
      StrOr(fields, "same_site", "Lax"))
  }

  /** The object entry a script reports for a cookie. */
  function CookieFields(c: Cookie): map<string, Json>
  {
    map[
      "name" := JString(c.name), "value" := JString(c.value), "domain" := JString(c.domain), "path" := JString(c.path),
      "expires" := JNumber(c.expires as real), "size" := JNumber(c.size as real),
      "http_only" := JBool(c.httpOnly), "secure" := JBool(c.secure), "session" := JBool(c.session),
      "same_site" := JString(c.sameSite)]
  }

  /** Every cookie is read back from the entry that reports it. */
  lemma CookieRoundTrip(c: Cookie)
    ensures CookieOf(CookieFields(c)) == c
  {
    var f := CookieFields(c);
    assert AsI64(f["expires"]) == Some(c.expires);
    assert AsI64(f["size"]) == Some(c.size as I64);
  }

  /** An empty entry, or one whose fields all have the wrong type, gives the default cookie. */
  lemma CookieDefaults(fields: map<string, Json>)
    requires forall k :: k in fields ==> fields[k] == JNull
    ensures CookieOf(fields) == Cookie("", "", "", "", 0, 0, false, false, false, "Lax")
  {
  }

  /** A size beyond the i32 range wraps, and a fractional expiry reads as 0. */
  lemma SizeWrapsAndFractionDefaults()
    ensures CookieOf(map["size" := JNumber(0x8000_0000 as real)]).size == -0x8000_0000
    ensures CookieOf(map["expires" := JNumber(1.5)]).expires == 0
  {
    assert !IsWhole(1.5);
  }

  /** The object entries of an array, each read as a cookie, in order; other entries are dropped. */
  function ObjectCookies(items: seq<Json>): (cs: seq<Cookie>)
    ensures |cs| <= |items|
  {
    if items == [] then [] else EntryCookies(items[0]) + ObjectCookies(items[1..])
  }

  /** The cookie an array entry gives: one for an object, none for anything else. */
  function EntryCookies(j: Json): (cs: seq<Cookie>)
    ensures |cs| <= 1
  {
    if j.JObject? then [CookieOf(j.fields)] else []
  }

  /** Reading splits over a concatenation. */
  lemma {:induction false} ObjectCookiesAppend(a: seq<Json>, b: seq<Json>)
    ensures ObjectCookies(a + b) == ObjectCookies(a) + ObjectCookies(b)
  {
    if a == [] {
      assert a + b == b;
    } else {
      assert (a + b)[0] == a[0] && (a + b)[1..] == a[1..] + b;
      ObjectCookiesAppend(a[1..], b);
      calc {
        ObjectCookies(a + b);
        EntryCookies(a[0]) + ObjectCookies(a[1..] + b);
        EntryCookies(a[0]) + (ObjectCookies(a[1..]) + ObjectCookies(b));
        (EntryCookies(a[0]) + ObjectCookies(a[1..])) + ObjectCookies(b);
      }
    }
  }

  /** An entry that is not an object is dropped wherever it stands. */
  lemma NonObjectDropped(a: seq<Json>, j: Json, b: seq<Json>)
    requires !j.JObject?
    ensures ObjectCookies(a + [j] + b) == ObjectCookies(a + b)
  {
    ObjectCookiesAppend(a + [j], b);
    ObjectCookiesAppend(a, [j]);
    ObjectCookiesAppend(a, b);
    assert ObjectCookies([j]) == EntryCookies(j) + ObjectCookies([]) == [];
  }

  /** The array of entries reporting a list of cookies. */
  function Entries(cs: seq<Cookie>): (items: seq<Json>)
    ensures |items| == |cs|
    ensures forall i :: 0 <= i < |cs| ==> items[i] == JObject(CookieFields(cs[i]))
  {
    seq(|cs|, i requires 0 <= i < |cs| => JObject(CookieFields(cs[i])))
  }

  /** Every list of cookies is read back from the array that reports it. */
  lemma {:induction false} EntriesRoundTrip(cs: seq<Cookie>)
    ensures ObjectCookies(Entries(cs)) == cs
  {
    if cs != [] {
      assert Entries(cs)[1..] == Entries(cs[1..]);
      EntriesRoundTrip(cs[1..]);
      CookieRoundTrip(cs[0]);
    }
  }

  /** get_cookies' reading of the script's result: an object result holding an array gives its object entries; anything else gives no cookies. */
  function CookiesFrom(result: EvaluationResult): (cs: seq<Cookie>)
    ensures !(result.Object? && result.value.JArray?) ==> cs == []
    ensures result.Object? && result.value.JArray? ==> cs == ObjectCookies(result.value.items)
  {
    match result
    case Object(JArray(items)) => ObjectCookies(items)
    case _ => []
  }

  /** get_cookies: the page is looked up and the reading script evaluated; its failure passes on, and its result is read as cookies. */
  method GetCookies(lookup: Result<SessionPage.PageContext, Error>, script: string, reply: Result<CdpClient.EvaluationResult, Error>)
    returns (r: Result<seq<Cookie>, Error>)
    requires lookup.Ok? ==> lookup.value.Valid()
    modifies if lookup.Ok? then {lookup.value} else {}
    ensures lookup.Err? ==> r == Err(lookup.error)
    ensures lookup.Ok? ==> lookup.value.Valid() && lookup.value.active == old(lookup.value.active)
    ensures lookup.Ok? && !old(lookup.value.active) ==>
      r == Err(PageNotFound(lookup.value.id)) && lookup.value.calls == old(lookup.value.calls)
    ensures lookup.Ok? && old(lookup.value.active) ==>
      && lookup.value.calls == old(lookup.value.calls) + [EvaluateCall(script, false)]
      && (reply.Err? ==> r == Err(reply.error))
      && (reply.Ok? ==> r == Ok(CookiesFrom(SessionPage.FromClient(reply.value))))
  {
    if lookup.Err? {
      return Err(lookup.error);
    }
    var result := lookup.value.Evaluate(script, false, reply);
    if result.Err? {
      return Err(result.error);
    }
    SessionPage.EvaluationRoundTrip(result.value, reply.value);
    r := Ok(CookiesFrom(result.value));
  }

  // ------------------------------------------------------------ setting

  /** The document.cookie assignment for one cookie: name and value, then its domain and path. */
  function CookieString(c: Cookie): string
  {
    c.name + "=" + c.value + "; Domain=" + c.domain + "; Path=" + c.path
  }

  /** The script that sets one cookie, its string printed as a JSON string literal. */
  function CookieCall(c: Cookie, quote: string -> string): ClientCall
  {
    EvaluateCall("document.cookie = " + quote(CookieString(c)), false)
  }

  /** One assignment per cookie, in order. */
  function CookieCalls(cs: seq<Cookie>, quote: string -> string): (calls: seq<ClientCall>)
    ensures |calls| == |cs|
  {
    if cs == [] then [] else CookieCalls(cs[..|cs| - 1], quote) + [CookieCall(cs[|cs| - 1], quote)]
  }

  /** One more cookie sent adds its assignment at the end. */
  lemma CookieCallsStep(cookies: seq<Cookie>, i: nat, quote: string -> string)
    requires i < |cookies|
    ensures CookieCalls(cookies[..i + 1], quote) == CookieCalls(cookies[..i], quote) + [CookieCall(cookies[i], quote)]
  {
    assert cookies[..i + 1][..i] == cookies[..i];
  }

  /** set_cookies: the page is looked up and the cookies assigned one at a time, in order; the first failed assignment ends the operation with its error, the earlier ones staying set. With no cookies nothing is sent and the operation succeeds, even on a closed page. answer(i) is the reply to the i-th assignment. */
  method SetCookies(lookup: Result<SessionPage.PageContext, Error>, cookies: seq<Cookie>, quote: string -> string,
                    answer: nat -> Result<CdpClient.EvaluationResult, Error>)
    returns (r: Result<(), Error>)
    requires lookup.Ok? ==> lookup.value.Valid()
    modifies if lookup.Ok? then {lookup.value} else {}
    ensures lookup.Err? ==> r == Err(lookup.error)
    ensures lookup.Ok? ==> lookup.value.Valid() && lookup.value.active == old(lookup.value.active)
    ensures lookup.Ok? ==> var k := SessionElement.FirstFailure(answer, |cookies|);
      lookup.value.calls == old(lookup.value.calls) + (if old(lookup.value.active) then CookieCalls(cookies[..SentCount(k, |cookies|)], quote) else [])
    ensures lookup.Ok? ==> var k := SessionElement.FirstFailure(answer, |cookies|);
      r == (if cookies == [] then Ok(())
            else if !old(lookup.value.active) then Err(PageNotFound(lookup.value.id))
            else if k == |cookies| then Ok(())
            else Err(answer(k).error))
  {
    if lookup.Err? {
      return Err(lookup.error);
    }
    r := AssignEach(lookup.value, cookies, quote, answer);
  }

  /** How many of n assignments are sent: up to and including the first that fails. */
  function SentCount(k: nat, n: nat): (m: nat)
    requires k <= n
    ensures m <= n
  {
    if k < n then k + 1 else n
  }

  /** The loop of set_cookies on the found page. */
  method AssignEach(page: SessionPage.PageContext, cookies: seq<Cookie>, quote: string -> string,
                    answer: nat -> Result<CdpClient.EvaluationResult, Error>)
    returns (r: Result<(), Error>)
    requires page.Valid()
    modifies page
    ensures page.Valid() && page.active == old(page.active)
    ensures var k := SessionElement.FirstFailure(answer, |cookies|);
      page.calls == old(page.calls) + (if old(page.active) then CookieCalls(cookies[..SentCount(k, |cookies|)], quote) else [])
    ensures var k := SessionElement.FirstFailure(answer, |cookies|);
      r == (if cookies == [] then Ok(())
            else if !old(page.active) then Err(PageNotFound(page.id))
            else if k == |cookies| then Ok(())
            else Err(answer(k).error))
  {
    if cookies == [] {
      return Ok(());
    }
    if !page.active {
      r := AssignOne(page, cookies[0], quote, answer(0));
      return;
    }
    r := AssignActive(page, cookies, quote, answer);
  }

  /** The loop of set_cookies on an active page: one assignment per cookie until one fails. */
  method AssignActive(page: SessionPage.PageContext, cookies: seq<Cookie>, quote: string -> string,
                      answer: nat -> Result<CdpClient.EvaluationResult, Error>)
    returns (r: Result<(), Error>)
    requires page.Valid() && page.active
    modifies page
    ensures page.Valid() && page.active
    ensures var k := SessionElement.FirstFailure(answer, |cookies|);
      && page.calls == old(page.calls) + CookieCalls(cookies[..SentCount(k, |cookies|)], quote)
      && r == (if k == |cookies| then Ok(()) else Err(answer(k).error))
  {
    ghost var k := SessionElement.FirstFailure(answer, |cookies|);
    ghost var start := page.calls;
    var i := 0;
    while i < |cookies|
      invariant 0 <= i <= |cookies| && i <= k
      invariant page.Valid() && page.active
      invariant page.calls == start + CookieCalls(cookies[..i], quote)
    {
      var outcome := AssignOne(page, cookies[i], quote, answer(i));
      CookieCallsStep(cookies, i, quote);
      if outcome.Err? {
        assert k == i && SentCount(k, |cookies|) == i + 1;
        return outcome;
      }
      assert answer(i).Ok? && i != k;
      i := i + 1;
    }
    assert cookies[..i] == cookies && SentCount(k, |cookies|) == i;
    r := Ok(());
  }

  /** One assignment of set_cookies: the cookie's script evaluated on the page. */
  method AssignOne(page: SessionPage.PageContext, c: Cookie, quote: string -> string, reply: Result<CdpClient.EvaluationResult, Error>)
    returns (outcome: Result<(), Error>)
    requires page.Valid()
    modifies page
    ensures page.Valid() && page.active == old(page.active)
    ensures !page.active ==> page.calls == old(page.calls) && outcome == Err(PageNotFound(page.id))
    ensures page.active ==> page.calls == old(page.calls) + [CookieCall(c, quote)] && outcome == (if reply.Ok? then Ok(()) else Err(reply.error))
  {
    var evaluated := page.Evaluate(CookieCall(c, quote).script, false, reply);
    outcome := if evaluated.Ok? then Ok(()) else Err(evaluated.error);
  }
}
