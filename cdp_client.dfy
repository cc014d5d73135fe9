// The DevTools-protocol client (src/cdp/client.rs): typed calls on top of
// the connection's send_command. The replies the browser sends are
// parameters; what the client makes of them is modelled here: reading a
// RemoteObject into an evaluation result, exceptions raised by scripts,
// the bounded readyState polling after a navigation, and the event filter.

module CdpClient {
  import opened Wrappers
  import opened Errors
  import opened Json

  /** The values of a Rust `u8`. */
  type U8 = x: int | 0 <= x < 256

  /** What an evaluated script produced, as the client reports it. */
  datatype EvaluationResult =
    | String(s: string)
    | Number(n: real)
    | Bool(b: bool)
    | Null
    | Object(value: Json)

  /** The capture format, with the quality the browser is asked for. */
  datatype ScreenshotFormat = Png | Jpeg(quality: U8) | WebP(quality: U8)

  /** A RemoteObject after decoding: its type name and its value, where a JSON null counts as absent. */
  datatype RemoteObject = RemoteObject(typeName: string, value: Option<Json>)

  /** A response as the connection hands it over. */
  datatype CdpResponse = CdpResponse(id: nat, result: Option<Json>)

  /** navigate's answer: the navigation id, the URL reached and the status. */
  datatype NavigationResult = NavigationResult(navigationId: Option<string>, url: string, statusCode: nat)

  // ------------------------------------------------------------ remote objects

  /** parse_remote_object: the object's type name decides the variant; a value of the wrong kind falls back to the variant's default. */
  function ParseRemoteObject(o: RemoteObject): (r: Result<EvaluationResult, Error>)
    ensures r.Ok?
  {
    var v := o.value;
    match o.typeName
    case "string" => Ok(String(if v.Some? && v.value.JString? then v.value.s else ""))
    case "number" => Ok(Number(if v.Some? && v.value.JNumber? then v.value.n else 0.0))
    case "boolean" => Ok(Bool(if v.Some? && v.value.JBool? then v.value.b else false))
    case "undefined" => Ok(Null)
    case "null" => Ok(Null)
    case "object" => Ok(Object(UnwrapOr(v, JNull)))
    case "function" => Ok(Object(UnwrapOr(v, JNull)))
    case "bigint" => Ok(Object(UnwrapOr(v, JNull)))
    case "symbol" => Ok(Object(UnwrapOr(v, JNull)))
    case _ => Ok(Null)
  }

  /** The RemoteObject a browser sends for a value; a JSON null arrives as no value. */
  function Describe(e: EvaluationResult): RemoteObject
  {
    match e
    case String(s) => RemoteObject("string", Some(JString(s)))
    case Number(n) => RemoteObject("number", Some(JNumber(n)))
    case Bool(b) => RemoteObject("boolean", Some(JBool(b)))
    case Null => RemoteObject("null", None)
    case Object(j) => RemoteObject("object", if j.JNull? then None else Some(j))
  }

  /** Every evaluation result survives the trip through a RemoteObject unchanged. */
  lemma ParseDescribe(e: EvaluationResult)
    ensures ParseRemoteObject(Describe(e)) == Ok(e)
  {
  }

  /** A type name the parser does not know, and a missing value of a known scalar type, give the defaults. */
  lemma ParseDefaults(t: string)
    ensures t !in {"string", "number", "boolean", "undefined", "null", "object", "function", "bigint", "symbol"} ==>
      ParseRemoteObject(RemoteObject(t, None)) == Ok(Null)
    ensures ParseRemoteObject(RemoteObject("string", None)) == Ok(String(""))
    ensures ParseRemoteObject(RemoteObject("number", Some(JString("1")))) == Ok(Number(0.0))
    ensures ParseRemoteObject(RemoteObject("boolean", None)) == Ok(Bool(false))
  {
  }

  /** An optional string field decodes when it is missing, null or a string. */
  predicate OptionalStringField(j: Json, key: string)
    requires j.JObject?
  {
    key !in j.fields || j.fields[key].JNull? || j.fields[key].JString?
  }

  /** Decoding the `result` field of a Runtime.evaluate reply into a RemoteObject: a missing field gives the default (type ""), and a field of the wrong shape fails. */
  function DecodeRemoteObject(reply: Json): (r: Option<RemoteObject>)
    ensures Get(reply, "result").None? && reply.JObject? ==> r == Some(RemoteObject("", None))
    ensures !reply.JObject? ==> r.None?
  {
    if !reply.JObject? then None
    else if "result" !in reply.fields then Some(RemoteObject("", None))
    else
      var o := reply.fields["result"];
      if !o.JObject? then None
      else if "type" in o.fields && !o.fields["type"].JString? then None
      else if !OptionalStringField(o, "subtype") || !OptionalStringField(o, "description")
        || !OptionalStringField(o, "unserializableValue") then None
      else
        var t := if "type" in o.fields then o.fields["type"].s else "";
        var v := if "value" in o.fields && !o.fields["value"].JNull? then Some(o.fields["value"]) else None;
        Some(RemoteObject(t, v))
  }

  /** The message of a script exception: exceptionDetails.exception.description, or "Unknown error". */
  function ExceptionMessage(details: Json): string
  {
    match Get(details, "exception")
    case Some(ex) => UnwrapOr(StrField(ex, "description"), "Unknown error")
    case None => "Unknown error"
  }

  /** evaluate, after call_method: a reply carrying exceptionDetails fails with the exception's description; otherwise the RemoteObject is decoded and parsed. */
  function EvaluateReply(call: Result<Json, Error>): (r: Result<EvaluationResult, Error>)
    ensures call.Err? ==> r == Err(call.error)
    ensures call.Ok? && Get(call.value, "exceptionDetails").Some? ==>
      r == Err(ScriptExecutionFailed(ExceptionMessage(call.value.fields["exceptionDetails"])))
    ensures call.Ok? && Get(call.value, "exceptionDetails").None? ==>
      (r.Ok? <==> DecodeRemoteObject(call.value).Some?)
    ensures r.Err? && call.Ok? && Get(call.value, "exceptionDetails").None? ==> r.error.Cdp?
  {
    match call
    case Err(e) => Err(e)
    case Ok(reply) =>
      match Get(reply, "exceptionDetails")
      case Some(details) => Err(ScriptExecutionFailed(ExceptionMessage(details)))
      case None =>
        match DecodeRemoteObject(reply)
        case None => Err(Cdp("Failed to parse EvaluateResponse"))
        case Some(o) => ParseRemoteObject(o)
  }

  /** A reply describing a value, with no exception, evaluates to that value. */
  lemma EvaluateDescribed(e: EvaluationResult)
    ensures EvaluateReply(Ok(JObject(map["result" := RemoteJson(Describe(e))]))) == Ok(e)
  {
    var reply := JObject(map["result" := RemoteJson(Describe(e))]);
    assert "exceptionDetails" !in reply.fields;
    assert DecodeRemoteObject(reply) == Some(Describe(e));
    ParseDescribe(e);
  }

  /** A RemoteObject as the JSON object the browser sends. */
  function RemoteJson(o: RemoteObject): Json
  {
    JObject(map["type" := JString(o.typeName)] + if o.value.Some? then map["value" := o.value.value] else map[])
  }

  /** call_method: the result of the response, or a Cdp error when it has none. */
  function CallMethod(response: Result<CdpResponse, Error>): (r: Result<Json, Error>)
    ensures response.Err? ==> r == Err(response.error)
    ensures response.Ok? && response.value.result.Some? ==> r == Ok(response.value.result.value)
    ensures response.Ok? && response.value.result.None? ==> r == Err(Cdp("No result in response"))
  {
    match response
    case Err(e) => Err(e)
    case Ok(resp) => if resp.result.Some? then Ok(resp.result.value) else Err(Cdp("No result in response"))
  }

  /** get_content: the evaluated outerHTML when it is a string, otherwise the empty string; evaluation errors pass through. */
  function GetContent(eval: Result<EvaluationResult, Error>): (r: Result<string, Error>)
    ensures eval.Err? <==> r.Err?
    ensures eval.Err? ==> r.error == eval.error
    ensures eval.Ok? && eval.value.String? ==> r == Ok(eval.value.s)
    ensures eval.Ok? && !eval.value.String? ==> r == Ok("")
  {
    match eval
    case Err(e) => Err(e)
    case Ok(String(html)) => Ok(html)
    case Ok(_) => Ok("")
  }

  /** The method enable_domain calls: the domain followed by ".enable". */
  function EnableMethod(domain: string): (m: string)
    ensures |m| == |domain| + 7 && m[..|domain|] == domain && m[|domain|..] == ".enable"
  {
    domain + ".enable"
  }

  /** The parameters of Page.captureScreenshot: the format name, and a quality for the lossy formats. */
  function ScreenshotParams(f: ScreenshotFormat): (p: Json)
    ensures p.JObject? && "format" in p.fields
    ensures "quality" in p.fields <==> !f.Png?
    ensures !f.Png? ==> p.fields["quality"] == JNumber(f.quality as real)
  {
    match f
    case Png => JObject(map["format" := JString("png")])
    case Jpeg(q) => JObject(map["format" := JString("jpeg"), "quality" := JNumber(q as real)])
    case WebP(q) => JObject(map["format" := JString("webp"), "quality" := JNumber(q as real)])
  }

  /** screenshot, after the call: the base64 `data` field decoded; a missing field or undecodable text fails with a Cdp error. */
  function ScreenshotReply(call: Result<Json, Error>, decode: string -> Option<seq<U8>>): (r: Result<seq<U8>, Error>)
    ensures call.Err? ==> r == Err(call.error)
    ensures call.Ok? && StrField(call.value, "data").None? ==> r == Err(Cdp("No data in screenshot result"))
    ensures r.Ok? ==> call.Ok? && StrField(call.value, "data").Some? && decode(StrField(call.value, "data").value) == Some(r.value)
  {
    match call
    case Err(e) => Err(e)
    case Ok(reply) =>
      match StrField(reply, "data")
      case None => Err(Cdp("No data in screenshot result"))
      case Some(data) =>
        match decode(data)
        case Some(bytes) => Ok(bytes)
        case None => Err(Cdp("Failed to decode screenshot"))
  }

  // ------------------------------------------------------------ navigate

  /** The most readyState polls navigate makes. */
  const MaxPolls: nat := 50

  /** The answer of poll k; polls the page never answered count as failed evaluations. */
  function Poll(polls: seq<Result<EvaluationResult, Error>>, k: nat): Result<EvaluationResult, Error>
  {
    if k < |polls| then polls[k] else Err(Timeout("no answer"))
  }

  /** A poll answer that ends the waiting: the string "complete". */
  predicate Complete(a: Result<EvaluationResult, Error>)
  {
    a.Ok? && a.value.String? && a.value.s == "complete"
  }

  /** The URL navigate reports: frame.url from the reply when it is a string, else the requested URL. */
  function ReachedUrl(reply: Json, requested: string): string
  {
    match Get(reply, "frame")
    case Some(frame) => UnwrapOr(StrField(frame, "url"), requested)
    case None => requested
  }

  /** navigate: Page.navigate, then up to fifty readyState polls that stop at the first "complete"; polling never fails the navigation, and the status is always 200. */
  method Navigate(url: string, call: Result<Json, Error>, polls: seq<Result<EvaluationResult, Error>>)
    returns (r: Result<NavigationResult, Error>, attempts: nat)
    ensures call.Err? ==> r == Err(call.error) && attempts == 0
    ensures call.Ok? ==>
      && r == Ok(NavigationResult(StrField(call.value, "navigationId"), ReachedUrl(call.value, url), 200))
      && 1 <= attempts <= MaxPolls
      && (forall k :: 0 <= k < attempts - 1 ==> !Complete(Poll(polls, k)))
      && (attempts < MaxPolls ==> Complete(Poll(polls, attempts - 1)))
  {
    if call.Err? {
      return Err(call.error), 0;
    }
    var pageLoaded := false;
    attempts := 0;
    while attempts < MaxPolls && !pageLoaded
      invariant 0 <= attempts <= MaxPolls
      invariant forall k :: 0 <= k < attempts - 1 ==> !Complete(Poll(polls, k))
      invariant attempts > 0 && !pageLoaded ==> !Complete(Poll(polls, attempts - 1))
      invariant pageLoaded <==> attempts > 0 && Complete(Poll(polls, attempts - 1))
    {
      var answer := Poll(polls, attempts);
      if Complete(answer) {
        pageLoaded := true;
      }
      attempts := attempts + 1;
    }
    r := Ok(NavigationResult(StrField(call.value, "navigationId"), ReachedUrl(call.value, url), 200));
  }

  /** A page that reports "complete" at once is polled exactly once; one that never does is polled fifty times. */
  lemma PollCounts(polls: seq<Result<EvaluationResult, Error>>, attempts: nat)
    requires 1 <= attempts <= MaxPolls
    requires forall k :: 0 <= k < attempts - 1 ==> !Complete(Poll(polls, k))
    requires attempts < MaxPolls ==> Complete(Poll(polls, attempts - 1))
    ensures |polls| > 0 && Complete(polls[0]) ==> attempts == 1
    ensures (forall k :: 0 <= k < |polls| ==> !Complete(polls[k])) ==> attempts == MaxPolls
  {
    if |polls| > 0 {
      assert Poll(polls, 0) == polls[0];
    }
  }

  // ------------------------------------------------------------ events

  /** subscribe_events forwards an event iff its method is the filter or the filter is "*". */
  predicate Forwards(filter: string, eventMethod: string)
  {
    eventMethod == filter || filter == "*"
  }

  /** The methods of the events a subscription passes on, in arrival order. */
  function Forwarded(filter: string, methods: seq<string>): (r: seq<string>)
    ensures |r| <= |methods|
    ensures forall m :: m in r ==> m in methods && Forwards(filter, m)
  {
    if methods == [] then []
    else (if Forwards(filter, methods[0]) then [methods[0]] else []) + Forwarded(filter, methods[1..])
  }

  /** The filter "*" lets every event through, in order. */
  lemma {:induction false} StarForwardsAll(methods: seq<string>)
    ensures Forwarded("*", methods) == methods
  {
    if methods != [] {
      StarForwardsAll(methods[1..]);
      assert methods == [methods[0]] + methods[1..];
    }
  }

  /** Any other filter passes exactly the events of that method: as many as there are. */
  lemma {:induction false} ExactFilterCounts(filter: string, methods: seq<string>)
    requires filter != "*"
    ensures forall m :: m in Forwarded(filter, methods) ==> m == filter
    ensures multiset(Forwarded(filter, methods))[filter] == multiset(methods)[filter]
  {
    if methods != [] {
      var h := if Forwards(filter, methods[0]) then [methods[0]] else [];
      ExactFilterCounts(filter, methods[1..]);
      assert Forwarded(filter, methods) == h + Forwarded(filter, methods[1..]);
      assert methods == [methods[0]] + methods[1..];
    }
  }
}
