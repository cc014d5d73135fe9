// The page service's conversions between its protocol messages and the
// session layer's values (src/services/page/conversions.rs, and the private
// copies of the same tables in src/services/page/service.rs), the two ways
// its handlers report an error, and the screenshot handler's reply. The
// protocol's enum numbers are fixed by a protocol definition that is not
// part of this model, so its enums are kept by name; the printing of a
// JSON value as text is a parameter.

module PageConversions {
  import opened Wrappers
  import opened Errors
  import opened Json
  import opened SessionTypes
  import opened ProtoError
  import Grpc
  import Traits
  import CdpClient
  import PageResponse
  import SessionPage

  /** A protocol `int32`. */
  type I32 = x: int | -0x8000_0000 <= x < 0x8000_0000

  /** Rust's `max(0)` on a protocol integer, widened to an unsigned size. */
  function NonNegative(x: I32): (n: nat)
    ensures x >= 0 ==> n == x
    ensures x < 0 ==> n == 0
  {
    if x < 0 then 0 else x
  }

  // ------------------------------------------------------------ navigation

  /** The protocol's load states; Unspecified is what an unknown number decodes to. */
  datatype WaitCondition = WaitUnspecified | WaitLoad | WaitDomContentLoaded | WaitNetworkIdle | WaitNetworkAlmostIdle

  datatype ProtoNavigationOptions = ProtoNavigationOptions(timeout: I32, waitUntil: WaitCondition)

  /** proto_to_navigation_options: a negative timeout becomes 0, and an unspecified load state means Load. */
  function ToNavigationOptions(o: ProtoNavigationOptions): (n: NavigationOptions)
    ensures n.timeout == NonNegative(o.timeout)
    ensures n.waitUntil == Load <==> o.waitUntil == WaitUnspecified || o.waitUntil == WaitLoad
  {
    var waitUntil :=
      match o.waitUntil
      case WaitUnspecified => Load
      case WaitLoad => Load
      case WaitDomContentLoaded => DOMContentLoaded
      case WaitNetworkIdle => NetworkIdle
      case WaitNetworkAlmostIdle => NetworkAlmostIdle;
    NavigationOptions(NonNegative(o.timeout), waitUntil)
  }

  /** The protocol load state that names each session load state. */
  function WaitConditionOf(s: LoadState): WaitCondition
  {
    match s
    case Load => WaitLoad
    case DOMContentLoaded => WaitDomContentLoaded
    case NetworkIdle => WaitNetworkIdle
    case NetworkAlmostIdle => WaitNetworkAlmostIdle
  }

  /** Every navigation option whose timeout fits the protocol survives the trip through it, and the load states other than Unspecified are told apart. */
  lemma NavigationRoundTrip(n: NavigationOptions, w1: WaitCondition, w2: WaitCondition)
    requires n.timeout < 0x8000_0000
    ensures ToNavigationOptions(ProtoNavigationOptions(n.timeout, WaitConditionOf(n.waitUntil))) == n
    ensures w1 != WaitUnspecified && w2 != WaitUnspecified && w1 != w2 ==>
      ToNavigationOptions(ProtoNavigationOptions(0, w1)).waitUntil != ToNavigationOptions(ProtoNavigationOptions(0, w2)).waitUntil
  {
  }

  // ------------------------------------------------------------ screenshots

  /** The protocol's image formats; Unspecified is what an unknown number decodes to. */
  datatype FormatCode = FormatUnspecified | FormatPng | FormatJpeg | FormatWebp

  datatype ProtoRectangle = ProtoRectangle(x: real, y: real, width: real, height: real)

  datatype ProtoScreenshotOptions = ProtoScreenshotOptions(format: FormatCode, quality: I32, fullPage: bool, clip: Option<ProtoRectangle>)

  /** The `as u8` cast: the low eight bits. */
  function LowByte(q: I32): (b: CdpClient.U8)
    ensures 0 <= q < 256 ==> b == q
  {
    q % 256
  }

  /** proto_to_screenshot_options: an unspecified format means PNG; a positive quality is kept as its low byte and anything else means no quality; a clip region gets scale 1. */
  function ToScreenshotOptions(o: ProtoScreenshotOptions): (s: ScreenshotOptions)
    ensures s.format == Png <==> o.format == FormatUnspecified || o.format == FormatPng
    ensures s.quality.Some? <==> o.quality > 0
    ensures s.quality.Some? ==> s.quality.value == o.quality % 256
    ensures s.fullPage == o.fullPage
    ensures s.clip.Some? <==> o.clip.Some?
    ensures s.clip.Some? ==> s.clip.value == ClipRegion(o.clip.value.x, o.clip.value.y, o.clip.value.width, o.clip.value.height, 1.0)
  {
    var format :=
      match o.format
      case FormatUnspecified => Png
      case FormatPng => Png
      case FormatJpeg => Jpeg
      case FormatWebp => WebP;
    var clip :=
      match o.clip
      case Some(rect) => Some(ClipRegion(rect.x, rect.y, rect.width, rect.height, 1.0))
      case None => None;
    ScreenshotOptions(format, if o.quality > 0 then Some(LowByte(o.quality)) else None, o.fullPage, clip)
  }

  /** The protocol format that names each session format. */
  function FormatCodeOf(f: ScreenshotFormat): FormatCode
  {
    match f
    case Png => FormatPng
    case Jpeg => FormatJpeg
    case WebP => FormatWebp
  }

  /** The protocol message that stands for a session screenshot option set, a missing quality written as 0. */
  function FromScreenshotOptions(s: ScreenshotOptions): ProtoScreenshotOptions
  {
    var clip :=
      match s.clip
      case Some(c) => Some(ProtoRectangle(c.x, c.y, c.width, c.height))
      case None => None;
    ProtoScreenshotOptions(FormatCodeOf(s.format), if s.quality.Some? then s.quality.value else 0, s.fullPage, clip)
  }

  /** Options whose quality is not 0 and whose clip has scale 1 survive the trip through the protocol. */
  lemma ScreenshotRoundTrip(s: ScreenshotOptions)
    requires s.quality != Some(0)
    requires s.clip.Some? ==> s.clip.value.scale == 1.0
    ensures ToScreenshotOptions(FromScreenshotOptions(s)) == s
  {
  }

  /** A quality above 255 wraps: 256 asks for quality 0 and 300 for 44. */
  lemma QualityWraps(format: FormatCode)
    ensures ToScreenshotOptions(ProtoScreenshotOptions(format, 256, false, None)).quality == Some(0)
    ensures ToScreenshotOptions(ProtoScreenshotOptions(format, 300, false, None)).quality == Some(44)
  {
  }

  // ------------------------------------------------------------ script results

  /** evaluation_result_from_session: each variant to the same-named one, payload unchanged. */
  function FromSession(s: EvaluationResult): (t: Traits.EvaluationResult)
    ensures ToSession(t) == s
  {
    match s
    case String(x) => Traits.String(x)
    case Number(n) => Traits.Number(n)
    case Bool(b) => Traits.Bool(b)
    case Null => Traits.Null
    case Object(v) => Traits.Object(v)
  }

  /** The session result a service result stands for. */
  function ToSession(t: Traits.EvaluationResult): EvaluationResult
  {
    match t
    case String(x) => String(x)
    case Number(n) => Number(n)
    case Bool(b) => Bool(b)
    case Null => Null
    case Object(v) => Object(v)
  }

  /** The translation loses nothing in either direction. */
  lemma SessionRoundTrip(t: Traits.EvaluationResult)
    ensures FromSession(ToSession(t)) == t
  {
    assert ToSession(FromSession(ToSession(t))) == ToSession(t);
  }

  /** The value slot of a protocol evaluation result. */
  datatype ProtoValue = StringValue(s: string) | DoubleValue(d: real) | BoolValue(b: bool) | NullValue

  datatype ProtoEvaluationResult = ProtoEvaluationResult(response: ProtoValue, typeName: string, className: string)

  /** evaluation_result_to_proto: each variant tagged with its JavaScript type name, the class name empty; an object travels as its JSON text in the string slot. */
  function EvaluationToProto(r: Traits.EvaluationResult, jsonText: Json -> string): (p: ProtoEvaluationResult)
    ensures p.className == ""
    ensures r.String? ==> p == ProtoEvaluationResult(StringValue(r.s), "string", "")
    ensures r.Number? ==> p == ProtoEvaluationResult(DoubleValue(r.n), "number", "")
    ensures r.Bool? ==> p == ProtoEvaluationResult(BoolValue(r.b), "boolean", "")
    ensures r.Null? ==> p == ProtoEvaluationResult(NullValue, "null", "")
    ensures r.Object? ==> p == ProtoEvaluationResult(StringValue(jsonText(r.value)), "object", "")
  {
    match r
    case String(s) => ProtoEvaluationResult(StringValue(s), "string", "")
    case Number(n) => ProtoEvaluationResult(DoubleValue(n), "number", "")
    case Bool(b) => ProtoEvaluationResult(BoolValue(b), "boolean", "")
    case Null => ProtoEvaluationResult(NullValue, "null", "")
    case Object(v) => ProtoEvaluationResult(StringValue(jsonText(v)), "object", "")
  }

  /** What a client reads back from a protocol evaluation result, given a reader of JSON text; the type name decides. */
  function EvaluationFromProto(p: ProtoEvaluationResult, parse: string -> Option<Json>): Option<Traits.EvaluationResult>
  {
    match (p.typeName, p.response)
    case ("string", StringValue(s)) => Some(Traits.String(s))
    case ("number", DoubleValue(d)) => Some(Traits.Number(d))
    case ("boolean", BoolValue(b)) => Some(Traits.Bool(b))
    case ("null", NullValue) => Some(Traits.Null)
    case ("object", StringValue(s)) => if parse(s).Some? then Some(Traits.Object(parse(s).value)) else None
    case _ => None
  }

  /** The type name keeps a string result apart from an object's JSON text, so any reader that undoes the printing recovers every result. */
  lemma EvaluationProtoRoundTrip(r: Traits.EvaluationResult, jsonText: Json -> string, parse: string -> Option<Json>)
    requires r.Object? ==> parse(jsonText(r.value)) == Some(r.value)
    ensures EvaluationFromProto(EvaluationToProto(r, jsonText), parse) == Some(r)
  {
  }

  /** Two results get the same type name exactly when they are the same variant. */
  lemma TypeNamesDistinct(r1: Traits.EvaluationResult, r2: Traits.EvaluationResult, jsonText: Json -> string)
    ensures EvaluationToProto(r1, jsonText).typeName == EvaluationToProto(r2, jsonText).typeName <==>
      (r1.String? && r2.String?) || (r1.Number? && r2.Number?) || (r1.Bool? && r2.Bool?) ||
      (r1.Null? && r2.Null?) || (r1.Object? && r2.Object?)
  {
  }

  // ------------------------------------------------------------ results

  datatype ScreenshotResult = ScreenshotResult(data: seq<CdpClient.U8>, format: string, width: int, height: int)

  /** The name of each capture format. */
  function FormatName(f: ScreenshotFormat): string
  {
    match f
    case Png => "png"
    case Jpeg => "jpeg"
    case WebP => "webp"
  }

  /** The capture format a name stands for. */
  function FormatOfName(name: string): Option<ScreenshotFormat>
  {
    if name == "png" then Some(Png)
    else if name == "jpeg" then Some(Jpeg)
    else if name == "webp" then Some(WebP)
    else None
  }

  /** screenshot_to_proto: the data unchanged, the format by name, and a fixed 1920×1080 size. */
  function ScreenshotToProto(data: seq<CdpClient.U8>, format: ScreenshotFormat): (r: ScreenshotResult)
    ensures r.data == data && r.width == 1920 && r.height == 1080
    ensures FormatOfName(r.format) == Some(format)
  {
    ScreenshotResult(data, FormatName(format), 1920, 1080)
  }

  datatype ProtoNavigationResult = ProtoNavigationResult(url: string, statusCode: I32, isLoaded: bool)

  /** A Rust `u16`. */
  type U16 = x: int | 0 <= x < 0x1_0000

  /** navigation_result_to_proto: the URL and the loaded flag copied, the status code widened. */
  function NavigationToProto(url: string, statusCode: U16, isLoaded: bool): (r: ProtoNavigationResult)
    ensures r.url == url && r.statusCode == statusCode && r.isLoaded == isLoaded
  {
    ProtoNavigationResult(url, statusCode, isLoaded)
  }

  /** The widening loses nothing: different results stay different. */
  lemma NavigationToProtoInjective(u1: string, c1: U16, l1: bool, u2: string, c2: U16, l2: bool)
    requires NavigationToProto(u1, c1, l1) == NavigationToProto(u2, c2, l2)
    ensures u1 == u2 && c1 == c2 && l1 == l2
  {
  }

  // ------------------------------------------------------------ handler replies

  /** How the handlers under src/services/page/handlers report a failure: as a failed call with a gRPC status. */
  function StatusReply<T>(r: Result<T, Error>): (s: Result<T, Grpc.Status>)
    ensures s.Ok? <==> r.Ok?
    ensures r.Ok? ==> s.value == r.value
    ensures r.Err? ==> s.error == PageResponse.ErrorToStatus(r.error)
  {
    match r
    case Ok(v) => Ok(v)
    case Err(e) => Err(PageResponse.ErrorToStatus(e))
  }

  /** How the handlers of src/services/page/service.rs report a failure: as a successful call whose reply carries the application error. */
  function ProtoReply<T>(r: Result<T, Error>): (s: Result<T, ProtoErr>)
    ensures s.Ok? <==> r.Ok?
    ensures r.Ok? ==> s.value == r.value
    ensures r.Err? ==> s.error == PageResponse.ErrorToProto(r.error)
  {
    match r
    case Ok(v) => Ok(v)
    case Err(e) => Err(PageResponse.ErrorToProto(e))
  }

  /** The two reporting styles fail on the same outcomes, with the same message, the status code being the one the application code maps to. */
  lemma RepliesAgree<T>(r: Result<T, Error>)
    ensures StatusReply(r).Ok? <==> ProtoReply(r).Ok?
    ensures r.Err? ==> StatusReply(r).error.message == ProtoReply(r).error.message == Display(r.error)
    ensures r.Err? ==> StatusReply(r).error.code == PageResponse.StatusCodeOf(ProtoReply(r).error.code)
  {
  }

  /** The screenshot handler of src/services/page/service.rs: the page is looked up, the options converted and the capture taken; the reply always says PNG at 1920×1080, whatever format was asked for. */
  method Screenshot(lookup: Result<SessionPage.PageContext, Error>, options: Option<ProtoScreenshotOptions>, reply: Result<seq<CdpClient.U8>, Error>)
    returns (r: Result<ScreenshotResult, ProtoErr>)
    requires lookup.Ok? ==> lookup.value.Valid()
    modifies if lookup.Ok? then {lookup.value} else {}
    ensures lookup.Err? ==> r == Err(PageResponse.ErrorToProto(lookup.error))
    ensures lookup.Ok? ==> lookup.value.Valid() && lookup.value.active == old(lookup.value.active)
    ensures lookup.Ok? && !old(lookup.value.active) ==>
      r == Err(PageResponse.ErrorToProto(PageNotFound(lookup.value.id))) && lookup.value.calls == old(lookup.value.calls)
    ensures lookup.Ok? && old(lookup.value.active) ==>
      && lookup.value.calls == old(lookup.value.calls) + [ScreenshotCall(SessionPage.ConvertScreenshotFormat(ToScreenshotOptions(UnwrapOr(options, DefaultScreenshotOptions)).format))]
      && r == ProtoReply(if reply.Ok? then Ok(ScreenshotResult(reply.value, "png", 1920, 1080)) else Err(reply.error))
  {
    if lookup.Err? {
      return Err(PageResponse.ErrorToProto(lookup.error));
    }
    var page := lookup.value;
    var taken := page.Screenshot(ToScreenshotOptions(UnwrapOr(options, DefaultScreenshotOptions)), reply);
    if taken.Err? {
      return Err(PageResponse.ErrorToProto(taken.error));
    }
    r := Ok(ScreenshotResult(taken.value, "png", 1920, 1080));
  }

  /** The protocol's default screenshot options (a missing message). */
  const DefaultScreenshotOptions: ProtoScreenshotOptions := ProtoScreenshotOptions(FormatUnspecified, 0, false, None)

  /** The reply names the format PNG even for a JPEG capture, where screenshot_to_proto would name it correctly. */
  lemma ScreenshotReplyMislabels(data: seq<CdpClient.U8>)
    ensures ScreenshotResult(data, "png", 1920, 1080) != ScreenshotToProto(data, Jpeg)
    ensures ScreenshotResult(data, "png", 1920, 1080) == ScreenshotToProto(data, Png)
  {
    assert FormatName(Jpeg) != "png";
  }
}
