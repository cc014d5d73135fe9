// The conversions of the browser service (src/services/browser/service.rs):
// its own table from errors to protocol error codes, the reading of a
// launch request's options, the status report, and connect_to, which is a
// placeholder. The environment variable naming a DevTools endpoint is a
// parameter.

module BrowserService {
  import opened Wrappers
  import opened Errors
  import opened ProtoError
  import opened SessionTypes
  import PageResponse
  import PageConversions
  import Fingerprints

  /** error_to_proto of the browser service: its code, the display text as message, no details. */
  function ErrorToProto(e: Error): (p: ProtoErr)
    ensures p.message == Display(e) && p.details == map[]
  {
    var code :=
      match e
      case BrowserNotFound(_) => NotFound
      case Configuration(_) => InvalidArgument
      case Timeout(_) => ErrorCode.Timeout
      case _ => ErrorCode.Internal;
    ProtoErr(code, Display(e), map[])
  }

  /** Three variants get a code of their own; every other one is Internal. */
  lemma ErrorToProtoCodes(e: Error)
    ensures ErrorToProto(e).code == NotFound <==> e.BrowserNotFound?
    ensures ErrorToProto(e).code == InvalidArgument <==> e.Configuration?
    ensures ErrorToProto(e).code == ErrorCode.Timeout <==> e.Timeout?
    ensures ErrorToProto(e).code == ErrorCode.Internal <==> !(e.BrowserNotFound? || e.Configuration? || e.Timeout?)
  {
  }

  /** The browser and page services give the same code except for BrowserNotFound (NotFound here, Internal there), PageNotFound (Internal here, PageClosed there), NavigationFailed and ScriptExecutionFailed (Internal here, codes of their own there). */
  lemma ServicesDisagree(e: Error)
    ensures ErrorToProto(e) == PageResponse.ErrorToProto(e) <==>
              !(e.BrowserNotFound? || e.PageNotFound? || e.NavigationFailed? || e.ScriptExecutionFailed?)
  {
  }

  // ------------------------------------------------------------ launch options

  /** The options of a launch request, with the protocol's i32 window sizes and empty strings for absent texts. */
  datatype ProtoBrowserOptions = ProtoBrowserOptions(
    headless: bool,
    windowWidth: PageConversions.I32,
    windowHeight: PageConversions.I32,
    userAgent: string,
    proxyServer: string,
    args: seq<string>,
    executablePath: string)

  /** An empty protocol string read as absent. */
  function NonEmpty(s: string): (o: Option<string>)
    ensures o.None? <==> s == ""
    ensures o.Some? ==> o.value == s
  {
    if s == "" then None else Some(s)
  }

  /** An absent text written as the empty string. */
  function OrEmpty(o: Option<string>): string
  {
    match o
    case None => ""
    case Some(s) => s
  }

  /** proto_to_browser_options: negative window sizes raised to 0, empty texts read as absent, headless and args copied; the DevTools endpoint comes from the environment (cdpEndpoint), not the request. */
  function ToBrowserOptions(o: ProtoBrowserOptions, cdpEndpoint: Option<string>): (b: BrowserOptions)
    ensures b.headless == o.headless && b.args == o.args && b.cdpEndpoint == cdpEndpoint
    ensures b.windowWidth == (if o.windowWidth < 0 then 0 else o.windowWidth)
    ensures b.windowHeight == (if o.windowHeight < 0 then 0 else o.windowHeight)
    ensures b.userAgent.None? <==> o.userAgent == ""
    ensures b.proxy.None? <==> o.proxyServer == ""
    ensures b.executablePath.None? <==> o.executablePath == ""
  {
    BrowserOptions(
      o.headless,
      PageConversions.NonNegative(o.windowWidth),
      PageConversions.NonNegative(o.windowHeight),
      NonEmpty(o.userAgent),
      NonEmpty(o.proxyServer),
      o.args,
      NonEmpty(o.executablePath),
      cdpEndpoint)
  }

  /** The request that asks for given options: sizes as they are, absent texts as empty strings. */
  function FromBrowserOptions(b: BrowserOptions): (o: ProtoBrowserOptions)
    requires b.windowWidth < 0x8000_0000 && b.windowHeight < 0x8000_0000
  {
    ProtoBrowserOptions(b.headless, b.windowWidth, b.windowHeight, OrEmpty(b.userAgent), OrEmpty(b.proxy), b.args, OrEmpty(b.executablePath))
  }

  /** Options whose sizes fit an i32 and whose present texts are not empty come back from their request. */
  lemma OptionsRoundTrip(b: BrowserOptions)
    requires b.windowWidth < 0x8000_0000 && b.windowHeight < 0x8000_0000
    requires b.userAgent != Some("") && b.proxy != Some("") && b.executablePath != Some("")
    ensures ToBrowserOptions(FromBrowserOptions(b), b.cdpEndpoint) == b
  {
  }

  /** A request with no negative size comes back from the options it gives; a negative size comes back as 0. */
  lemma RequestRoundTrip(o: ProtoBrowserOptions, cdpEndpoint: Option<string>)
    ensures var back := FromBrowserOptions(ToBrowserOptions(o, cdpEndpoint));
      && (o.windowWidth >= 0 && o.windowHeight >= 0 ==> back == o)
      && (o.windowWidth < 0 ==> back.windowWidth == 0)
      && (o.windowHeight < 0 ==> back.windowHeight == 0)
  {
  }

  // ------------------------------------------------------------ status

  /** The session layer's status of a browser; the page count is a `usize`, the uptime a `u64` of milliseconds. */
  datatype BrowserStatus = BrowserStatus(isActive: bool, pageCount: nat, uptimeMs: nat)

  datatype ProtoBrowserStatus = ProtoBrowserStatus(
    browserId: string, isRunning: bool, pageCount: PageConversions.I32,
    uptimeSeconds: nat, memoryUsageBytes: nat, activePages: seq<string>)

  /** browser_status_to_proto: the running flag, the page count cut to an i32, the uptime in whole seconds; the id, memory and active pages are left empty. */
  function StatusToProto(s: BrowserStatus): (p: ProtoBrowserStatus)
    ensures p.browserId == "" && p.memoryUsageBytes == 0 && p.activePages == []
    ensures p.isRunning == s.isActive
    ensures s.pageCount < 0x8000_0000 ==> p.pageCount == s.pageCount
  {
    ProtoBrowserStatus("", s.isActive, Fingerprints.WrapI32(s.pageCount), s.uptimeMs / 1000, 0, [])
  }

  /** The reported uptime is the whole seconds elapsed: the milliseconds lie within the reported second. */
  lemma UptimeWholeSeconds(s: BrowserStatus)
    ensures StatusToProto(s).uptimeSeconds * 1000 <= s.uptimeMs < (StatusToProto(s).uptimeSeconds + 1) * 1000
  {
  }

  /** A page count of 2^31 or more is reported wrapped: 2^31 pages read as a negative count. */
  lemma PageCountWraps()
    ensures StatusToProto(BrowserStatus(true, 0x8000_0000, 0)).pageCount == -0x8000_0000
    ensures StatusToProto(BrowserStatus(true, 0x1_0000_0000, 0)).pageCount == 0
  {
  }

  // ------------------------------------------------------------ connect_to

  /** connect_to: not implemented; every request is answered with an Internal error saying so. */
  function ConnectTo(): (p: ProtoErr)
    ensures p.code == ErrorCode.Internal && p.details == map[]
    ensures p.message == "Internal error: Connect not implemented yet"
  {
    ErrorToProto(Error.Internal("Connect not implemented yet"))
  }
}
