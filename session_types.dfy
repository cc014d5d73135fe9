// The values the session layer passes around (src/session/traits.rs) and
// the operations a page's DevTools client offers it (src/cdp/traits.rs).
// The session layer is modelled by the calls it issues on that client; the
// client's answers are parameters of the session operations.

module SessionTypes {
  import opened Wrappers
  import opened Json
  import CdpClient

  /** A script's value as the session layer reports it. */
  datatype EvaluationResult =
    | String(s: string)
    | Number(n: real)
    | Bool(b: bool)
    | Null
    | Object(value: Json)

  /** The requested capture format; the quality is chosen when it reaches the client. */
  datatype ScreenshotFormat = Png | Jpeg | WebP

  datatype ClipRegion = ClipRegion(x: real, y: real, width: real, height: real, scale: real)

  datatype ScreenshotOptions = ScreenshotOptions(format: ScreenshotFormat, quality: Option<CdpClient.U8>, fullPage: bool, clip: Option<ClipRegion>)

  datatype LoadState = Load | DOMContentLoaded | NetworkIdle | NetworkAlmostIdle

  datatype NavigationOptions = NavigationOptions(timeout: nat, waitUntil: LoadState)

  datatype NavigationResult = NavigationResult(url: string, statusCode: nat, isLoaded: bool)

  /** How a page is opened; the size fields are Rust `u32`s. */
  datatype PageOptions = PageOptions(defaultUrl: Option<string>, viewportWidth: nat, viewportHeight: nat, deviceScaleFactor: real, isMobile: bool)

  /** How a browser is launched. */
  datatype BrowserOptions = BrowserOptions(
    headless: bool,
    windowWidth: nat,
    windowHeight: nat,
    userAgent: Option<string>,
    proxy: Option<string>,
    args: seq<string>,
    executablePath: Option<string>,
    cdpEndpoint: Option<string>)

  /** One operation issued on a page's DevTools client. */
  datatype ClientCall =
    | NavigateCall(url: string)
    | EvaluateCall(script: string, awaitPromise: bool)
    | ScreenshotCall(format: CdpClient.ScreenshotFormat)
    | GetContentCall
    | SetContentCall(html: string)
    | ReloadCall(ignoreCache: bool)
    | EnableDomainCall(domain: string)
    | MethodCall(methodName: string, params: Json)
}
