// The fingerprint generator (src/stealth/fingerprint.rs): the tables a
// fingerprint is drawn from, the fingerprint of each platform, the custom
// fingerprint, and the randomisation of an existing one. Every random
// choice is an explicit draw: a natural number that picks table[r % len],
// or a variation in the range gen_range(-5..5) gives.

module Fingerprints {
  import opened Wrappers
  import opened Profiles

  // ------------------------------------------------------------ tables

  const WindowsUserAgents: seq<string> :=
    ["Mozilla/5.0 (Windows NT 10.0; Win64; x64) AppleWebKit/537.36 (KHTML, like Gecko) Chrome/131.0.0.0 Safari/537.36",
     "Mozilla/5.0 (Windows NT 10.0; Win64; x64) AppleWebKit/537.36 (KHTML, like Gecko) Chrome/130.0.0.0 Safari/537.36",
     "Mozilla/5.0 (Windows NT 10.0; Win64; x64; rv:132.0) Gecko/20100101 Firefox/132.0",
     "Mozilla/5.0 (Windows NT 10.0; Win64; x64) AppleWebKit/537.36 (KHTML, like Gecko) Chrome/131.0.0.0 Safari/537.36 Edg/131.0.0.0"]

  const MacOSUserAgents: seq<string> :=
    ["Mozilla/5.0 (Macintosh; Intel Mac OS X 10_15_7) AppleWebKit/537.36 (KHTML, like Gecko) Chrome/131.0.0.0 Safari/537.36",
     "Mozilla/5.0 (Macintosh; Intel Mac OS X 10_15_7) AppleWebKit/605.1.15 (KHTML, like Gecko) Version/18.2 Safari/605.1.15",
     "Mozilla/5.0 (Macintosh; Intel Mac OS X 10.15; rv:132.0) Gecko/20100101 Firefox/132.0"]

  const LinuxUserAgents: seq<string> :=
    ["Mozilla/5.0 (X11; Linux x86_64) AppleWebKit/537.36 (KHTML, like Gecko) Chrome/131.0.0.0 Safari/537.36",
     "Mozilla/5.0 (X11; Ubuntu; Linux x86_64; rv:132.0) Gecko/20100101 Firefox/132.0"]

  const AndroidUserAgents: seq<string> :=
    ["Mozilla/5.0 (Linux; Android 14) AppleWebKit/537.36 (KHTML, like Gecko) Chrome/131.0.0.0 Mobile Safari/537.36",
     "Mozilla/5.0 (Linux; Android 14; Pixel 8) AppleWebKit/537.36 (KHTML, like Gecko) Chrome/131.0.0.0 Mobile Safari/537.36"]

  const IOSUserAgents: seq<string> :=
    ["Mozilla/5.0 (iPhone; CPU iPhone OS 18_2 like Mac OS X) AppleWebKit/605.1.15 (KHTML, like Gecko) Version/18.2 Mobile/15E148 Safari/604.1",
     "Mozilla/5.0 (iPad; CPU OS 18_2 like Mac OS X) AppleWebKit/605.1.15 (KHTML, like Gecko) Version/18.2 Mobile/15E148 Safari/604.1"]

  const WebGlVendors: seq<string> :=
    ["Google Inc. (NVIDIA)",
     "Google Inc. (Intel)",
     "Google Inc. (AMD)"]

  const WebGlRenderers: seq<string> :=
    ["ANGLE (NVIDIA GeForce RTX 3080 Direct3D11 vs_5_0 ps_5_0)",
     "ANGLE (NVIDIA GeForce RTX 3070 Direct3D11 vs_5_0 ps_5_0)",
     "ANGLE (Intel(R) UHD Graphics 630 Direct3D11 vs_5_0 ps_5_0)",
     "ANGLE (AMD Radeon RX 6800 Direct3D11 vs_5_0 ps_5_0)"]

  /** The user agents of a platform; a custom profile draws from the Windows table. */
  function UserAgentTable(t: ProfileType): (r: seq<string>)
    ensures |r| >= 2
  {
    match t
    case Windows => WindowsUserAgents
    case MacOS => MacOSUserAgents
    case Linux => LinuxUserAgents
    case Android => AndroidUserAgents
    case IOS => IOSUserAgents
    case Custom => WindowsUserAgents
  }

  /** The screen resolutions of a platform. */
  function Resolutions(t: ProfileType): seq<(U32, U32)>
  {
    match t
    case Windows => [(1920, 1080), (2560, 1440), (3840, 2160), (1366, 768)]
    case MacOS => [(2560, 1440), (2880, 1800), (3840, 2160), (5120, 2880), (1920, 1080)]
    case Linux => [(1920, 1080), (2560, 1440), (3840, 2160)]
    case Android => [(360, 800), (390, 844), (414, 896), (393, 851), (412, 915)]
    case IOS => [(390, 844), (414, 896), (393, 851), (1024, 1366)]
    case Custom => [(1920, 1080)]
  }

  function Locales(): seq<string>
  {
    ["en-US", "en-GB", "de-DE", "fr-FR", "es-ES", "ja-JP", "zh-CN"]
  }

  // ------------------------------------------------------------ draws

  /** table[r % len]: a draw always lands in the table. */
  function Pick<T>(table: seq<T>, r: nat): (x: T)
    requires |table| > 0
    ensures x in table
  {
    table[r % |table|]
  }

  function HardwareConcurrency(r: nat): (n: U32)
    ensures n in {4, 6, 8, 12, 16, 24, 32}
  {
    Pick([4, 6, 8, 12, 16, 24, 32], r)
  }

  function DeviceMemory(r: nat): (m: Option<U32>)
    ensures m.Some? && m.value in {4, 8, 16, 32}
  {
    Some(Pick([4, 8, 16, 32], r))
  }

  function RandomUserAgent(t: ProfileType, r: nat): (ua: string)
    ensures ua in UserAgentTable(t)
  {
    Pick(UserAgentTable(t), r)
  }

  function RandomWebGlVendor(r: nat): (v: string)
    ensures v in WebGlVendors
  {
    Pick(WebGlVendors, r)
  }

  function RandomWebGlRenderer(r: nat): (v: string)
    ensures v in WebGlRenderers
  {
    Pick(WebGlRenderers, r)
  }

  function ScreenResolution(t: ProfileType, r: nat): (s: (U32, U32))
    ensures s in Resolutions(t)
  {
    Pick(Resolutions(t), r)
  }

  function RandomLocale(r: nat): (l: string)
    ensures l in Locales()
  {
    Pick(Locales(), r)
  }

  // ------------------------------------------------------------ fingerprints

  datatype FingerprintConfig = FingerprintConfig(
    platform: string, vendor: string, userAgent: string, locale: string, screen: (U32, U32),
    webglVendor: string, webglRenderer: string, hardwareConcurrency: U32, deviceMemory: Option<U32>,
    acceptEncoding: string)

  /** A fingerprint injects every override. */
  predicate InjectsAll(o: ProfileOptions)
  {
    o.injectNavigator && o.injectScreen && o.injectWebgl && o.injectCanvas && o.injectAudio
  }

  /** create_base_fingerprint: the configuration's values in place, 24-bit colour and pixel depth, the locale as the language and first in Accept-Language, and every override on. */
  function CreateBaseFingerprint(c: FingerprintConfig): (fp: Fingerprint)
    ensures fp.headers == HeadersFingerprint(c.userAgent, c.locale + ",en;q=0.9", c.acceptEncoding)
    ensures fp.navigator == NavigatorFingerprint(c.platform, c.vendor, c.hardwareConcurrency, c.deviceMemory, c.locale)
    ensures fp.screen == ScreenFingerprint(c.screen.0, c.screen.1, 24, 24)
    ensures fp.webgl == WebGLFingerprint(c.webglVendor, c.webglRenderer)
    ensures InjectsAll(fp.options)
  {
    Fingerprint(
      HeadersFingerprint(c.userAgent, c.locale + ",en;q=0.9", c.acceptEncoding),
      NavigatorFingerprint(c.platform, c.vendor, c.hardwareConcurrency, c.deviceMemory, c.locale),
      ScreenFingerprint(c.screen.0, c.screen.1, 24, 24),
      WebGLFingerprint(c.webglVendor, c.webglRenderer),
      ProfileOptions(true, true, true, true, true))
  }

  /** The random draws one platform fingerprint takes. */
  datatype Draws = Draws(screen: nat, locale: nat, userAgent: nat, webglVendor: nat, webglRenderer: nat,
                         concurrency: nat, memory: nat)

  /** The configuration of generate_windows, generate_macos, generate_linux, generate_android and generate_ios. */
  function PlatformConfig(t: ProfileType, d: Draws): FingerprintConfig
    requires t != Custom
  {
    var screen := ScreenResolution(t, d.screen);
    var locale := RandomLocale(d.locale);
    var ua := RandomUserAgent(t, d.userAgent);
    match t
    case Windows =>
      FingerprintConfig("Win32", "Google Inc.", ua, locale, screen, RandomWebGlVendor(d.webglVendor),
        RandomWebGlRenderer(d.webglRenderer), HardwareConcurrency(d.concurrency), DeviceMemory(d.memory), "gzip, deflate, br")
    case MacOS =>
      FingerprintConfig("MacIntel", "Google Inc.", ua, locale, screen, RandomWebGlVendor(d.webglVendor),
        RandomWebGlRenderer(d.webglRenderer), HardwareConcurrency(d.concurrency), DeviceMemory(d.memory), "gzip, deflate, br")
    case Linux =>
      FingerprintConfig("Linux x86_64", "", ua, locale, screen, RandomWebGlVendor(d.webglVendor),
        RandomWebGlRenderer(d.webglRenderer), HardwareConcurrency(d.concurrency), DeviceMemory(d.memory), "gzip, deflate")
    case Android =>
      FingerprintConfig("Linux armv8l", "Google Inc.", ua, locale, screen, "Qualcomm", "Adreno 740", 8, Some(8), "gzip, deflate, br")
    case IOS =>
      FingerprintConfig("iPhone", "Apple Computer, Inc.", ua, locale, screen, "Apple Inc.", "Apple GPU", 6, Some(6), "gzip, deflate, br")
  }

  /** The platform fingerprints: every drawn value comes from its platform's table, mobile platforms fix their hardware, and every override is on. */
  function Generate(t: ProfileType, d: Draws): (fp: Fingerprint)
    requires t != Custom
    ensures fp.headers.userAgent in UserAgentTable(t)
    ensures (fp.screen.width, fp.screen.height) in Resolutions(t)
    ensures fp.screen.colorDepth == 24 && fp.screen.pixelDepth == 24
    ensures fp.navigator.language in Locales() && fp.headers.acceptLanguage == fp.navigator.language + ",en;q=0.9"
    ensures t in {Windows, MacOS, Linux} ==>
      && fp.navigator.hardwareConcurrency in {4, 6, 8, 12, 16, 24, 32}
      && fp.navigator.deviceMemory.Some? && fp.navigator.deviceMemory.value in {4, 8, 16, 32}
      && fp.webgl.vendor in WebGlVendors && fp.webgl.renderer in WebGlRenderers
    ensures t == Android ==> fp.navigator.hardwareConcurrency == 8 && fp.navigator.deviceMemory == Some(8)
    ensures t == IOS ==> fp.navigator.hardwareConcurrency == 6 && fp.navigator.deviceMemory == Some(6)
    ensures InjectsAll(fp.options)
  {
    CreateBaseFingerprint(PlatformConfig(t, d))
  }

  /** generate_custom: the caller's user agent, platform and viewport, each defaulting to the first Windows user agent, Win32 and 1920x1080; the rest fixed. */
  function GenerateCustom(o: CustomOptions): (fp: Fingerprint)
    ensures fp.headers.userAgent == (if o.userAgent.Some? then o.userAgent.value else WindowsUserAgents[0])
    ensures fp.navigator.platform == (if o.platform.Some? then o.platform.value else "Win32")
    ensures (fp.screen.width, fp.screen.height) ==
      (if o.viewport.Some? then (o.viewport.value.width, o.viewport.value.height) else (1920, 1080))
    ensures fp.headers.acceptLanguage == "en-US,en;q=0.9" && fp.navigator.language == "en-US"
    ensures InjectsAll(fp.options)
  {
    var size := if o.viewport.Some? then (o.viewport.value.width, o.viewport.value.height) else (1920, 1080);
    Fingerprint(
      HeadersFingerprint(if o.userAgent.Some? then o.userAgent.value else WindowsUserAgents[0],
        "en-US,en;q=0.9", "gzip, deflate, br"),
      NavigatorFingerprint(if o.platform.Some? then o.platform.value else "Win32", "Google Inc.", 8, Some(8), "en-US"),
      ScreenFingerprint(size.0, size.1, 24, 24),
      WebGLFingerprint("Google Inc. (NVIDIA)", "ANGLE (NVIDIA GeForce RTX 3080 Direct3D11 vs_5_0 ps_5_0)"),
      ProfileOptions(true, true, true, true, true))
  }

  // ------------------------------------------------------------ randomize

  /** A u32 read as an i32 (the `as i32` cast). */
  function AsI32(w: U32): int
  {
    if w < 0x8000_0000 then w else w - 0x1_0000_0000
  }

  /** An i32 addition wrapped to the i32 range. */
  function WrapI32(x: int): (r: int)
    ensures -0x8000_0000 <= r < 0x8000_0000
    ensures -0x8000_0000 <= x < 0x8000_0000 ==> r == x
  {
    (x + 0x8000_0000) % 0x1_0000_0000 - 0x8000_0000
  }

  /** One screen dimension after randomize as written: the variation added, then raised to at least floor. */
  function JitterAsWritten(w: U32, dv: int, floor: nat): (r: U32)
    requires -5 <= dv < 5 && floor < 0x8000_0000
    ensures r >= floor
  {
    var s := WrapI32(AsI32(w) + dv);
    if s > floor then s else floor
  }

  /** As written, a mobile screen is widened to a desktop one: 360 pixels, the narrowest Android width, becomes 1024 whatever the variation. */
  lemma {:induction false} MobileWidthClamped(dv: int)
    requires -5 <= dv < 5
    ensures JitterAsWritten(360, dv, 1024) == 1024
    ensures JitterAsWritten(800, dv, 768) == 800 + dv
  {
  }

  /** One screen dimension after a small randomisation: the variation added, kept within the u32 range. */
  function Jitter(w: U32, dv: int): (r: U32)
    requires -5 <= dv < 5
    ensures -5 <= r - w <= 5
    ensures 0 <= w + dv < 0x1_0000_0000 ==> r == w + dv
  {
    if w + dv < 0 then 0 else if w + dv >= 0x1_0000_0000 then 0x1_0000_0000 - 1 else w + dv
  }

  /** randomize as written: fresh concurrency and memory, width and height varied and raised to at least 1024 and 768; nothing else changes. */
  function RandomizeAsWritten(fp: Fingerprint, rc: nat, rm: nat, dw: int, dh: int): (r: Fingerprint)
    requires -5 <= dw < 5 && -5 <= dh < 5
    ensures r.headers == fp.headers && r.webgl == fp.webgl && r.options == fp.options
    ensures r.screen.width >= 1024 && r.screen.height >= 768
  {
    fp.(navigator := fp.navigator.(hardwareConcurrency := HardwareConcurrency(rc), deviceMemory := DeviceMemory(rm)),
        screen := fp.screen.(width := JitterAsWritten(fp.screen.width, dw, 1024), height := JitterAsWritten(fp.screen.height, dh, 768)))
  }

  /** randomize with the small variation kept small: fresh concurrency and memory from their tables, width and height within 5 pixels of the old ones, every other field unchanged. */
  function Randomize(fp: Fingerprint, rc: nat, rm: nat, dw: int, dh: int): (r: Fingerprint)
    requires -5 <= dw < 5 && -5 <= dh < 5
    ensures r.headers == fp.headers && r.webgl == fp.webgl && r.options == fp.options
    ensures r.navigator.platform == fp.navigator.platform && r.navigator.vendor == fp.navigator.vendor
         && r.navigator.language == fp.navigator.language
    ensures r.navigator.hardwareConcurrency in {4, 6, 8, 12, 16, 24, 32}
    ensures r.navigator.deviceMemory.Some? && r.navigator.deviceMemory.value in {4, 8, 16, 32}
    ensures r.screen.colorDepth == fp.screen.colorDepth && r.screen.pixelDepth == fp.screen.pixelDepth
    ensures -5 <= r.screen.width - fp.screen.width <= 5 && -5 <= r.screen.height - fp.screen.height <= 5
  {
    fp.(navigator := fp.navigator.(hardwareConcurrency := HardwareConcurrency(rc), deviceMemory := DeviceMemory(rm)),
        screen := fp.screen.(width := Jitter(fp.screen.width, dw), height := Jitter(fp.screen.height, dh)))
  }

  /** randomize need not change the hardware: the draw can land on the values already there. */
  lemma RandomizeMayKeepHardware(fp: Fingerprint)
    requires fp.navigator.hardwareConcurrency == 4 && fp.navigator.deviceMemory == Some(4)
    ensures Randomize(fp, 0, 0, 0, 0).navigator == fp.navigator
  {
  }
}
