// The profile values shared by the fingerprint generator, the stealth
// engine and the profile service (src/services/traits.rs). Unsigned 32-bit
// fields keep their range as a subset type.

module Profiles {
  import opened Wrappers

  /** The values of a Rust u32. */
  type U32 = x: int | 0 <= x < 0x1_0000_0000

  datatype ProfileType = Windows | Linux | MacOS | Android | IOS | Custom

  datatype HeadersFingerprint = HeadersFingerprint(userAgent: string, acceptLanguage: string, acceptEncoding: string)

  datatype NavigatorFingerprint = NavigatorFingerprint(
    platform: string, vendor: string, hardwareConcurrency: U32, deviceMemory: Option<U32>, language: string)

  datatype ScreenFingerprint = ScreenFingerprint(width: U32, height: U32, colorDepth: U32, pixelDepth: U32)

  datatype WebGLFingerprint = WebGLFingerprint(vendor: string, renderer: string)

  /** Which overrides the stealth engine injects. */
  datatype ProfileOptions = ProfileOptions(
    injectNavigator: bool, injectScreen: bool, injectWebgl: bool, injectCanvas: bool, injectAudio: bool)

  datatype Fingerprint = Fingerprint(
    headers: HeadersFingerprint, navigator: NavigatorFingerprint, screen: ScreenFingerprint,
    webgl: WebGLFingerprint, options: ProfileOptions)

  datatype Profile = Profile(profileId: string, profileType: ProfileType, fingerprint: Fingerprint)

  datatype ProfilePreset = ProfilePreset(name: string, profileType: ProfileType, description: string)

  /** The viewport a custom profile may ask for; the scale factor is a real. */
  datatype Viewport = Viewport(width: U32, height: U32, deviceScaleFactor: real)

  datatype CustomOptions = CustomOptions(userAgent: Option<string>, platform: Option<string>, viewport: Option<Viewport>)

  datatype CustomProfileOptions = CustomProfileOptions(
    profileName: string, template: ProfileType, options: CustomOptions, profileOptions: ProfileOptions)
}
