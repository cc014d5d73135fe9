// The gRPC face of the profile service (src/services/profile/grpc.rs): the
// profile-type codes, the conversion of profiles and fingerprints into
// their protocol messages, the custom-options request, preset ids, and the
// handlers, which answer every failure inside the reply. Fresh ids and
// random choices are parameters.

module ProfileGrpc {
  import opened Wrappers
  import opened Errors
  import opened ProtoError
  import opened Profiles
  import opened Fingerprints
  import opened ProfileStore
  import opened ProfileServices
  import opened Stealth
  import opened Text

  /** The values of a protocol int32. */
  type I32 = x: int | -0x8000_0000 <= x < 0x8000_0000

  // ------------------------------------------------------------ profile types

  /** proto_to_profile_type: codes 1 to 6 name the types; every other code means Windows. */
  function ProfileTypeFromCode(c: int): ProfileType
  {
    match c
    case 1 => Windows
    case 2 => MacOS
    case 3 => Linux
    case 4 => Android
    case 5 => IOS
    case 6 => Custom
    case _ => Windows
  }

  /** The protocol code of a profile type. */
  function ProfileTypeCode(t: ProfileType): (c: I32)
    ensures 1 <= c <= 6
  {
    match t
    case Windows => 1
    case MacOS => 2
    case Linux => 3
    case Android => 4
    case IOS => 5
    case Custom => 6
  }

  /** The two tables are inverse on 1..6, and every code outside it reads as Windows. */
  lemma ProfileTypeCodes(t: ProfileType, c: int)
    ensures ProfileTypeFromCode(ProfileTypeCode(t)) == t
    ensures 1 <= c <= 6 ==> ProfileTypeCode(ProfileTypeFromCode(c)) == c
    ensures (c < 1 || c > 6) ==> ProfileTypeFromCode(c) == Windows
  {
  }

  // ------------------------------------------------------------ messages

  datatype ProtoHeaders = ProtoHeaders(
    userAgent: string, acceptLanguage: string, acceptEncoding: string,
    secChUa: string, secChUaPlatform: string, secChUaMobile: string, secChUaArch: string)

  datatype ProtoNavigator = ProtoNavigator(
    platform: string, vendor: string, product: string, appVersion: string, appName: string, appCodeName: string,
    hardwareConcurrency: bool, deviceMemory: I32, language: string, languages: seq<string>,
    doNotTrack: bool, cookieEnabled: string, pdfViewerEnabled: bool, webdriver: bool)

  datatype ProtoScreen = ProtoScreen(
    width: I32, height: I32, availWidth: I32, availHeight: I32, colorDepth: I32, pixelDepth: I32,
    top: I32, left: I32, devicePixelRatio: real, orientation: bool)

  datatype ProtoHardware = ProtoHardware(cpuCores: I32, deviceMemory: I32, gpuVendor: string, gpuRenderer: string)

  datatype ProtoWebGl = ProtoWebGl(
    vendor: string, renderer: string, version: string, shadingLanguageVersion: string,
    maxTextureSize: I32, extensions: seq<string>, webgl2: bool)

  datatype ProtoPermissions = ProtoPermissions(
    geolocation: bool, notifications: bool, camera: bool, microphone: bool, midi: bool, bluetooth: bool, usb: bool)

  /** The fingerprint message; the sub-messages fingerprint_to_proto always fills are not optional here, and the audio and canvas parts, all defaults, are left out. */
  datatype ProtoFingerprint = ProtoFingerprint(
    headers: ProtoHeaders, navigator: ProtoNavigator, screen: ProtoScreen, hardware: ProtoHardware,
    webgl: ProtoWebGl, timezone: string, locale: string, languages: seq<string>, permissions: ProtoPermissions)

  datatype ProtoOptions = ProtoOptions(
    injectNavigator: bool, injectScreen: bool, injectWebgl: bool, injectCanvas: bool, injectAudio: bool,
    neutralizeUtilityWorld: bool, useIsolatedWorld: bool, randomizeMetrics: bool, preventDetection: bool)

  datatype ProtoProfile = ProtoProfile(
    profileId: string, profileType: I32, fingerprint: Option<ProtoFingerprint>, options: Option<ProtoOptions>, createdAt: int)

  /** A u32 sent as an int32 (the `as i32` cast). */
  function ToI32(w: U32): (r: I32)
    ensures w < 0x8000_0000 ==> r == w
    ensures w >= 0x8000_0000 ==> r == w - 0x1_0000_0000
  {
    AsI32(w)
  }

  /** fingerprint_to_proto: the available size is the full size, the boolean hardware_concurrency says whether the count is positive, and a missing device memory is sent as 8; the fields the internal fingerprint lacks are empty. */
  function FingerprintToProto(fp: Fingerprint): (p: ProtoFingerprint)
    ensures p.screen.availWidth == p.screen.width == ToI32(fp.screen.width)
    ensures p.screen.availHeight == p.screen.height == ToI32(fp.screen.height)
    ensures p.navigator.hardwareConcurrency <==> fp.navigator.hardwareConcurrency > 0
    ensures p.hardware.cpuCores == ToI32(fp.navigator.hardwareConcurrency)
    ensures p.navigator.deviceMemory == p.hardware.deviceMemory == ToI32(UnwrapOr(fp.navigator.deviceMemory, 8))
    ensures p.locale == p.navigator.language == fp.navigator.language
    ensures p.languages == p.navigator.languages == [fp.navigator.language]
    ensures !p.navigator.webdriver && p.timezone == ""
  {
    var n := fp.navigator;
    var memory := ToI32(UnwrapOr(n.deviceMemory, 8));
    ProtoFingerprint(
      ProtoHeaders(fp.headers.userAgent, fp.headers.acceptLanguage, fp.headers.acceptEncoding, "", "", "", ""),
      ProtoNavigator(n.platform, n.vendor, "", "", "", "", n.hardwareConcurrency > 0, memory,
        n.language, [n.language], false, "", false, false),
      ProtoScreen(ToI32(fp.screen.width), ToI32(fp.screen.height), ToI32(fp.screen.width), ToI32(fp.screen.height),
        ToI32(fp.screen.colorDepth), ToI32(fp.screen.pixelDepth), 0, 0, 1.0, true),
      ProtoHardware(ToI32(n.hardwareConcurrency), memory, fp.webgl.vendor, fp.webgl.renderer),
      ProtoWebGl(fp.webgl.vendor, fp.webgl.renderer, "", "", 0, [], false),
      "", n.language, [n.language],
      ProtoPermissions(false, false, false, false, false, false, false))
  }

  /** A generated fingerprint's numbers all fit an int32, so its message carries them unchanged, and reports concurrency as present. */
  lemma GeneratedFingerprintMessage(t: ProfileType, d: Draws)
    requires t != Custom
    ensures var fp := Generate(t, d); var p := FingerprintToProto(fp);
      && p.screen.width == fp.screen.width && p.screen.height == fp.screen.height
      && p.hardware.cpuCores == fp.navigator.hardwareConcurrency
      && p.navigator.hardwareConcurrency
      && Some(p.hardware.deviceMemory) == fp.navigator.deviceMemory
  {
    var fp := Generate(t, d);
    ResolutionsFit(t, (fp.screen.width, fp.screen.height));
  }

  lemma ResolutionsFit(t: ProfileType, wh: (U32, U32))
    requires wh in Resolutions(t)
    ensures wh.0 < 10000 && wh.1 < 10000
  {
  }

  /** The message reports the full height as available, while the injected screen override reports 40 pixels less. */
  lemma ReportedAvailHeightDiffers(fp: Fingerprint)
    requires 40 <= fp.screen.height < 0x8000_0000
    ensures FingerprintToProto(fp).screen.availHeight == AvailHeight(fp.screen.height) + 40
  {
  }

  /** profile_options_to_proto: the five inject flags are copied, the four the internal options lack are false. */
  function OptionsToProto(o: ProfileOptions): (p: ProtoOptions)
    ensures p.injectNavigator == o.injectNavigator && p.injectScreen == o.injectScreen && p.injectWebgl == o.injectWebgl
    ensures p.injectCanvas == o.injectCanvas && p.injectAudio == o.injectAudio
    ensures !p.neutralizeUtilityWorld && !p.useIsolatedWorld && !p.randomizeMetrics && !p.preventDetection
  {
    ProtoOptions(o.injectNavigator, o.injectScreen, o.injectWebgl, o.injectCanvas, o.injectAudio, false, false, false, false)
  }

  /** profile_to_proto: the type as its code, both sub-messages present, no creation time. */
  function ProfileToProto(p: Profile): (m: ProtoProfile)
    ensures m.profileId == p.profileId && ProfileTypeFromCode(m.profileType) == p.profileType
    ensures m.fingerprint == Some(FingerprintToProto(p.fingerprint)) && m.options == Some(OptionsToProto(p.fingerprint.options))
    ensures m.createdAt == 0
  {
    ProfileTypeCodes(p.profileType, 0);
    ProtoProfile(p.profileId, ProfileTypeCode(p.profileType), Some(FingerprintToProto(p.fingerprint)),
      Some(OptionsToProto(p.fingerprint.options)), 0)
  }

  // ------------------------------------------------------------ custom options

  /** The fields of a custom-options request that are read. */
  datatype ProtoCustomOptions = ProtoCustomOptions(
    userAgent: string, platform: string, screenWidth: I32, screenHeight: I32, devicePixelRatio: real)

  const DefaultCustomOptions := ProtoCustomOptions("", "", 0, 0, 0.0)

  /** An int32 read as a u32 (the `as u32` cast): a negative size wraps around. */
  function ToU32(x: I32): (r: U32)
    ensures x >= 0 ==> r == x
    ensures x < 0 ==> r == x + 0x1_0000_0000
  {
    if x < 0 then x + 0x1_0000_0000 else x
  }

  /** proto_to_custom_options: an empty user agent or platform is absent, the viewport is absent iff both sizes are 0, and every inject flag is set whatever was asked. */
  function CustomOptionsFromProto(o: ProtoCustomOptions, template: I32): (r: CustomProfileOptions)
    ensures r.profileName == "" && r.template == ProfileTypeFromCode(template)
    ensures r.options.userAgent == (if o.userAgent == "" then None else Some(o.userAgent))
    ensures r.options.platform == (if o.platform == "" then None else Some(o.platform))
    ensures r.options.viewport.None? <==> o.screenWidth == 0 && o.screenHeight == 0
    ensures r.options.viewport.Some? ==>
      r.options.viewport.value == Viewport(ToU32(o.screenWidth), ToU32(o.screenHeight), o.devicePixelRatio)
    ensures r.profileOptions == ProfileOptions(true, true, true, true, true)
  {
    CustomProfileOptions(
      "",
      ProfileTypeFromCode(template),
      CustomOptions(
        if o.userAgent == "" then None else Some(o.userAgent),
        if o.platform == "" then None else Some(o.platform),
        if o.screenWidth == 0 && o.screenHeight == 0 then None
        else Some(Viewport(ToU32(o.screenWidth), ToU32(o.screenHeight), o.devicePixelRatio))),
      ProfileOptions(true, true, true, true, true))
  }

  // ------------------------------------------------------------ preset ids

  /** A preset name lower-cased with every space replaced by '-'. */
  function Slug(name: string): (r: string)
    ensures |r| == |name|
    ensures forall i :: 0 <= i < |r| ==> r[i] == if name[i] == ' ' then '-' else Lower(name[i])
  {
    seq(|name|, i requires 0 <= i < |name| => if name[i] == ' ' then '-' else Lower(name[i]))
  }

  function PresetId(name: string): string
  {
    "preset-" + Slug(name)
  }

  /** A preset id has no space and no ASCII capital after its prefix. */
  lemma PresetIdShape(name: string)
    ensures PresetId(name)[..7] == "preset-"
    ensures forall i :: 7 <= i < |PresetId(name)| ==> PresetId(name)[i] != ' ' && !('A' <= PresetId(name)[i] <= 'Z')
  {
  }

  /** Lower-casing and replacing work character by character, so they distribute over concatenation. */
  lemma SlugAppend(a: string, b: string)
    ensures Slug(a + b) == Slug(a) + Slug(b)
  {
    assert forall i :: 0 <= i < |a + b| ==> Slug(a + b)[i] == (Slug(a) + Slug(b))[i];
  }

  /** The space between two words of a preset name becomes a hyphen in its id. */
  lemma PresetIdOfTwoWords(first: string, second: string)
    ensures PresetId(first + " " + second) == PresetId(first) + "-" + Slug(second)
  {
    SlugAppend(first + " ", second);
    SlugAppend(first, " ");
  }

  // ------------------------------------------------------------ randomize_profile

  /** The randomisation switches of a request; an absent set is all false. */
  datatype RandomizeOptions = RandomizeOptions(screen: bool, webgl: bool, language: bool, timezone: bool)

  /** The random choices made, as indices into the handler's tables. */
  datatype Choices = Choices(resolution: nat, vendor: nat, renderer: nat, language: nat)

  function GrpcResolutions(t: ProfileType): (r: seq<(U32, U32)>)
    ensures |r| > 0
  {
    match t
    case Windows => [(1920, 1080), (2560, 1440), (3840, 2160), (1366, 768)]
    case MacOS => [(2560, 1440), (2880, 1800), (1920, 1080), (1680, 1050)]
    case Linux => [(1920, 1080), (2560, 1440), (3840, 2160), (1366, 768)]
    case Android => [(360, 640), (412, 915), (1080, 2400), (1440, 3200)]
    case IOS => [(375, 667), (414, 896), (390, 844), (428, 926)]
    case Custom => [(1920, 1080)]
  }

  const GrpcVendors: seq<string> := ["Intel Inc.", "NVIDIA Corporation", "AMD", "Qualcomm"]

  const GrpcRenderers: seq<string> :=
    ["Intel Iris OpenGL Engine", "NVIDIA GeForce GTX 1060", "AMD Radeon RX 580", "Intel UHD Graphics 620"]

  function GrpcLanguages(t: ProfileType): (r: seq<string>)
    ensures |r| > 0
  {
    match t
    case Windows => ["en-US", "en-GB", "de-DE", "fr-FR", "es-ES"]
    case MacOS => ["en-US", "en-GB", "ja-JP", "zh-CN", "fr-FR"]
    case Linux => ["en-US", "de-DE", "ru-RU", "pt-BR", "en-GB"]
    case Android => ["en-US", "zh-CN", "es-ES", "hi-IN", "pt-BR"]
    case IOS => ["en-US", "zh-CN", "ja-JP", "fr-FR", "de-DE"]
    case Custom => ["en-US"]
  }

  /** The handler's randomisation of a freshly created profile: the screen size only under the screen switch (from the type's table), the WebGL vendor and renderer only under the WebGL switch, the navigator language only under the language switch, and nothing for the time zone; everything else, the Accept-Language header included, is kept. */
  function RandomizeFields(p: Profile, o: RandomizeOptions, c: Choices): (r: Profile)
    ensures r.profileId == p.profileId && r.profileType == p.profileType
    ensures r.fingerprint.headers == p.fingerprint.headers && r.fingerprint.options == p.fingerprint.options
    ensures o.screen ==> (r.fingerprint.screen.width, r.fingerprint.screen.height) in GrpcResolutions(p.profileType)
    ensures !o.screen ==> r.fingerprint.screen == p.fingerprint.screen
    ensures r.fingerprint.screen.colorDepth == p.fingerprint.screen.colorDepth
    ensures r.fingerprint.screen.pixelDepth == p.fingerprint.screen.pixelDepth
    ensures o.webgl ==> r.fingerprint.webgl.vendor in GrpcVendors && r.fingerprint.webgl.renderer in GrpcRenderers
    ensures !o.webgl ==> r.fingerprint.webgl == p.fingerprint.webgl
    ensures o.language ==> r.fingerprint.navigator.language in GrpcLanguages(p.profileType)
    ensures r.fingerprint.navigator == p.fingerprint.navigator.(language := r.fingerprint.navigator.language)
    ensures !o.language ==> r.fingerprint.navigator == p.fingerprint.navigator
  {
    var fp := p.fingerprint;
    var t := p.profileType;
    var wh := Pick(GrpcResolutions(t), c.resolution);
    var screen := if o.screen then fp.screen.(width := wh.0, height := wh.1) else fp.screen;
    var webgl := if o.webgl then WebGLFingerprint(Pick(GrpcVendors, c.vendor), Pick(GrpcRenderers, c.renderer)) else fp.webgl;
    var navigator := if o.language then fp.navigator.(language := Pick(GrpcLanguages(t), c.language)) else fp.navigator;
    p.(fingerprint := fp.(screen := screen, webgl := webgl, navigator := navigator))
  }

  /** With the language switch on, the navigator language can leave the Accept-Language header behind. */
  lemma LanguageSwitchSplitsHeader(p: Profile, c: Choices)
    requires p.profileType == Windows && p.fingerprint.headers.acceptLanguage == "en-US,en;q=0.9"
    requires c.language == 2
    ensures var r := RandomizeFields(p, RandomizeOptions(false, false, true, false), c);
      r.fingerprint.navigator.language == "de-DE" && r.fingerprint.headers.acceptLanguage == "en-US,en;q=0.9"
  {
  }

  // ------------------------------------------------------------ handlers

  /** Every failure is answered inside the reply with the Internal code and the error's display text. */
  function ErrorReply(e: Error): (p: ProtoErr)
    ensures p.code == ErrorCode.Internal && p.message == Display(e) && p.details == map[]
  {
    ProtoErr(ErrorCode.Internal, Display(e), map[])
  }

  datatype ApplyResult = ApplyResult(pageId: string, profileId: string, success: bool, appliedFeatures: seq<string>)

  /** get_active_profile's reply for the service's answer. */
  function ActiveProfileReply(answer: Result<Option<Profile>, Error>): (r: Result<ProtoProfile, ProtoErr>)
    ensures answer == Ok(None) ==> r == Err(ProtoErr(NotFound, "No active profile found", map[]))
    ensures answer.Ok? && answer.value.Some? ==> r == Ok(ProfileToProto(answer.value.value))
    ensures answer.Err? ==> r == Err(ErrorReply(answer.error))
  {
    match answer
    case Ok(Some(p)) => Ok(ProfileToProto(p))
    case Ok(None) => Err(ProtoErr(NotFound, "No active profile found", map[]))
    case Err(e) => Err(ErrorReply(e))
  }

  /** create_custom_profile: an absent options message counts as all defaults; the reply is always a Custom profile with every inject flag set. */
  function CreateCustomProfileReply(options: Option<ProtoCustomOptions>, template: I32, id: string): (r: Result<ProtoProfile, ProtoErr>)
    ensures r.Ok? && r.value.profileId == id && r.value.profileType == 6
    ensures r.value.options == Some(OptionsToProto(ProfileOptions(true, true, true, true, true)))
    ensures var o := UnwrapOr(options, DefaultCustomOptions);
      && r.value.fingerprint.Some?
      && r.value.fingerprint.value.headers.userAgent == if o.userAgent == "" then WindowsUserAgents[0] else o.userAgent
  {
    Ok(ProfileToProto(CustomProfile(CustomOptionsFromProto(UnwrapOr(options, DefaultCustomOptions), template), id)))
  }

  /** The message get_presets sends for preset i, given the profile the store generated for it: that profile under the preset id. */
  function PresetMessage(i: nat, generated: Profile): (m: ProtoProfile)
    requires i < 5
    ensures m.profileId == PresetId(Presets[i].name)
    ensures m.fingerprint == Some(FingerprintToProto(generated.fingerprint))
  {
    ProfileToProto(generated.(profileId := PresetId(Presets[i].name)))
  }

  /** The first n preset messages and stored profiles agree with the preset list and the fresh ids. */
  ghost predicate PresetsSent(r: seq<ProtoProfile>, stored: seq<Profile>, ids: seq<string>, n: nat)
    requires n <= 5 && |r| == n && |stored| == n && |ids| == 5
  {
    forall j :: 0 <= j < n ==>
      && r[j] == PresetMessage(j, stored[j])
      && stored[j].profileId == ids[j] && stored[j].profileType == PresetOrder[j]
  }

  /** Sending preset n extends the agreement by one. */
  lemma PresetsSentStep(r: seq<ProtoProfile>, stored: seq<Profile>, ids: seq<string>, n: nat, m: ProtoProfile, p: Profile)
    requires n < 5 && |r| == n && |stored| == n && |ids| == 5
    requires PresetsSent(r, stored, ids, n)
    requires m == PresetMessage(n, p) && p.profileId == ids[n] && p.profileType == PresetOrder[n]
    ensures PresetsSent(r + [m], stored + [p], ids, n + 1)
  {
    forall j | 0 <= j < n + 1
      ensures (r + [m])[j] == PresetMessage(j, (stored + [p])[j])
    {
      if j < n {
        assert (r + [m])[j] == r[j] && (stored + [p])[j] == stored[j];
      }
    }
  }

  class ProfileRpc {
    const service: ProfileService

    constructor(service: ProfileService)
      ensures this.service == service
    {
      this.service := service;
    }

    /** create_profile: the type code read with Windows as the default; a Custom code is answered with the Configuration error and stores nothing. */
    method CreateProfile(code: I32, id: string, d: Draws) returns (r: Result<ProtoProfile, ProtoErr>)
      requires service.manager.Valid()
      modifies service.manager
      ensures service.manager.Valid()
      ensures ProfileTypeFromCode(code) == Custom ==>
        && r == Err(ErrorReply(Configuration("Use create_custom_profile for custom profiles")))
        && service.manager.profiles == old(service.manager.profiles)
      ensures ProfileTypeFromCode(code) != Custom ==>
        var p := Profile(id, ProfileTypeFromCode(code), Generate(ProfileTypeFromCode(code), d));
        && r == Ok(ProfileToProto(p))
        && service.manager.profiles == old(service.manager.profiles)[id := p]
    {
      var created := service.manager.CreateProfile(ProfileTypeFromCode(code), id, d);
      match created
      case Ok(p) => r := Ok(ProfileToProto(p));
      case Err(e) => r := Err(ErrorReply(e));
    }

    /** apply_profile: the engine's feature list with success set, or the failure inside the reply. */
    method ApplyProfile(pageId: string, profileId: string, ua: UserAgentCalls, calls: seq<InjectCalls>, ids: seq<string>)
      returns (r: Result<ApplyResult, ProtoErr>)
      requires |calls| == 5 && |ids| == 5
      modifies service.engine, service.engine.injector
      ensures profileId !in service.manager.profiles ==> r == Err(ErrorReply(ProfileMissing(profileId)))
      ensures profileId in service.manager.profiles ==>
        var outcome := ApplyOutcome(service.manager.profiles[profileId].fingerprint, ua, calls);
        && (outcome.Ok? ==> r == Ok(ApplyResult(pageId, profileId, true, outcome.value)))
        && (outcome.Err? ==> r == Err(ErrorReply(outcome.error)))
    {
      var applied := service.ApplyProfile(pageId, profileId, ua, calls, ids);
      match applied
      case Ok(features) => r := Ok(ApplyResult(pageId, profileId, true, features));
      case Err(e) => r := Err(ErrorReply(e));
    }

    /** One preset of get_presets: a profile of its type is created in the store under the fresh id, and sent under the preset id; what the store generates is stated by CreateProfile. */
    method PresetProfile(i: nat, id: string, d: Draws) returns (m: ProtoProfile, ghost stored: Profile)
      requires i < 5 && service.manager.Valid()
      modifies service.manager
      ensures service.manager.Valid()
      ensures stored.profileId == id && stored.profileType == PresetOrder[i]
      ensures m == PresetMessage(i, stored)
      ensures service.manager.profiles == old(service.manager.profiles)[id := stored]
    {
      PresetTypes();
      var created := service.manager.CreateProfile(Presets[i].profileType, id, d);
      stored := created.value;
      m := ProfileToProto(created.value.(profileId := PresetId(Presets[i].name)));
    }

    /** get_presets: one generated profile per preset, in preset order, each sent under its preset id; each is also stored in the profile store under a fresh id. */
    method GetPresets(ids: seq<string>, draws: seq<Draws>) returns (r: seq<ProtoProfile>, ghost stored: seq<Profile>)
      requires |ids| == 5 && |draws| == 5
      requires service.manager.Valid()
      modifies service.manager
      ensures service.manager.Valid()
      ensures |r| == 5 && |stored| == 5
      ensures forall i :: 0 <= i < 5 ==>
        && r[i] == PresetMessage(i, stored[i])
        && stored[i].profileId == ids[i] && stored[i].profileType == PresetOrder[i]
      ensures forall k :: k in ids ==> k in service.manager.profiles
      ensures forall k :: k in old(service.manager.profiles) && k !in ids ==>
        k in service.manager.profiles && service.manager.profiles[k] == old(service.manager.profiles)[k]
    {
      r := [];
      stored := [];
      var i := 0;
      while i < 5
        invariant 0 <= i <= 5
        invariant service.manager.Valid()
        invariant |r| == i && |stored| == i
        invariant PresetsSent(r, stored, ids, i)
        invariant forall k :: k in ids[..i] ==> k in service.manager.profiles
        invariant forall k :: k in old(service.manager.profiles) && k !in ids ==>
          k in service.manager.profiles && service.manager.profiles[k] == old(service.manager.profiles)[k]
      {
        var m, p := PresetProfile(i, ids[i], draws[i]);
        PresetsSentStep(r, stored, ids, i, m, p);
        r := r + [m];
        stored := stored + [p];
        i := i + 1;
      }
      assert ids[..5] == ids;
    }

    /** get_active_profile: the service never reports one, so the reply is always NotFound. */
    method GetActiveProfile(pageId: string) returns (r: Result<ProtoProfile, ProtoErr>)
      ensures r == Err(ProtoErr(NotFound, "No active profile found", map[]))
    {
      var answer := service.GetActiveProfile(pageId);
      r := ActiveProfileReply(answer);
    }

    /** randomize_profile: a new profile of the requested type is created and stored, and the reply is that profile randomised as the switches ask; the stored copy is not randomised, and no existing profile is read. */
    method RandomizeProfile(code: I32, options: Option<RandomizeOptions>, id: string, d: Draws, c: Choices)
      returns (r: Result<ProtoProfile, ProtoErr>)
      requires service.manager.Valid()
      modifies service.manager
      ensures service.manager.Valid()
      ensures ProfileTypeFromCode(code) == Custom ==>
        && r == Err(ErrorReply(Configuration("Use create_custom_profile for custom profiles")))
        && service.manager.profiles == old(service.manager.profiles)
      ensures ProfileTypeFromCode(code) != Custom ==>
        var p := Profile(id, ProfileTypeFromCode(code), Generate(ProfileTypeFromCode(code), d));
        && r == Ok(ProfileToProto(RandomizeFields(p, UnwrapOr(options, RandomizeOptions(false, false, false, false)), c)))
        && service.manager.profiles == old(service.manager.profiles)[id := p]
    {
      var o := UnwrapOr(options, RandomizeOptions(false, false, false, false));
      var created := service.manager.CreateProfile(ProfileTypeFromCode(code), id, d);
      match created
      case Ok(p) => r := Ok(ProfileToProto(RandomizeFields(p, o, c)));
      case Err(e) => r := Err(ErrorReply(e));
    }
  }
}
