// The stealth engine (src/stealth/engine.rs): applying a profile to a page
// sets the user agent and then injects the navigator, screen, WebGL, canvas
// and audio overrides the profile asks for, each through the script
// injector, and records the list of applied features per page. The
// outcome of each CDP call is a parameter.

module Stealth {
  import opened Wrappers
  import opened Errors
  import opened Decimal
  import opened Profiles
  import opened ScriptInjection

  datatype Feature = Navigator | Screen | WebGl | Canvas | Audio

  /** The order apply_profile works in. */
  const FeatureOrder: seq<Feature> := [Navigator, Screen, WebGl, Canvas, Audio]

  function FeatureName(f: Feature): string
  {
    match f
    case Navigator => "navigator"
    case Screen => "screen"
    case WebGl => "webgl"
    case Canvas => "canvas"
    case Audio => "audio"
  }

  /** The inject flag of a feature. */
  predicate Enabled(f: Feature, o: ProfileOptions)
  {
    match f
    case Navigator => o.injectNavigator
    case Screen => o.injectScreen
    case WebGl => o.injectWebgl
    case Canvas => o.injectCanvas
    case Audio => o.injectAudio
  }

  // ------------------------------------------------------------ the override scripts

  // The fixed texts of the five scripts, cut where engine.rs formats a value in.

  const NavigatorPiece0: string :=
    "(function() {\n                Object.defineProperty(navigator, 'platform', { get: () => '"

  const NavigatorPiece1: string :=
    "' });\n                Object.defineProperty(navigator, 'vendor', { get: () => '"

  const NavigatorPiece2: string :=
    "' });\n                Object.defineProperty(navigator, 'hardwareConcurrency', { get: () => "

  const NavigatorPiece3: string :=
    " });\n                Object.defineProperty(navigator, 'deviceMemory', { get: () => "

  const NavigatorPiece4: string :=
    " });\n                Object.defineProperty(navigator, 'language', { get: () => '"

  const NavigatorPiece5: string :=
    "' });\n                Object.defineProperty(navigator, 'webdriver', { get: () => false });\n                Object.defineProperty(navigator, 'plugins', { get: () => [\n                    {\n                        0: { type: \"application/x-google-chrome-pdf\", suffixes: \"pdf\", description: \"Portable Document Format\" },\n                        description: \"Portable Document Format\",\n                        filename: \"internal-pdf-viewer\",\n                        length: 1,\n                        name: \"Chrome PDF Plugin\"\n                    },\n                    {\n                        0: { type: \"application/pdf\", suffixes: \"pdf\", description: \"\" },\n                        description: \"\",\n                        filename: \"mhjfbmdgcfjbbpaeojofohoefgiehjai\",\n                        length: 1,\n                        name: \"Chrome PDF Viewer\"\n                    }\n                ]});\n            })();"

  const ScreenPiece0: string :=
    "(function() {\n                Object.defineProperty(screen, 'width', { get: () => "

  const ScreenPiece1: string :=
    " });\n                Object.defineProperty(screen, 'height', { get: () => "

  const ScreenPiece2: string :=
    " });\n                Object.defineProperty(screen, 'colorDepth', { get: () => "

  const ScreenPiece3: string :=
    " });\n                Object.defineProperty(screen, 'pixelDepth', { get: () => "

  const ScreenPiece4: string :=
    " });\n                Object.defineProperty(screen, 'availWidth', { get: () => "

  const ScreenPiece5: string :=
    " });\n                Object.defineProperty(screen, 'availHeight', { get: () => "

  const ScreenPiece6: string :=
    " });\n                Object.defineProperty(window, 'devicePixelRatio', { get: () => 1.0 });\n            })();"

  const WebGlPiece0: string :=
    "(function() {\n                const getParameter = WebGLRenderingContext.prototype.getParameter;\n                WebGLRenderingContext.prototype.getParameter = function(parameter) {\n                    if (parameter === 37445) return '"

  const WebGlPiece1: string :=
    "';\n                    if (parameter === 37446) return '"

  const WebGlPiece2: string :=
    "';\n                    return getParameter.call(this, parameter);\n                };\n\n                const getSupportedExtensions = WebGLRenderingContext.prototype.getSupportedExtensions;\n                WebGLRenderingContext.prototype.getSupportedExtensions = function() {\n                    return getSupportedExtensions.call(this).sort(() => Math.random() - 0.5);\n                };\n            })();"

  const CanvasText: string :=
    "(function() {\n            const addNoise = (data) => {\n                for (let i = 0; i < data.length; i += 4) {\n                    data[i] += Math.random() * 0.1;\n                    data[i + 1] += Math.random() * 0.1;\n                    data[i + 2] += Math.random() * 0.1;\n                }\n            };\n\n            const originalToDataURL = HTMLCanvasElement.prototype.toDataURL;\n            HTMLCanvasElement.prototype.toDataURL = function(type) {\n                const context = this.getContext('2d');\n                if (context) {\n                    const imageData = context.getImageData(0, 0, this.width, this.height);\n                    addNoise(imageData.data);\n                    context.putImageData(imageData, 0, 0);\n                }\n                return originalToDataURL.apply(this, arguments);\n            };\n\n            const originalGetImageData = CanvasRenderingContext2D.prototype.getImageData;\n            CanvasRenderingContext2D.prototype.getImageData = function() {\n                const imageData = originalGetImageData.apply(this, arguments);\n                addNoise(imageData.data);\n                return imageData;\n            };\n        })();"

  const AudioText: string :=
    "(function() {\n            const originalGetChannelData = AudioBuffer.prototype.getChannelData;\n            AudioBuffer.prototype.getChannelData = function() {\n                const data = originalGetChannelData.apply(this, arguments);\n                for (let i = 0; i < data.length; i++) {\n                    data[i] += Math.random() * 0.0001;\n                }\n                return data;\n            };\n        })();"

  /** inject_navigator: the platform, vendor and language between quotes, concurrency and memory (8 when unknown) as numbers. */
  function NavigatorScript(n: NavigatorFingerprint): string
  {
    NavigatorPiece0 + n.platform
    + NavigatorPiece1 + n.vendor
    + NavigatorPiece2 + NatText(n.hardwareConcurrency)
    + NavigatorPiece3 + NatText(UnwrapOr(n.deviceMemory, 8))
    + NavigatorPiece4 + n.language
    + NavigatorPiece5
  }

  /** availHeight as written: the u32 subtraction height - 40, which wraps around (a panic in a debug build) below 40. */
  function AvailHeightAsWritten(height: U32): U32
  {
    (height - 40) % 0x1_0000_0000
  }

  /** A 30-pixel-high screen, which a direct caller of the engine can pass in a profile, gets an available height of more than four billion pixels. */
  lemma ShortScreenWraps()
    ensures AvailHeightAsWritten(30) == 4294967286
    ensures AvailHeightAsWritten(30) > 30
  {
  }

  /** availHeight as intended: 40 pixels less than the height, and never more than the height. */
  function AvailHeight(height: U32): (r: U32)
    ensures r <= height
    ensures height >= 40 ==> r == height - 40
  {
    if height >= 40 then height - 40 else 0
  }

  /** inject_screen: width, height, colour and pixel depth, the width again as availWidth, and availHeight. */
  function ScreenScript(s: ScreenFingerprint): string
  {
    ScreenPiece0 + NatText(s.width)
    + ScreenPiece1 + NatText(s.height)
    + ScreenPiece2 + NatText(s.colorDepth)
    + ScreenPiece3 + NatText(s.pixelDepth)
    + ScreenPiece4 + NatText(s.width)
    + ScreenPiece5 + NatText(AvailHeight(s.height))
    + ScreenPiece6
  }

  /** inject_webgl: the vendor and renderer answered for parameters 37445 and 37446. */
  function WebGlScript(w: WebGLFingerprint): string
  {
    WebGlPiece0 + w.vendor
    + WebGlPiece1 + w.renderer
    + WebGlPiece2
  }

  function FeatureScript(f: Feature, fp: Fingerprint): string
  {
    match f
    case Navigator => NavigatorScript(fp.navigator)
    case Screen => ScreenScript(fp.screen)
    case WebGl => WebGlScript(fp.webgl)
    case Canvas => CanvasText
    case Audio => AudioText
  }

  // ------------------------------------------------------------ applying a profile

  /** The outcomes of the page lookup and the two CDP calls one inject_init_script makes. */
  datatype InjectCalls = InjectCalls(lookup: Result<(), Error>, added: Result<(), Error>, evaluated: Result<(), Error>)

  /** The outcomes of the page lookup, Network.enable and Network.setUserAgentOverride. */
  datatype UserAgentCalls = UserAgentCalls(lookup: Result<(), Error>, enabled: Result<(), Error>, overridden: Result<(), Error>)

  /** What inject_init_script returns for those outcomes. */
  function InjectResult(c: InjectCalls): (r: Result<(), Error>)
    ensures r.Ok? <==> c.lookup.Ok? && c.added.Ok?
    ensures c.lookup.Err? ==> r == Err(c.lookup.error)
    ensures c.lookup.Ok? && c.added.Err? ==>
      r == Err(Internal("Page.addScriptToEvaluateOnNewDocument failed: " + Display(c.added.error)))
  {
    if c.lookup.Err? then Err(c.lookup.error)
    else if c.added.Err? then Err(Internal("Page.addScriptToEvaluateOnNewDocument failed: " + Display(c.added.error)))
    else Ok(())
  }

  /** The features from position i of FeatureOrder on, with the names applied so far: the enabled ones are injected in order, and the first failure ends the run. */
  function Run(o: ProfileOptions, calls: seq<InjectCalls>, i: nat, acc: seq<string>): Result<seq<string>, Error>
    requires |calls| == 5 && i <= 5
    decreases 5 - i
  {
    if i == 5 then Ok(acc)
    else if !Enabled(FeatureOrder[i], o) then Run(o, calls, i + 1, acc)
    else if InjectResult(calls[i]).Err? then Err(InjectResult(calls[i]).error)
    else Run(o, calls, i + 1, acc + [FeatureName(FeatureOrder[i])])
  }

  /** The injector's record after the same run: each injected feature's script (built by `script`) tracked as an InitScript, up to the first failure. */
  function Record(m: map<string, seq<InjectedScript>>, pageId: string, fp: Fingerprint, script: (Feature, Fingerprint) -> string,
                  calls: seq<InjectCalls>, ids: seq<string>, i: nat): map<string, seq<InjectedScript>>
    requires |calls| == 5 && |ids| == 5 && i <= 5
    decreases 5 - i
  {
    if i == 5 then m
    else if !Enabled(FeatureOrder[i], fp.options) then Record(m, pageId, fp, script, calls, ids, i + 1)
    else if InjectResult(calls[i]).Err? then m
    else Record(Tracked(m, pageId, InjectedScript(ids[i], InitScript, script(FeatureOrder[i], fp))), pageId, fp, script, calls, ids, i + 1)
  }

  /** The list apply_profile starts from once the user agent is set. */
  const UserAgentOnly: seq<string> := ["user_agent"]

  /** What apply_profile returns: the user agent is set first and always listed first. */
  function ApplyOutcome(fp: Fingerprint, ua: UserAgentCalls, calls: seq<InjectCalls>): Result<seq<string>, Error>
    requires |calls| == 5
  {
    var u := SetUserAgent(ua.lookup, ua.enabled, ua.overridden);
    if u.Err? then Err(u.error) else Run(fp.options, calls, 0, UserAgentOnly)
  }

  /** The names of the enabled features from position i on, in order: the reference list. */
  function EnabledNames(o: ProfileOptions, i: nat): (r: seq<string>)
    requires i <= 5
    ensures |r| <= 5 - i
    decreases 5 - i
  {
    if i == 5 then []
    else (if Enabled(FeatureOrder[i], o) then [FeatureName(FeatureOrder[i])] else []) + EnabledNames(o, i + 1)
  }

  /** Every enabled feature from position i on succeeds. */
  predicate AllSucceed(o: ProfileOptions, calls: seq<InjectCalls>, i: nat)
    requires |calls| == 5 && i <= 5
  {
    forall j :: i <= j < 5 && Enabled(FeatureOrder[j], o) ==> InjectResult(calls[j]).Ok?
  }

  /** The run succeeds iff every enabled feature's injection does, and then lists exactly the enabled features in order after the names already applied. */
  lemma {:induction false} RunSucceeds(o: ProfileOptions, calls: seq<InjectCalls>, i: nat, acc: seq<string>)
    requires |calls| == 5 && i <= 5
    ensures Run(o, calls, i, acc).Ok? <==> AllSucceed(o, calls, i)
    ensures Run(o, calls, i, acc).Ok? ==> Run(o, calls, i, acc).value == acc + EnabledNames(o, i)
    decreases 5 - i
  {
    if i < 5 {
      AllSucceedStep(o, calls, i);
      if Enabled(FeatureOrder[i], o) {
        var x := [FeatureName(FeatureOrder[i])];
        RunSucceeds(o, calls, i + 1, acc + x);
        assert EnabledNames(o, i) == x + EnabledNames(o, i + 1);
        NamesRegroup(acc, x, EnabledNames(o, i + 1));
      } else {
        RunSucceeds(o, calls, i + 1, acc);
        assert EnabledNames(o, i) == EnabledNames(o, i + 1);
      }
    }
  }

  lemma AllSucceedStep(o: ProfileOptions, calls: seq<InjectCalls>, i: nat)
    requires |calls| == 5 && i < 5
    ensures AllSucceed(o, calls, i) <==>
      (Enabled(FeatureOrder[i], o) ==> InjectResult(calls[i]).Ok?) && AllSucceed(o, calls, i + 1)
  {
  }

  lemma NamesRegroup(a: seq<string>, b: seq<string>, c: seq<string>)
    ensures (a + b) + c == a + (b + c)
  {
  }

  /** A failed run reports the error of the first enabled feature that failed. */
  lemma {:induction false} RunFailsAtFirst(o: ProfileOptions, calls: seq<InjectCalls>, i: nat, acc: seq<string>, k: nat)
    requires |calls| == 5 && i <= k < 5
    requires AllSucceed(o, calls, i) == false
    requires Enabled(FeatureOrder[k], o) && InjectResult(calls[k]).Err?
    requires forall j :: i <= j < k && Enabled(FeatureOrder[j], o) ==> InjectResult(calls[j]).Ok?
    ensures Run(o, calls, i, acc) == Err(InjectResult(calls[k]).error)
    decreases 5 - i
  {
    if i < k {
      if Enabled(FeatureOrder[i], o) {
        RunFailsAtFirst(o, calls, i + 1, acc + [FeatureName(FeatureOrder[i])], k);
      } else {
        RunFailsAtFirst(o, calls, i + 1, acc, k);
      }
    }
  }

  /** A feature's name is listed iff its flag is set; "user_agent" is never among them. */
  lemma {:induction false} EnabledNamesListed(o: ProfileOptions, i: nat, f: Feature)
    requires i <= 5
    ensures FeatureName(f) in EnabledNames(o, i) <==> exists j :: i <= j < 5 && FeatureOrder[j] == f && Enabled(f, o)
    ensures "user_agent" !in EnabledNames(o, i)
    decreases 5 - i
  {
    if i < 5 {
      EnabledNamesListed(o, i + 1, f);
      var g := FeatureOrder[i];
      assert FeatureName(g) == FeatureName(f) ==> g == f;
    }
  }

  /** apply_profile's feature list: "user_agent" first, always, then exactly the features whose flag is set, in the fixed order; it succeeds iff setting the user agent and every enabled injection do. */
  lemma ApplyOutcomeFeatures(fp: Fingerprint, ua: UserAgentCalls, calls: seq<InjectCalls>, f: Feature)
    requires |calls| == 5
    ensures ApplyOutcome(fp, ua, calls).Ok? <==>
      SetUserAgent(ua.lookup, ua.enabled, ua.overridden).Ok? && AllSucceed(fp.options, calls, 0)
    ensures ApplyOutcome(fp, ua, calls).Ok? ==>
      var names := ApplyOutcome(fp, ua, calls).value;
      && names == UserAgentOnly + EnabledNames(fp.options, 0)
      && names[0] == "user_agent"
      && (FeatureName(f) in names <==> Enabled(f, fp.options))
  {
    RunSucceeds(fp.options, calls, 0, UserAgentOnly);
    EnabledNamesListed(fp.options, 0, f);
    if Enabled(f, fp.options) {
      var j :| 0 <= j < 5 && FeatureOrder[j] == f;
    }
    if ApplyOutcome(fp, ua, calls).Ok? {
      var names := ApplyOutcome(fp, ua, calls).value;
      assert FeatureName(f) in names <==> FeatureName(f) in EnabledNames(fp.options, 0);
    }
  }

  /** With every flag set and every call succeeding the list has six names, and with none set it is the user agent alone (not five and none). */
  lemma FeatureCounts(fp: Fingerprint, ua: UserAgentCalls, calls: seq<InjectCalls>)
    requires |calls| == 5
    requires SetUserAgent(ua.lookup, ua.enabled, ua.overridden).Ok?
    ensures fp.options == ProfileOptions(true, true, true, true, true) && (forall j :: 0 <= j < 5 ==> InjectResult(calls[j]).Ok?) ==>
      ApplyOutcome(fp, ua, calls) == Ok(["user_agent", "navigator", "screen", "webgl", "canvas", "audio"])
    ensures fp.options == ProfileOptions(false, false, false, false, false) ==>
      ApplyOutcome(fp, ua, calls) == Ok(UserAgentOnly)
  {
    RunSucceeds(fp.options, calls, 0, UserAgentOnly);
    var o := fp.options;
    if o == ProfileOptions(true, true, true, true, true) {
      assert EnabledNames(o, 4) == ["audio"];
      assert EnabledNames(o, 3) == ["canvas", "audio"];
      assert EnabledNames(o, 2) == ["webgl", "canvas", "audio"];
      assert EnabledNames(o, 1) == ["screen", "webgl", "canvas", "audio"];
      assert EnabledNames(o, 0) == ["navigator", "screen", "webgl", "canvas", "audio"];
      assert AllSucceed(o, calls, 0) ==>
        UserAgentOnly + EnabledNames(o, 0) == ["user_agent", "navigator", "screen", "webgl", "canvas", "audio"];
    }
    if o == ProfileOptions(false, false, false, false, false) {
      assert EnabledNames(o, 3) == [];
      assert EnabledNames(o, 0) == [];
    }
  }

  // ------------------------------------------------------------ the engine

  /** The engine: the injector it works through, the override script it injects for each feature, and the features applied to each page. */
  class StealthEngine {
    const injector: ScriptInjector
    const script: (Feature, Fingerprint) -> string
    var applied: map<string, seq<string>>

    constructor(injector: ScriptInjector)
      ensures this.injector == injector && applied == map[]
      ensures forall f, fp :: script(f, fp) == FeatureScript(f, fp)
    {
      this.injector := injector;
      script := FeatureScript;
      applied := map[];
    }

    /** The step of apply_profile for feature i of FeatureOrder: when the profile enables it, its override is injected through the injector and, on success, its name appended; a failure stops the run with that error. The run so far is summed up against its start, where the injector held m0. */
    method ApplyFeature(pageId: string, fp: Fingerprint, calls: seq<InjectCalls>, ids: seq<string>, i: nat, names: seq<string>,
                        ghost m0: map<string, seq<InjectedScript>>)
      returns (stop: Option<Error>, names': seq<string>)
      requires |calls| == 5 && |ids| == 5 && i < 5
      requires Run(fp.options, calls, 0, UserAgentOnly) == Run(fp.options, calls, i, names)
      requires Record(m0, pageId, fp, script, calls, ids, 0) == Record(injector.injected, pageId, fp, script, calls, ids, i)
      modifies injector
      ensures stop.None? ==> Run(fp.options, calls, 0, UserAgentOnly) == Run(fp.options, calls, i + 1, names')
      ensures stop.Some? ==> Run(fp.options, calls, 0, UserAgentOnly) == Err(stop.value)
      ensures stop.None? ==> Record(m0, pageId, fp, script, calls, ids, 0) == Record(injector.injected, pageId, fp, script, calls, ids, i + 1)
      ensures stop.Some? ==> Record(m0, pageId, fp, script, calls, ids, 0) == injector.injected
    {
      var f := FeatureOrder[i];
      names' := names;
      stop := None;
      if Enabled(f, fp.options) {
        var c := calls[i];
        var e := injector.InjectInitScript(pageId, script(f, fp), ids[i], c.lookup, c.added, c.evaluated);
        if e.Err? {
          stop := Some(e.error);
        } else {
          names' := names + [FeatureName(f)];
        }
      }
    }

    /** apply_profile, given the outcomes of every call it may make and the ids of the scripts it may inject: on success the page's entry becomes the returned list; on failure the entry is left as it was. */
    method ApplyProfile(pageId: string, profile: Profile, ua: UserAgentCalls, calls: seq<InjectCalls>, ids: seq<string>)
      returns (r: Result<seq<string>, Error>)
      requires |calls| == 5 && |ids| == 5
      modifies this, injector
      ensures r == ApplyOutcome(profile.fingerprint, ua, calls)
      ensures applied == if r.Ok? then old(applied)[pageId := r.value] else old(applied)
      ensures injector.injected ==
        if SetUserAgent(ua.lookup, ua.enabled, ua.overridden).Err? then old(injector.injected)
        else Record(old(injector.injected), pageId, profile.fingerprint, script, calls, ids, 0)
    {
      var fp := profile.fingerprint;
      var u := SetUserAgent(ua.lookup, ua.enabled, ua.overridden);
      if u.Err? {
        return Err(u.error);
      }
      ghost var m0 := injector.injected;
      var names := UserAgentOnly;
      var stop;
      stop, names := ApplyFeature(pageId, fp, calls, ids, 0, names, m0);
      if stop.Some? {
        return Err(stop.value);
      }
      stop, names := ApplyFeature(pageId, fp, calls, ids, 1, names, m0);
      if stop.Some? {
        return Err(stop.value);
      }
      stop, names := ApplyFeature(pageId, fp, calls, ids, 2, names, m0);
      if stop.Some? {
        return Err(stop.value);
      }
      stop, names := ApplyFeature(pageId, fp, calls, ids, 3, names, m0);
      if stop.Some? {
        return Err(stop.value);
      }
      stop, names := ApplyFeature(pageId, fp, calls, ids, 4, names, m0);
      if stop.Some? {
        return Err(stop.value);
      }
      applied := applied[pageId := names];
      r := Ok(names);
    }

    /** get_applied_features: the page's list, or PageNotFound for a page never applied to. */
    method GetAppliedFeatures(pageId: string) returns (r: Result<seq<string>, Error>)
      ensures r.Ok? <==> pageId in applied
      ensures r.Ok? ==> r.value == applied[pageId]
      ensures r.Err? ==> r.error == PageNotFound("No features applied for page: " + pageId)
    {
      if pageId in applied {
        r := Ok(applied[pageId]);
      } else {
        r := Err(PageNotFound("No features applied for page: " + pageId));
      }
    }

    /** remove_all: the injector's record for the page is cleared first (that never fails), then the page's entry is removed. */
    method RemoveAll(pageId: string) returns (r: Result<(), Error>)
      modifies this, injector
      ensures r.Ok?
      ensures injector.injected == old(injector.injected) - {pageId}
      ensures applied == old(applied) - {pageId}
    {
      var cleared := injector.ClearAll(pageId);
      applied := applied - {pageId};
      r := Ok(());
    }
  }
}
