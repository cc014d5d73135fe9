// The profile service (src/services/profile/service.rs): applying a stored
// profile through the stealth engine, custom profiles built from caller
// options, regenerated profiles, and the active-profile query. Creating a
// profile and listing presets go to the profile store unchanged.

module ProfileServices {
  import opened Wrappers
  import opened Errors
  import opened Profiles
  import opened Fingerprints
  import opened ProfileStore
  import opened Stealth

  /** create_custom_profile: an unstored Custom profile under the fresh id, its fingerprint built from the custom options alone. */
  function CustomProfile(o: CustomProfileOptions, id: string): (p: Profile)
    ensures p.profileId == id && p.profileType == Custom
    ensures p.fingerprint.headers.userAgent == UnwrapOr(o.options.userAgent, WindowsUserAgents[0])
    ensures p.fingerprint.navigator.platform == UnwrapOr(o.options.platform, "Win32")
    ensures InjectsAll(p.fingerprint.options)
  {
    Profile(id, Custom, GenerateCustom(o.options))
  }

  /** The template type and the requested inject flags play no part: two requests with the same custom options give the same profile, whose flags are all set. */
  lemma CustomIgnoresTemplate(a: CustomProfileOptions, b: CustomProfileOptions, id: string)
    requires a.options == b.options
    ensures CustomProfile(a, id) == CustomProfile(b, id)
    ensures CustomProfile(a, id).fingerprint.options == ProfileOptions(true, true, true, true, true)
  {
  }

  /** The fingerprint randomize_profile generates afresh for a type; a Custom type gets the custom defaults. */
  function Regenerate(t: ProfileType, d: Draws): (fp: Fingerprint)
    ensures fp.headers.userAgent in UserAgentTable(t)
    ensures InjectsAll(fp.options)
  {
    if t == Custom then GenerateCustom(CustomOptions(None, None, None)) else Generate(t, d)
  }

  class ProfileService {
    const manager: ProfileManager
    const engine: StealthEngine

    constructor(manager: ProfileManager, engine: StealthEngine)
      ensures this.manager == manager && this.engine == engine
    {
      this.manager := manager;
      this.engine := engine;
    }

    /** apply_profile: the profile is looked up first, and an unknown one fails with the page untouched; otherwise the engine's outcome and feature list are returned unchanged. */
    method ApplyProfile(pageId: string, profileId: string, ua: UserAgentCalls, calls: seq<InjectCalls>, ids: seq<string>)
      returns (r: Result<seq<string>, Error>)
      requires |calls| == 5 && |ids| == 5
      modifies engine, engine.injector
      ensures profileId !in manager.profiles ==>
        && r == Err(ProfileMissing(profileId))
        && engine.applied == old(engine.applied)
        && engine.injector.injected == old(engine.injector.injected)
      ensures profileId in manager.profiles ==>
        && r == ApplyOutcome(manager.profiles[profileId].fingerprint, ua, calls)
        && engine.applied == if r.Ok? then old(engine.applied)[pageId := r.value] else old(engine.applied)
    {
      var profile := manager.GetProfile(profileId);
      if profile.Err? {
        return Err(profile.error);
      }
      r := engine.ApplyProfile(pageId, profile.value, ua, calls, ids);
    }

    /** get_active_profile: no profile is ever reported active. */
    method GetActiveProfile(pageId: string) returns (r: Result<Option<Profile>, Error>)
      ensures r == Ok(None)
    {
      r := Ok(None);
    }

    /** randomize_profile: an unknown id fails; otherwise a new, unstored profile under the fresh id with the stored profile's type and a regenerated fingerprint. */
    method RandomizeProfile(profileId: string, id: string, d: Draws) returns (r: Result<Profile, Error>)
      ensures r.Ok? <==> profileId in manager.profiles
      ensures r.Err? ==> r.error == ProfileMissing(profileId)
      ensures r.Ok? ==>
        && r.value.profileId == id
        && r.value.profileType == manager.profiles[profileId].profileType
        && r.value.fingerprint == Regenerate(r.value.profileType, d)
        && r.value.fingerprint.headers.userAgent in UserAgentTable(r.value.profileType)
    {
      var profile := manager.GetProfile(profileId);
      if profile.Err? {
        return Err(profile.error);
      }
      var t := profile.value.profileType;
      r := Ok(Profile(id, t, Regenerate(t, d)));
    }
  }
}
