// The profile store (src/services/profile/manager.rs): profiles generated
// for a platform type and kept by id, with lookup, listing, deletion,
// fingerprint replacement and the fixed list of presets. The fresh id
// (a random UUID) and the generator's random draws are parameters.

module ProfileStore {
  import opened Wrappers
  import opened Errors
  import opened Profiles
  import opened Fingerprints

  /** The error every lookup of an unknown profile id gives. */
  function ProfileMissing(id: string): Error
  {
    SessionNotFound("Profile not found: " + id)
  }

  const PresetOrder: seq<ProfileType> := [Windows, MacOS, Linux, Android, IOS]

  /** get_presets: one preset per platform type, Custom excluded, in a fixed order. */
  const Presets: seq<ProfilePreset> := [
    ProfilePreset("Windows Chrome", Windows, "Windows 10 with Chrome browser"),
    ProfilePreset("macOS Safari", MacOS, "macOS with Safari browser"),
    ProfilePreset("Linux Firefox", Linux, "Linux with Firefox browser"),
    ProfilePreset("Android Chrome", Android, "Android mobile with Chrome"),
    ProfilePreset("iOS Safari", IOS, "iOS mobile with Safari")]

  /** The presets come one per platform type, Custom excluded, in the order Windows, MacOS, Linux, Android, IOS. */
  lemma PresetTypes()
    ensures |Presets| == 5
    ensures forall i :: 0 <= i < 5 ==> Presets[i].profileType == PresetOrder[i]
    ensures forall t :: t != Custom ==> Presets[PresetIndex(t)].profileType == t
    ensures forall i :: 0 <= i < 5 ==> Presets[i].profileType != Custom
  {
  }

  /** Where a platform type sits in the preset list. */
  function PresetIndex(t: ProfileType): (i: nat)
    requires t != Custom
    ensures i < 5 && PresetOrder[i] == t
  {
    match t
    case Windows => 0
    case MacOS => 1
    case Linux => 2
    case Android => 3
    case IOS => 4
  }

  class ProfileManager {
    var profiles: map<string, Profile>

    /** Every profile is stored under its own id, and none is a Custom profile. */
    ghost predicate Valid()
      reads this
    {
      forall id :: id in profiles ==> profiles[id].profileId == id && profiles[id].profileType != Custom
    }

    constructor()
      ensures Valid() && profiles == map[]
    {
      profiles := map[];
    }

    /** create_profile: a Custom type is refused and nothing is stored; any other type gets a generated fingerprint and is stored under the fresh id. */
    method CreateProfile(t: ProfileType, id: string, d: Draws) returns (r: Result<Profile, Error>)
      requires Valid()
      modifies this
      ensures Valid()
      ensures t == Custom ==>
        r == Err(Configuration("Use create_custom_profile for custom profiles")) && profiles == old(profiles)
      ensures t != Custom ==>
        r == Ok(Profile(id, t, Generate(t, d))) && profiles == old(profiles)[id := r.value]
    {
      if t == Custom {
        return Err(Configuration("Use create_custom_profile for custom profiles"));
      }
      var p := Profile(id, t, Generate(t, d));
      profiles := profiles[id := p];
      r := Ok(p);
    }

    /** get_profile: the stored profile, or SessionNotFound. */
    method GetProfile(id: string) returns (r: Result<Profile, Error>)
      ensures r.Ok? <==> id in profiles
      ensures r.Ok? ==> r.value == profiles[id]
      ensures r.Err? ==> r.error == ProfileMissing(id)
    {
      if id in profiles {
        r := Ok(profiles[id]);
      } else {
        r := Err(ProfileMissing(id));
      }
    }

    /** list_profiles: the stored profiles; since each is stored under its own id, a profile is listed iff it is the one stored under its id. */
    method ListProfiles() returns (r: set<Profile>)
      requires Valid()
      ensures forall p :: p in r <==> p.profileId in profiles && profiles[p.profileId] == p
    {
      r := profiles.Values;
    }

    /** delete_profile: removes an existing profile; an unknown id fails and changes nothing. */
    method DeleteProfile(id: string) returns (r: Result<(), Error>)
      requires Valid()
      modifies this
      ensures Valid()
      ensures r.Ok? <==> id in old(profiles)
      ensures r.Err? ==> r.error == ProfileMissing(id)
      ensures profiles == old(profiles) - {id}
    {
      if id !in profiles {
        return Err(ProfileMissing(id));
      }
      profiles := profiles - {id};
      r := Ok(());
    }

    /** update_profile: replaces the fingerprint of an existing profile, keeping its id and type; an unknown id fails and changes nothing. */
    method UpdateProfile(id: string, fp: Fingerprint) returns (r: Result<(), Error>)
      requires Valid()
      modifies this
      ensures Valid()
      ensures r.Ok? <==> id in old(profiles)
      ensures r.Err? ==> r.error == ProfileMissing(id) && profiles == old(profiles)
      ensures r.Ok? ==> profiles == old(profiles)[id := old(profiles)[id].(fingerprint := fp)]
    {
      if id !in profiles {
        return Err(ProfileMissing(id));
      }
      profiles := profiles[id := profiles[id].(fingerprint := fp)];
      r := Ok(());
    }
  }
}
