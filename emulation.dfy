// Device emulation (src/services/page/handlers/emulation.rs, and the inline
// copy of its preset table in src/services/page/service.rs): the seven
// device presets, the choice of a viewport from a request, and the
// emulate_device and set_viewport handlers, which size the page's viewport
// and, for a preset with a user agent, run a script that overrides it. The
// text of that script is a parameter.

module Emulation {
  import opened Wrappers
  import opened Errors
  import opened Json
  import opened SessionTypes
  import CdpClient
  import SessionPage
  import PageConversions

  datatype DevicePreset = DevicePreset(name: string, width: nat, height: nat, scale: real, mobile: bool, userAgent: Option<string>)

  const IphoneAgent := "Mozilla/5.0 (iPhone; CPU iPhone OS 14_0 like Mac OS X) AppleWebKit/605.1.15 (KHTML, like Gecko) Version/14.0 Mobile/15E148 Safari/604.1"
  const IpadAgent := "Mozilla/5.0 (iPad; CPU OS 14_0 like Mac OS X) AppleWebKit/605.1.15 (KHTML, like Gecko) Version/14.0 Mobile/15E148 Safari/604.1"
  const AndroidPhoneAgent := "Mozilla/5.0 (Linux; Android 10) AppleWebKit/537.36 (KHTML, like Gecko) Chrome/86.0.4240.99 Mobile Safari/537.36"
  const AndroidTabletAgent := "Mozilla/5.0 (Linux; Android 10) AppleWebKit/537.36 (KHTML, like Gecko) Chrome/86.0.4240.99 Safari/537.36"

  const Desktop := DevicePreset("Desktop", 1920, 1080, 1.0, false, None)
  const Iphone := DevicePreset("iPhone", 375, 667, 2.0, true, Some(IphoneAgent))
  const IphonePro := DevicePreset("iPhone Pro", 414, 896, 3.0, true, Some(IphoneAgent))
  const Ipad := DevicePreset("iPad", 768, 1024, 2.0, true, Some(IpadAgent))
  const IpadPro := DevicePreset("iPad Pro", 1024, 1366, 2.0, true, Some(IpadAgent))
  const AndroidPhone := DevicePreset("Android Phone", 360, 640, 2.0, true, Some(AndroidPhoneAgent))
  const AndroidTablet := DevicePreset("Android Tablet", 800, 1280, 1.5, true, Some(AndroidTabletAgent))

  /** The presets in device-type order: type t is entry t - 1. */
  const Presets: seq<DevicePreset> := [Desktop, Iphone, IphonePro, Ipad, IpadPro, AndroidPhone, AndroidTablet]

  /** from_device_type: types 1 to 7 name the presets in order; any other type names none. */
  function FromDeviceType(deviceType: int): (p: Option<DevicePreset>)
    ensures p.Some? <==> 1 <= deviceType <= 7
    ensures p.Some? ==> p.value == Presets[deviceType - 1]
  {
    match deviceType
    case 1 => Some(Desktop)
    case 2 => Some(Iphone)
    case 3 => Some(IphonePro)
    case 4 => Some(Ipad)
    case 5 => Some(IpadPro)
    case 6 => Some(AndroidPhone)
    case 7 => Some(AndroidTablet)
    case _ => None
  }

  /** The device type of a preset, found by its name. */
  function DeviceTypeOf(p: DevicePreset): int
  {
    match p.name
    case "Desktop" => 1
    case "iPhone" => 2
    case "iPhone Pro" => 3
    case "iPad" => 4
    case "iPad Pro" => 5
    case "Android Phone" => 6
    case "Android Tablet" => 7
    case _ => 0
  }

  /** The names tell the presets apart: every device type comes back from its preset. */
  lemma DeviceTypeRoundTrip(deviceType: int)
    requires 1 <= deviceType <= 7
    ensures DeviceTypeOf(FromDeviceType(deviceType).value) == deviceType
  {
  }

  /** Desktop is the only preset that is not mobile, and the only one without a user agent. */
  lemma DesktopAlone(i: int)
    requires 0 <= i < |Presets|
    ensures !Presets[i].mobile <==> Presets[i] == Desktop
    ensures Presets[i].userAgent.None? <==> Presets[i] == Desktop
    ensures Presets[i].mobile <==> Presets[i].userAgent.Some?
  {
    assert Presets[1] != Desktop && Presets[2] != Desktop && Presets[3] != Desktop;
    assert Presets[4] != Desktop && Presets[5] != Desktop && Presets[6] != Desktop;
  }

  // ------------------------------------------------------------ choice of viewport

  /** The device of an emulate_device request: a device type, or an explicit viewport. */
  datatype Device = DeviceType(code: PageConversions.I32) | Viewport(width: PageConversions.I32, height: PageConversions.I32, scale: real)

  /** What emulate_device applies: a size, a scale and maybe a user agent. */
  datatype Emulated = Emulated(width: nat, height: nat, scale: real, userAgent: Option<string>)

  /** The emulation of a preset. */
  function OfPreset(p: DevicePreset): Emulated
  {
    Emulated(p.width, p.height, p.scale, p.userAgent)
  }

  /** The choice of emulate_device: a known device type gives its preset; an unknown type or a missing device gives the desktop size without a user agent; an explicit viewport has its negative sizes raised to 0 and no user agent. */
  function Choose(device: Option<Device>): (e: Emulated)
    ensures device.Some? && device.value.DeviceType? && 1 <= device.value.code <= 7 ==> e == OfPreset(Presets[device.value.code - 1])
    ensures device.None? || (device.value.DeviceType? && !(1 <= device.value.code <= 7)) ==> e == OfPreset(Desktop)
    ensures device.Some? && device.value.Viewport? ==>
      e == Emulated(PageConversions.NonNegative(device.value.width), PageConversions.NonNegative(device.value.height), device.value.scale, None)
  {
    match device
    case None => Emulated(Desktop.width, Desktop.height, Desktop.scale, None)
    case Some(DeviceType(t)) =>
      (match FromDeviceType(t)
       case Some(p) => OfPreset(p)
       case None => Emulated(Desktop.width, Desktop.height, Desktop.scale, None))
    case Some(Viewport(w, h, s)) => Emulated(PageConversions.NonNegative(w), PageConversions.NonNegative(h), s, None)
  }

  /** The inline table of the emulate_device handler in src/services/page/service.rs, written out case by case. */
  function ChooseInline(device: Option<Device>): Emulated
  {
    match device
    case None => Emulated(1920, 1080, 1.0, None)
    case Some(Viewport(w, h, s)) => Emulated(if w < 0 then 0 else w, if h < 0 then 0 else h, s, None)
    case Some(DeviceType(t)) =>
      if t == 1 then Emulated(1920, 1080, 1.0, None)
      else if t == 2 then Emulated(375, 667, 2.0, Some(IphoneAgent))
      else if t == 3 then Emulated(414, 896, 3.0, Some(IphoneAgent))
      else if t == 4 then Emulated(768, 1024, 2.0, Some(IpadAgent))
      else if t == 5 then Emulated(1024, 1366, 2.0, Some(IpadAgent))
      else if t == 6 then Emulated(360, 640, 2.0, Some(AndroidPhoneAgent))
      else if t == 7 then Emulated(800, 1280, 1.5, Some(AndroidTabletAgent))
      else Emulated(1920, 1080, 1.0, None)
  }

  /** The two copies of the preset table make the same choice for every request. */
  lemma InlineTableAgrees(device: Option<Device>)
    ensures ChooseInline(device) == Choose(device)
  {
  }

  // ------------------------------------------------------------ handlers

  /** The calls emulate_device makes on an active page: the viewport override with the page's own mobile flag, then the agent script only when the viewport was set and the choice has an agent. */
  function EmulationCalls(e: Emulated, mobile: bool, viewportSet: bool, agentScript: string -> string): (cs: seq<ClientCall>)
    ensures |cs| >= 1 && cs[0] == SessionPage.ViewportCall(e.width, e.height, e.scale, mobile)
    ensures |cs| == 2 <==> viewportSet && e.userAgent.Some?
    ensures |cs| == 2 ==> cs[1] == EvaluateCall(agentScript(e.userAgent.value), false)
  {
    [SessionPage.ViewportCall(e.width, e.height, e.scale, mobile)]
      + (if viewportSet && e.userAgent.Some? then [EvaluateCall(agentScript(e.userAgent.value), false)] else [])
  }

  /** emulate_device: the page is looked up, the viewport chosen and applied; on success a chosen user agent is set by script, whose outcome is ignored. The outcome is the viewport's. */
  method EmulateDevice(lookup: Result<SessionPage.PageContext, Error>, device: Option<Device>, agentScript: string -> string,
                       viewportReply: Result<Json, Error>, agentReply: Result<CdpClient.EvaluationResult, Error>)
    returns (r: Result<(), Error>)
    requires lookup.Ok? ==> lookup.value.Valid()
    modifies if lookup.Ok? then {lookup.value} else {}
    ensures lookup.Err? ==> r == Err(lookup.error)
    ensures lookup.Ok? ==> lookup.value.Valid() && lookup.value.active == old(lookup.value.active)
    ensures lookup.Ok? && !old(lookup.value.active) ==>
      r == Err(PageNotFound(lookup.value.id)) && lookup.value.calls == old(lookup.value.calls)
    ensures lookup.Ok? && old(lookup.value.active) ==>
      && (r.Ok? <==> viewportReply.Ok?)
      && (viewportReply.Err? ==> r == Err(viewportReply.error))
      && lookup.value.calls == old(lookup.value.calls) + EmulationCalls(Choose(device), lookup.value.options.isMobile, viewportReply.Ok?, agentScript)
  {
    if lookup.Err? {
      return Err(lookup.error);
    }
    var page := lookup.value;
    var e := Choose(device);
    var applied := page.SetViewport(e.width, e.height, e.scale, viewportReply);
    if applied.Err? {
      return Err(applied.error);
    }
    if e.userAgent.Some? {
      var _ := page.Evaluate(agentScript(e.userAgent.value), false, agentReply);
    }
    r := Ok(());
  }

  /** The viewport of a set_viewport request. */
  datatype ProtoViewport = ProtoViewport(width: PageConversions.I32, height: PageConversions.I32, scale: real)

  /** set_viewport: the page is looked up and its viewport set to the requested size, negative sizes raised to 0 and a missing viewport read as all zeros. */
  method SetViewport(lookup: Result<SessionPage.PageContext, Error>, viewport: Option<ProtoViewport>, reply: Result<Json, Error>)
    returns (r: Result<(), Error>)
    requires lookup.Ok? ==> lookup.value.Valid()
    modifies if lookup.Ok? then {lookup.value} else {}
    ensures lookup.Err? ==> r == Err(lookup.error)
    ensures lookup.Ok? ==> lookup.value.Valid() && lookup.value.active == old(lookup.value.active)
    ensures lookup.Ok? && !old(lookup.value.active) ==>
      r == Err(PageNotFound(lookup.value.id)) && lookup.value.calls == old(lookup.value.calls)
    ensures lookup.Ok? && old(lookup.value.active) ==>
      var v := UnwrapOr(viewport, ProtoViewport(0, 0, 0.0));
      && (r.Ok? <==> reply.Ok?)
      && (reply.Err? ==> r == Err(reply.error))
      && lookup.value.calls == old(lookup.value.calls) +
           [SessionPage.ViewportCall(PageConversions.NonNegative(v.width), PageConversions.NonNegative(v.height), v.scale, lookup.value.options.isMobile)]
  {
    if lookup.Err? {
      return Err(lookup.error);
    }
    var v := UnwrapOr(viewport, ProtoViewport(0, 0, 0.0));
    r := lookup.value.SetViewport(PageConversions.NonNegative(v.width), PageConversions.NonNegative(v.height), v.scale, reply);
  }

  /** The preset's mobile flag never reaches the page: emulating a phone on a desktop page sends mobile false. */
  lemma PresetMobileDropped(viewportSet: bool, agentScript: string -> string)
    ensures Iphone.mobile
    ensures EmulationCalls(Choose(Some(DeviceType(2))), false, viewportSet, agentScript)[0].params.fields["mobile"] == JBool(false)
  {
  }
}
