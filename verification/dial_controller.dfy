/** The dial action: turning changes the volume within an upper bound,
    pressing mutes or sets a fixed volume. */
module DialController {
  import opened Common
  import PulseHelpers
  import DeviceBase

  /** What a dial press does. */
  datatype Behaviour = MuteBehaviour | SetBehaviour

  /** The dial's own settings: step per detent, upper bound for turning up,
      the fixed volume of a press and whether that volume may reach 150. */
  datatype DialSettings = DialSettings(
    behaviour: Behaviour,
    volumeAdjust: int,
    volumeBounds: int,
    volume: int,
    extendVolume: bool)

  /** Stored name of a behaviour. */
  function BehaviourName(b: Behaviour): string
  {
    match b
    case MuteBehaviour => "mute"
    case SetBehaviour => "set_volume"
  }

  /** `Behaviour(settings.get("behaviour", MUTE))`: a missing entry is MUTE,
      an unknown name raises. */
  function ParseBehaviour(stored: Option<string>): (r: Outcome<Behaviour>)
    ensures stored.None? ==> r == Done(MuteBehaviour)
    ensures stored.Some? ==> (r.Done? <==> stored.value in {"mute", "set_volume"})
  {
    match stored
    case None => Done(MuteBehaviour)
    case Some(s) =>
      if s == "mute" then Done(MuteBehaviour)
      else if s == "set_volume" then Done(SetBehaviour)
      else Raised
  }

  /** A stored behaviour reads back as itself, and the two behaviours are stored under different names. */
  lemma BehaviourRoundTrip(b: Behaviour)
    ensures ParseBehaviour(Some(BehaviourName(b))) == Done(b)
    ensures BehaviourName(MuteBehaviour) != BehaviourName(SetBehaviour)
  {
  }

  /** `load_settings` of the dial: missing entries take their defaults
      (step 1, bound 100, volume 0, not extended). */
  function LoadDialSettings(behaviour: Option<string>, adjust: Option<int>, bounds: Option<int>,
                            volume: Option<int>, extend: Option<bool>): (r: Outcome<DialSettings>)
    ensures r.Done? <==> ParseBehaviour(behaviour).Done?
    ensures r.Done? ==> r.value.behaviour == ParseBehaviour(behaviour).value
    ensures r.Done? ==> (adjust.None? ==> r.value.volumeAdjust == 1) && (adjust.Some? ==> r.value.volumeAdjust == adjust.value)
    ensures r.Done? ==> (bounds.None? ==> r.value.volumeBounds == 100) && (bounds.Some? ==> r.value.volumeBounds == bounds.value)
    ensures r.Done? ==> (volume.None? ==> r.value.volume == 0) && (volume.Some? ==> r.value.volume == volume.value)
    ensures r.Done? ==> (r.value.extendVolume <==> extend == Some(true))
  {
    match ParseBehaviour(behaviour)
    case Raised => Raised
    case Done(b) =>
      Done(DialSettings(b,
                        if adjust.Some? then adjust.value else 1,
                        if bounds.Some? then bounds.value else 100,
                        if volume.Some? then volume.value else 0,
                        OrFalse(extend)))
  }

  /** Settings written under their stored names load back unchanged. */
  lemma LoadDialSettingsRoundTrip(ds: DialSettings)
    ensures LoadDialSettings(Some(BehaviourName(ds.behaviour)), Some(ds.volumeAdjust), Some(ds.volumeBounds),
                             Some(ds.volume), Some(ds.extendVolume)) == Done(ds)
  {
    BehaviourRoundTrip(ds.behaviour);
  }

  /** The device the dial acts on: the default device under `use_standard`, else the one named by the pulse name. */
  function TargetDevice(st: DeviceBase.State, server: Server): (r: Option<Device>)
    ensures r.Some? ==> r.value in DeviceList(server, st.filter)
    ensures st.useStandard ==> r == PulseHelpers.GetStandardDevice(server, st.filter)
    ensures !st.useStandard ==> (r.Some? ==> Some(r.value.name) == st.pulseDeviceName)
    ensures !st.useStandard ==> (r.None? <==> forall d :: d in DeviceList(server, st.filter) ==> Some(d.name) != st.pulseDeviceName)
  {
    if st.useStandard then PulseHelpers.GetStandardDevice(server, st.filter)
    else PulseHelpers.GetDevice(server, st.filter, st.pulseDeviceName)
  }

  //
  // Turning
  //

  /** `on_dial_turn`. Turning down always issues `down`, even with no device
      found. Turning up needs the device: with it missing the handler reports an
      error. Below the bound it moves up by the step, or to the bound when the
      step would pass it. At or above the bound it does nothing. */
  function DialTurn(st: DeviceBase.State, ds: DialSettings, server: Server, direction: int): (r: Reaction<PulseHelpers.ScriptCommand>)
    ensures st.pulseDeviceName.None? ==> r.ShowError?
    ensures st.pulseDeviceName.Some? && direction < 0 ==>
              r.Issue? && (r.cmd.Up? || r.cmd.Down?) && PulseHelpers.Delta(r.cmd) == -ds.volumeAdjust
    ensures st.pulseDeviceName.Some? && direction >= 0 && TargetDevice(st, server).None? ==> r.ShowError?
    ensures st.pulseDeviceName.Some? && direction >= 0 && TargetDevice(st, server).Some? ==>
              var vs := PulseHelpers.VolumesFromDevice(server, st.filter, Some(TargetDevice(st, server).value.name));
              (r.Issue? <==> |vs| > 0 && vs[0] < ds.volumeBounds) && (r.Idle? <==> !r.Issue?)
    ensures st.pulseDeviceName.Some? && direction > 0 && TargetDevice(st, server).Some? ==>
              var vs := PulseHelpers.VolumesFromDevice(server, st.filter, Some(TargetDevice(st, server).value.name));
              |vs| > 0 && vs[0] < ds.volumeBounds ==>
                (vs[0] + ds.volumeAdjust > ds.volumeBounds ==> r == Issue(PulseHelpers.SetTo(ds.volumeBounds)))
                && (vs[0] + ds.volumeAdjust <= ds.volumeBounds ==>
                      r.Issue? && (r.cmd.Up? || r.cmd.Down?) && PulseHelpers.Delta(r.cmd) == ds.volumeAdjust)
  {
    if st.pulseDeviceName.None? then ShowError
    else
      var device := TargetDevice(st, server);
      if direction < 0 then Issue(PulseHelpers.ChangeVolume(device, (-ds.volumeAdjust) as real))
      else if device.None? then ShowError
      else
        var vs := PulseHelpers.VolumesFromDevice(server, st.filter, Some(device.value.name));
        if |vs| > 0 && vs[0] < ds.volumeBounds then
          if vs[0] + ds.volumeAdjust > ds.volumeBounds && direction > 0 then
            Issue(PulseHelpers.SetVolume(device, ds.volumeBounds))
          else Issue(PulseHelpers.ChangeVolume(device, ds.volumeAdjust as real))
        else Idle
  }

  /** The first channel the dial reads is the target device's own. */
  lemma DialReadsTargetVolumes(st: DeviceBase.State, server: Server)
    requires TargetDevice(st, server).Some?
    ensures var d := TargetDevice(st, server).value;
            PulseHelpers.VolumesFromDevice(server, st.filter, Some(d.name)) == d.volumes
  {
    var d := TargetDevice(st, server).value;
    var ds := DeviceList(server, st.filter);
    assert PulseHelpers.GetDevice(server, st.filter, Some(d.name)) == DeviceByName(ds, Some(d.name));
    assert DeviceByName(ds, Some(d.name)) == FindFirst(ds, (x: Device) => Some(x.name) == Some(d.name));
    assert DeviceByName(ds, Some(d.name)) == Some(d);
  }

  /** Whether the device the dial reads is the device the control script
      acts on: the script is given no device and acts on the server's default. */
  predicate TargetIsDefault(st: DeviceBase.State, server: Server)
  {
    TargetDevice(st, server).Some? && TargetDevice(st, server).value.name == PulseHelpers.DefaultName(server, st.filter)
  }

  /** When the target is the default device, turning up from below the bound
      lands on the step's target or on the bound, whichever is lower: it never
      passes the bound. */
  lemma TurnUpStopsAtBound(st: DeviceBase.State, ds: DialSettings, server: Server, muted: bool)
    requires st.pulseDeviceName.Some? && TargetIsDefault(st, server)
    requires var vs := TargetDevice(st, server).value.volumes; |vs| > 0 && vs[0] < ds.volumeBounds
    ensures var v := TargetDevice(st, server).value.volumes[0];
            var r := DialTurn(st, ds, server, 1);
            r.Issue?
            && PulseHelpers.RunScript(r.cmd, PulseHelpers.Level(v, muted)).volume
               == (if v + ds.volumeAdjust < ds.volumeBounds then v + ds.volumeAdjust else ds.volumeBounds)
            && PulseHelpers.RunScript(r.cmd, PulseHelpers.Level(v, muted)).volume <= ds.volumeBounds
  {
    DialReadsTargetVolumes(st, server);
  }

  /** When the target is not the default device, the bound is checked against
      one device and the step applied to another: a turn the target's level
      permits can carry the default device past the bound. */
  lemma TurnUpCanPassBoundOnDefault(st: DeviceBase.State, ds: DialSettings, server: Server, l: PulseHelpers.Level)
    requires st.pulseDeviceName.Some? && TargetDevice(st, server).Some?
    requires var vs := TargetDevice(st, server).value.volumes; |vs| > 0 && vs[0] + ds.volumeAdjust <= ds.volumeBounds
    requires 0 < ds.volumeAdjust && ds.volumeBounds < l.volume + ds.volumeAdjust
    ensures DialTurn(st, ds, server, 1).Issue?
    ensures PulseHelpers.RunScript(DialTurn(st, ds, server, 1).cmd, l).volume > ds.volumeBounds
  {
    DialReadsTargetVolumes(st, server);
    PulseHelpers.ChangeVolumeMovesByTruncated(TargetDevice(st, server), ds.volumeAdjust as real, l);
  }

  /** Turning up at or above the bound does nothing. */
  lemma TurnUpAtBoundIsIdle(st: DeviceBase.State, ds: DialSettings, server: Server)
    requires st.pulseDeviceName.Some? && TargetDevice(st, server).Some?
    requires var vs := TargetDevice(st, server).value.volumes; |vs| > 0 && vs[0] >= ds.volumeBounds
    ensures DialTurn(st, ds, server, 1) == Idle
  {
    DialReadsTargetVolumes(st, server);
  }

  /** Turning down has no lower clamp: the volume drops by the full step, below zero if need be. */
  lemma TurnDownIsUnbounded(st: DeviceBase.State, ds: DialSettings, server: Server, l: PulseHelpers.Level)
    requires st.pulseDeviceName.Some?
    ensures DialTurn(st, ds, server, -1).Issue?
    ensures PulseHelpers.RunScript(DialTurn(st, ds, server, -1).cmd, l).volume == l.volume - ds.volumeAdjust
  {
  }

  /** After a switch of device list the pulse name is forgotten, so the dial reports an error until a device is picked. */
  lemma TurnAfterFilterChangeFails(st: DeviceBase.State, ds: DialSettings, server: Server, filter: DeviceFilter, direction: int)
    ensures DialTurn(DeviceBase.OnDeviceFilterChanged(st, filter), ds, server, direction) == ShowError
  {
  }

  //
  // Pressing
  //

  /** Result of a press: the reaction and the `is_muted` flag afterwards. */
  datatype Press = Press(reaction: Reaction<PulseHelpers.ScriptCommand>, muted: bool)

  /** `on_dial_down` with `mute_behaviour` and `set_volume_behaviour`. MUTE
      toggles and records the device's new state; it fails when no device is
      found. SET sends the fixed volume and never reads the device. */
  function DialDown(st: DeviceBase.State, ds: DialSettings, server: Server, muted: bool): (p: Press)
    ensures st.pulseDeviceName.None? ==> p == Press(ShowError, muted)
    ensures st.pulseDeviceName.Some? && ds.behaviour.SetBehaviour? ==>
              p.reaction.Issue? && p.reaction.cmd == PulseHelpers.SetTo(ds.volume) && p.muted == muted
    ensures st.pulseDeviceName.Some? && ds.behaviour.MuteBehaviour? && TargetDevice(st, server).None? ==>
              p == Press(ShowError, muted)
    ensures st.pulseDeviceName.Some? && ds.behaviour.MuteBehaviour? && TargetDevice(st, server).Some? ==>
              p.reaction.Issue? && p.reaction.cmd.ToggleMute?
              && (p.muted <==> TargetDevice(st, server).value.mute == 0)
  {
    if st.pulseDeviceName.None? then Press(ShowError, muted)
    else
      var device := TargetDevice(st, server);
      match ds.behaviour
      case MuteBehaviour =>
        (match device
         case None => Press(ShowError, muted)
         case Some(d) =>
           var nowMuted := d.mute == 0;
           Press(Issue(PulseHelpers.Mute(device, nowMuted)), nowMuted))
      case SetBehaviour => Press(Issue(PulseHelpers.SetVolume(device, ds.volume)), muted)
  }

  /** When the target is the default device, the mute flag a press records is
      the state the toggle leaves the device in. */
  lemma PressRecordsToggledState(st: DeviceBase.State, ds: DialSettings, server: Server, muted: bool, volume: int)
    requires st.pulseDeviceName.Some? && ds.behaviour.MuteBehaviour? && TargetIsDefault(st, server)
    ensures var d := TargetDevice(st, server).value;
            var p := DialDown(st, ds, server, muted);
            PulseHelpers.RunScript(p.reaction.cmd, PulseHelpers.Level(volume, d.mute != 0)).muted == p.muted
  {
  }

  /** `display_mute_image`. */
  function MuteIcon(muted: bool): (img: Image)
    ensures img == MuteImage <==> muted
    ensures img == MuteImage || img == AudioImage
  {
    if muted then MuteImage else AudioImage
  }

  /** The icon drawn for the `is_muted` flag agrees with the icon of the server's 0/1 mute state. */
  lemma MuteIconAgrees(state: int)
    requires state == 0 || state == 1
    ensures MuteIcon(state == 1) == MuteStateImage(state)
  {
  }

  /** Outcome of `on_pulse_device_change`: the event is about another device,
      the lookup failed and was reported, the handler raised, or the mute flag was refreshed. */
  datatype PulseUpdate = Unaffected | Failed | Uncaught | Refreshed(muted: bool)

  /** `on_pulse_device_change`. `eventIndex` is None when the event carries
      too few arguments. Under `use_standard` a missing default device raises
      before any index comparison. */
  function OnPulseDeviceChange(st: DeviceBase.State, server: Server, eventIndex: Option<int>): (u: PulseUpdate)
    ensures eventIndex.None? ==> u == Unaffected
    ensures u.Uncaught? ==> st.useStandard && PulseHelpers.GetStandardDevice(server, st.filter).None?
    ensures u.Refreshed? ==> TargetDevice(st, server).Some? && (u.muted <==> TargetDevice(st, server).value.mute != 0)
    ensures eventIndex.Some? && !st.useStandard ==>
              (u.Unaffected? <==> st.deviceIndex != eventIndex)
    ensures eventIndex.Some? && st.useStandard && PulseHelpers.GetStandardDevice(server, st.filter).Some? ==>
              (u.Unaffected? <==> PulseHelpers.GetStandardDevice(server, st.filter).value.index != eventIndex.value)
    ensures u.Failed? ==> TargetDevice(st, server).None?
  {
    match eventIndex
    case None => Unaffected
    case Some(e) =>
      var index: Option<int> :=
        if st.useStandard then
          (match PulseHelpers.GetStandardDevice(server, st.filter)
           case None => None
           case Some(d) => Some(d.index))
        else st.deviceIndex;
      if st.useStandard && index.None? then Uncaught
      else if index != Some(e) then Unaffected
      else
        match TargetDevice(st, server)
        case None => Failed
        case Some(d) => Refreshed(d.mute != 0)
  }

  //
  // Settings edits and labels
  //

  /** `on_extend_volume_changed`: the fixed-volume scale's upper end and the
      scale value afterwards. Switching off pulls a value above 100 down to 100. */
  function ExtendVolume(extend: bool, value: int): (r: (int, int))
    ensures r.0 == (if extend then 150 else 100)
    ensures value <= r.0 ==> r.1 == value
    ensures value > r.0 && !extend ==> r.1 == r.0
    ensures ParseInt(IntToString(r.0)) == Some(r.0)
  {
    var upper := if extend then 150 else 100;
    IntToStringRoundTrip(upper);
    (upper, if !extend && value > 100 then 100 else value)
  }

  /** Once the scale is within its range, switching extension off keeps it within the narrower range. */
  lemma ExtendOffKeepsInRange(value: int)
    requires value <= 150
    ensures ExtendVolume(false, value).1 <= 100
    ensures ExtendVolume(true, value).1 == value
  {
  }

  /** `display_adjustment`: the step as text, which reads back as the step. */
  function DisplayAdjustment(ds: DialSettings): (t: string)
    ensures ParseInt(t) == Some(ds.volumeAdjust)
  {
    IntToStringRoundTrip(ds.volumeAdjust);
    IntToString(ds.volumeAdjust)
  }
}
