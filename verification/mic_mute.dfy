/** The microphone mute key: it binds to the first non-monitor source whose
    label matches the stored device, toggles it, and shows its name and first
    channel on request. */
module MicMute {
  import opened Common
  import VolumeAction

  /** The action's fields; `sourceIndex` is -1 until a source is found. */
  datatype MicState = MicState(
    deviceName: Option<string>,
    showDevice: bool,
    showVolume: bool,
    showInfo: bool,
    sourceIndex: int,
    sourceName: Option<string>,
    image: Option<Image>)

  /** The invariant every handler keeps: info is shown when the device name or the volume is. */
  predicate Valid(st: MicState)
  {
    st.showInfo == (st.showDevice || st.showVolume)
  }

  function SourceLabel(d: Device): Option<string>
  {
    VolumeAction.FilterProplist(d.proplist)
  }

  /** Whether a source is one the action binds to for a stored label. */
  predicate Bindable(d: Device, name: Option<string>)
  {
    !IsMonitor(d) && SourceLabel(d) == name
  }

  /** Whether `i` is the position of the first bindable source for the label. */
  predicate FirstBindable(sources: seq<Device>, name: Option<string>, i: int)
  {
    0 <= i < |sources| && Bindable(sources[i], name) && forall j :: 0 <= j < i ==> !Bindable(sources[j], name)
  }

  /** The fields after binding to source `d`: its index, name and mute image. */
  function BoundTo(st: MicState, d: Device): MicState
  {
    st.(sourceIndex := d.index, sourceName := Some(d.name), image := Some(MuteStateImage(d.mute)))
  }

  /** Bind to the first non-monitor source with the stored label: its index, name and mute image. */
  function Bind(st: MicState, sources: seq<Device>): (r: MicState)
    ensures (forall j :: 0 <= j < |sources| ==> !Bindable(sources[j], st.deviceName)) ==> r == st
    ensures (exists j :: 0 <= j < |sources| && Bindable(sources[j], st.deviceName)) ==>
              exists i :: FirstBindable(sources, st.deviceName, i) && r == BoundTo(st, sources[i])
  {
    match FindFirst(sources, (d: Device) => Bindable(d, st.deviceName))
    case None => st
    case Some(d) => BoundTo(st, d)
  }

  /** `load_initial_data`: only a non-empty stored device is looked up, and
      then the first bindable source is bound. */
  function LoadInitialData(st: MicState, sources: seq<Device>): (r: MicState)
    ensures Valid(st) ==> Valid(r)
    ensures !Truthy(st.deviceName) || (forall j :: 0 <= j < |sources| ==> !Bindable(sources[j], st.deviceName)) ==> r == st
    ensures Truthy(st.deviceName) && (exists j :: 0 <= j < |sources| && Bindable(sources[j], st.deviceName)) ==>
              exists i :: FirstBindable(sources, st.deviceName, i) && r == BoundTo(st, sources[i])
  {
    if Truthy(st.deviceName) then Bind(st, sources) else st
  }

  /** `on_ready`: read the settings, start unbound, then load. A non-empty
      stored device with a bindable source binds the first one; otherwise the
      action stays unbound. */
  function OnReady(device: Option<string>, showDevice: Option<bool>, showVolume: Option<bool>, sources: seq<Device>): (r: MicState)
    ensures Valid(r)
    ensures r.deviceName == device
    ensures (r.showDevice <==> showDevice == Some(true)) && (r.showVolume <==> showVolume == Some(true))
    ensures Truthy(device) && (exists j :: 0 <= j < |sources| && Bindable(sources[j], device)) ==>
              exists i :: FirstBindable(sources, device, i)
                          && r.sourceIndex == sources[i].index && r.sourceName == Some(sources[i].name)
                          && r.image == Some(MuteStateImage(sources[i].mute))
    ensures !Truthy(device) || (forall j :: 0 <= j < |sources| ==> !Bindable(sources[j], device)) ==>
              r.sourceIndex == -1 && r.sourceName.None? && r.image.None?
  {
    var sd := OrFalse(showDevice);
    var sv := OrFalse(showVolume);
    LoadInitialData(MicState(device, sd, sv, sd || sv, -1, None, None), sources)
  }

  /** `on_device_change`: store the picked row's label and bind to the first
      bindable source for it; with none the binding is kept. */
  function OnDeviceChange(st: MicState, picked: string, sources: seq<Device>): (r: MicState)
    ensures Valid(st) ==> Valid(r)
    ensures r.deviceName == Some(picked)
    ensures r.showDevice == st.showDevice && r.showVolume == st.showVolume
    ensures (forall j :: 0 <= j < |sources| ==> !Bindable(sources[j], Some(picked))) ==>
              r == st.(deviceName := Some(picked))
    ensures (exists j :: 0 <= j < |sources| && Bindable(sources[j], Some(picked))) ==>
              exists i :: FirstBindable(sources, Some(picked), i) && r == BoundTo(st.(deviceName := Some(picked)), sources[i])
  {
    Bind(st.(deviceName := Some(picked)), sources)
  }

  /** `on_switch_change`: both switches are read and the info flag follows them. */
  function OnSwitchChange(st: MicState, showDevice: bool, showVolume: bool): (r: MicState)
    ensures Valid(r)
    ensures r.showDevice == showDevice && r.showVolume == showVolume
    ensures r.(showDevice := st.showDevice, showVolume := st.showVolume, showInfo := st.showInfo) == st
  {
    st.(showDevice := showDevice, showVolume := showVolume, showInfo := showDevice || showVolume)
  }

  /** Result of a key press: the reaction and the image shown afterwards, None when it is left as it was. */
  datatype KeyPress = KeyPress(reaction: Reaction<PulseCall>, image: Option<Image>)

  /** `on_key_down`: an error without a stored device or bound source name;
      a bound source that has gone raises; otherwise the source is toggled
      and its new state drawn. */
  function KeyDown(st: MicState, sources: seq<Device>): (p: KeyPress)
    ensures st.deviceName.None? || !Truthy(st.sourceName) ==> p == KeyPress(ShowError, None)
    ensures st.deviceName.Some? && Truthy(st.sourceName) ==>
              match DeviceByName(sources, st.sourceName)
              case None => p == KeyPress(Raise, None)
              case Some(d) => p.reaction == Issue(SetMute(d.index, ToggledMute(d.mute)))
                              && p.image == Some(MuteStateImage(ToggledMute(d.mute)))
    ensures p.reaction.Issue? ==> p.reaction.cmd.SetMute? && (p.image == Some(MuteImage) <==> p.reaction.cmd.state == 1)
  {
    if st.deviceName.None? || !Truthy(st.sourceName) then KeyPress(ShowError, None)
    else
      match DeviceByName(sources, st.sourceName)
      case None => KeyPress(Raise, None)
      case Some(d) =>
        var state := ToggledMute(d.mute);
        KeyPress(Issue(SetMute(d.index, state)), Some(MuteStateImage(state)))
  }

  /** After picking a label some non-monitor source carries, with unique
      source names, a press toggles exactly the bound source; a bound source
      with an empty name makes the press report an error instead. */
  lemma PressTogglesBoundSource(st: MicState, picked: string, sources: seq<Device>)
    requires forall a, b :: 0 <= a < |sources| && 0 <= b < |sources| && sources[a].name == sources[b].name ==> a == b
    requires exists j :: 0 <= j < |sources| && Bindable(sources[j], Some(picked))
    ensures var r := OnDeviceChange(st, picked, sources);
            var p := KeyDown(r, sources);
            r.sourceName.Some?
            && (r.sourceName != Some("") ==> p.reaction.Issue? && p.reaction.cmd.target == r.sourceIndex)
            && (r.sourceName == Some("") ==> p.reaction == ShowError)
  {
    var r := OnDeviceChange(st, picked, sources);
    var i :| FirstBindable(sources, Some(picked), i) && r == BoundTo(st.(deviceName := Some(picked)), sources[i]);
    if r.sourceName != Some("") {
      var d := DeviceByName(sources, r.sourceName).value;
      assert d in sources && d.name == sources[i].name;
    }
  }

  /** Outcome of `on_source_change`: not about the bound source, source lookup failed and was reported, or the image redrawn. */
  datatype SourceUpdate = Unaffected | Failed | Redrawn(image: Image)

  /** `on_source_change`: acts only on events whose index is the bound source's. */
  function OnSourceChange(st: MicState, eventIndex: Option<int>, sources: seq<Device>): (u: SourceUpdate)
    ensures eventIndex != Some(st.sourceIndex) ==> u.Unaffected?
    ensures eventIndex == Some(st.sourceIndex) ==>
              match DeviceByName(sources, st.sourceName)
              case None => u.Failed?
              case Some(d) => u == Redrawn(MuteStateImage(d.mute))
  {
    if eventIndex != Some(st.sourceIndex) then Unaffected
    else
      match DeviceByName(sources, st.sourceName)
      case None => Failed
      case Some(d) => Redrawn(MuteStateImage(d.mute))
  }

  /** `update_volume_info`: the first channel as text, "" for a source without channels. */
  function VolumeInfo(volumes: seq<int>): (t: string)
    ensures t == "" <==> |volumes| == 0
    ensures |volumes| > 0 ==> ParseInt(t) == Some(volumes[0])
  {
    if |volumes| > 0 then
      IntToStringRoundTrip(volumes[0]);
      IntToString(volumes[0])
    else ""
  }

  /** What `update_labels` writes: the top label (None is written as is), the
      bottom label, the info kept for later, and whether an error was reported. */
  datatype LabelUpdate = LabelUpdate(top: Option<string>, bottom: Option<string>, info: Option<string>, error: bool)

  /** `update_labels`. The info is refreshed from the bound source; when the
      lookup fails an error is reported and the previous info is kept, and it
      still reaches the bottom label. */
  function UpdateLabels(st: MicState, info: Option<string>, sources: seq<Device>): (u: LabelUpdate)
    ensures u.top == (if st.showDevice then st.deviceName else Some(""))
    ensures u.bottom == (if st.showVolume then u.info else Some(""))
    ensures u.error <==> DeviceByName(sources, st.sourceName).None?
    ensures u.error ==> u.info == info
    ensures !u.error ==> u.info == Some(VolumeInfo(DeviceByName(sources, st.sourceName).value.volumes))
  {
    var newInfo := match DeviceByName(sources, st.sourceName)
                   case None => info
                   case Some(d) => Some(VolumeInfo(d.volumes));
    LabelUpdate(if st.showDevice then st.deviceName else Some(""),
                if st.showVolume then newInfo else Some(""),
                newInfo,
                DeviceByName(sources, st.sourceName).None?)
  }

  /** With the volume shown and the source bound, the bottom label reads back as the source's first channel. */
  lemma BottomShowsFirstChannel(st: MicState, info: Option<string>, sources: seq<Device>)
    requires st.showVolume && DeviceByName(sources, st.sourceName).Some?
    requires |DeviceByName(sources, st.sourceName).value.volumes| > 0
    ensures var u := UpdateLabels(st, info, sources);
            u.bottom.Some? && ParseInt(u.bottom.value) == Some(DeviceByName(sources, st.sourceName).value.volumes[0])
  {
  }
}
