/** The shared base of the device actions: which device an action targets,
    what its top and bottom labels show, and how deck input is dispatched. */
module DeviceBase {
  import opened Common
  import PulseHelpers

  /** What the bottom label shows. */
  datatype InfoContent = VolumeInfo | AdjustmentInfo

  /** The persisted settings the action reads on load. */
  datatype Settings = Settings(
    pulseName: Option<string>,
    filter: DeviceFilter,
    deviceName: Option<string>,
    useStandard: bool,
    showInfo: bool,
    infoContent: InfoContent,
    showDeviceName: bool,
    nick: Option<string>)

  /** The action's fields: the chosen device (pulse name, index, label) and the display options. */
  datatype State = State(
    pulseDeviceName: Option<string>,
    deviceIndex: Option<int>,
    filter: DeviceFilter,
    deviceName: Option<string>,
    useStandard: bool,
    showInfo: bool,
    infoContent: InfoContent,
    showDeviceName: bool,
    deviceNick: Option<string>)

  /** The fields as the constructor sets them. */
  const Initial: State := State(Some(""), None, Sink, Some(""), false, false, VolumeInfo, false, None)

  /** Label of a device under the scoring heuristic. */
  function DeviceLabel(d: Device): Option<string>
  {
    PulseHelpers.FilterProplist(d.proplist)
  }

  //
  // Device resolution
  //

  /** The device `load_settings` resolves: the default device under
      `use_standard`, else the saved pulse name, else the first non-monitor device. */
  function ResolveDevice(s: Settings, server: Server): (r: Option<Device>)
    ensures r.Some? ==> r.value in DeviceList(server, s.filter)
    ensures s.useStandard ==>
              (r.Some? ==> r.value.name == PulseHelpers.DefaultName(server, s.filter))
              && (r.None? <==> forall d :: d in DeviceList(server, s.filter) ==> d.name != PulseHelpers.DefaultName(server, s.filter))
    ensures !s.useStandard && Truthy(s.pulseName) ==>
              (r.Some? ==> Some(r.value.name) == s.pulseName)
              && (r.None? <==> forall d :: d in DeviceList(server, s.filter) ==> Some(d.name) != s.pulseName)
    ensures !s.useStandard && !Truthy(s.pulseName) ==>
              var ds := DeviceList(server, s.filter);
              (r.None? <==> forall j :: 0 <= j < |ds| ==> IsMonitor(ds[j]))
              && (r.Some? ==> exists i :: 0 <= i < |ds| && ds[i] == r.value && !IsMonitor(ds[i]) && forall j :: 0 <= j < i ==> IsMonitor(ds[j]))
  {
    if s.useStandard then PulseHelpers.GetStandardDevice(server, s.filter)
    else if Truthy(s.pulseName) then PulseHelpers.GetDevice(server, s.filter, s.pulseName)
    else FindFirst(DeviceList(server, s.filter), (d: Device) => !IsMonitor(d))
  }

  /** `load_settings`: the settings are copied in, then the resolved device,
      if any, supplies index, label and pulse name. */
  function LoadSettings(prev: State, s: Settings, server: Server): (st: State)
    ensures st.filter == s.filter && st.useStandard == s.useStandard && st.showInfo == s.showInfo
    ensures st.infoContent == s.infoContent && st.showDeviceName == s.showDeviceName && st.deviceNick == s.nick
    ensures ResolveDevice(s, server).None? ==>
              st.deviceIndex == prev.deviceIndex && st.deviceName == s.deviceName && st.pulseDeviceName == s.pulseName
    ensures ResolveDevice(s, server).Some? ==>
              var d := ResolveDevice(s, server).value;
              st.deviceIndex == Some(d.index) && st.deviceName == DeviceLabel(d) && st.pulseDeviceName == Some(d.name)
  {
    var loaded := State(s.pulseName, prev.deviceIndex, s.filter, s.deviceName, s.useStandard,
                        s.showInfo, s.infoContent, s.showDeviceName, s.nick);
    match ResolveDevice(s, server)
    case None => loaded
    case Some(d) => loaded.(deviceIndex := Some(d.index), deviceName := DeviceLabel(d), pulseDeviceName := Some(d.name))
  }

  /** After loading, a resolved device is the one the action's pulse name designates. */
  lemma LoadedNameDesignatesDevice(prev: State, s: Settings, server: Server)
    requires ResolveDevice(s, server).Some?
    ensures var st := LoadSettings(prev, s, server);
            PulseHelpers.GetDevice(server, st.filter, st.pulseDeviceName).Some?
            && PulseHelpers.GetDevice(server, st.filter, st.pulseDeviceName).value.name == ResolveDevice(s, server).value.name
  {
  }

  //
  // Labels
  //

  /** `display_device_name`: the top label. None stands for a label set to
      None; Raised for the missing default device the code dereferences. */
  function TopLabel(st: State, server: Server): (r: Outcome<Option<string>>)
    ensures !st.showDeviceName ==> r == Done(Some(""))
    ensures st.showDeviceName && Truthy(st.deviceNick) ==> r == Done(st.deviceNick)
    ensures st.showDeviceName && !Truthy(st.deviceNick) && !st.useStandard ==> r == Done(st.deviceName)
    ensures st.showDeviceName && !Truthy(st.deviceNick) && st.useStandard ==>
              match PulseHelpers.GetStandardDevice(server, st.filter)
              case None => r.Raised?
              case Some(d) => r == Done(DeviceLabel(d))
  {
    if !st.showDeviceName then Done(Some(""))
    else if Truthy(st.deviceNick) then Done(st.deviceNick)
    else if st.useStandard then
      match PulseHelpers.GetStandardDevice(server, st.filter)
      case None => Raised
      case Some(d) => Done(DeviceLabel(d))
    else Done(st.deviceName)
  }

  /** The top label never invents text: it is empty, the nick, the stored label or the default device's label. */
  lemma TopLabelSources(st: State, server: Server)
    requires TopLabel(st, server).Done?
    ensures var t := TopLabel(st, server).value;
            t == Some("") || t == st.deviceNick || t == st.deviceName
            || exists d :: d in DeviceList(server, st.filter) && t == DeviceLabel(d)
  {
  }

  /** Text of a volume list: the first channel, or "N/A" when there are none. */
  function VolumeText(volumes: seq<int>): (t: string)
    ensures |volumes| == 0 <==> t == "N/A"
    ensures |volumes| > 0 ==> ParseInt(t) == Some(volumes[0])
  {
    if |volumes| > 0 then
      IntToStringRoundTrip(volumes[0]);
      IntToString(volumes[0])
    else "N/A"
  }

  /** Channels of the device the action targets, as `display_volume` reads them. */
  function TargetVolumes(st: State, server: Server): (r: Outcome<seq<int>>)
    ensures st.useStandard ==> (r.Raised? <==> PulseHelpers.GetStandardDevice(server, st.filter).None?)
    ensures st.useStandard && r.Done? ==> r.value == PulseHelpers.GetStandardDevice(server, st.filter).value.volumes
    ensures !st.useStandard ==> r == Done(PulseHelpers.VolumesFromDevice(server, st.filter, st.pulseDeviceName))
  {
    if st.useStandard then
      match PulseHelpers.GetStandardDevice(server, st.filter)
      case None => Raised
      case Some(d) => Done(PulseHelpers.VolumesFromDevice(server, st.filter, Some(d.name)))
    else Done(PulseHelpers.VolumesFromDevice(server, st.filter, st.pulseDeviceName))
  }

  /** `display_info`: the bottom label. `adjustment` is what the concrete
      action's `display_adjustment` returns. The info is computed before the
      `show_info` check, so a missing default device raises even when info is off. */
  function BottomLabel(st: State, server: Server, adjustment: string): (r: Outcome<string>)
    ensures st.infoContent.AdjustmentInfo? ==> r == Done(if st.showInfo then adjustment else "")
    ensures st.infoContent.VolumeInfo? ==>
              match TargetVolumes(st, server)
              case Raised => r.Raised?
              case Done(vs) => r == Done(if st.showInfo then VolumeText(vs) else "")
    ensures r.Done? && !st.showInfo ==> r.value == ""
  {
    var info := match st.infoContent
                case VolumeInfo =>
                  (match TargetVolumes(st, server)
                   case Raised => Raised
                   case Done(vs) => Done(VolumeText(vs)))
                case AdjustmentInfo => Done(adjustment);
    match info
    case Raised => Raised
    case Done(t) => Done(if st.showInfo then t else "")
  }

  /** With volume info shown, the bottom label reads back as the target's first channel, or is "N/A" when it has none. */
  lemma BottomLabelShowsFirstChannel(st: State, server: Server, adjustment: string)
    requires st.showInfo && st.infoContent.VolumeInfo? && TargetVolumes(st, server).Done?
    ensures var vs := TargetVolumes(st, server).value;
            BottomLabel(st, server, adjustment).Done?
            && (|vs| > 0 ==> ParseInt(BottomLabel(st, server, adjustment).value) == Some(vs[0]))
            && (|vs| == 0 ==> BottomLabel(st, server, adjustment).value == "N/A")
  {
  }

  //
  // Settings edits
  //

  /** `on_device_nick_changed`: an empty entry clears the nick. */
  function NickFromEntry(text: string): (nick: Option<string>)
    ensures nick.None? <==> text == ""
    ensures nick.Some? ==> nick.value == text
  {
    if |text| > 0 then Some(text) else None
  }

  /** Showing a stored nick in the entry and reading it back gives the nick,
      and reading an entry then showing it gives the entry's text. */
  lemma NickEntryRoundTrip(nick: Option<string>, text: string)
    ensures nick.None? || nick.value != "" ==> NickFromEntry(OrEmpty(nick)) == nick
    ensures OrEmpty(NickFromEntry(text)) == text
  {
  }

  /** `load_device`: the dropdown labels, in server order, without monitors and unnamed devices. */
  function DropdownLabels(ds: seq<Device>): (r: seq<string>)
    ensures |r| <= |ds|
    ensures forall x :: x in r <==> exists i :: 0 <= i < |ds| && !IsMonitor(ds[i]) && DeviceLabel(ds[i]) == Some(x)
  {
    Labels(ds, DeviceLabel, true)
  }

  /** The dropdown keeps server order: the labels of a split list are the labels of each part, in turn. */
  lemma DropdownKeepsOrder(a: seq<Device>, b: seq<Device>)
    ensures DropdownLabels(a + b) == DropdownLabels(a) + DropdownLabels(b)
  {
    LabelsAppend(a, b, DeviceLabel, true);
  }

  /** The row `load_device` selects: the first whose label equals the stored
      label; None leaves the selection as it was. */
  function SelectedRow(rows: seq<string>, name: Option<string>): (r: Option<nat>)
    ensures r.Some? ==> r.value < |rows| && Some(rows[r.value]) == name
                        && forall j :: 0 <= j < r.value ==> Some(rows[j]) != name
    ensures r.None? <==> forall j :: 0 <= j < |rows| ==> Some(rows[j]) != name
  {
    FirstWhere(rows, (x: string) => Some(x) == name)
  }

  /** Whether a device is the one `set_device_settings` adopts for a stored label. */
  predicate Adoptable(d: Device, name: Option<string>)
  {
    !IsMonitor(d) && DeviceLabel(d) == name
  }

  /** `set_device_settings`: adopt index and pulse name of the first non-monitor
      device whose label equals the stored label; nothing else changes. */
  function SetDeviceSettings(st: State, server: Server): (r: State)
    ensures r.(deviceIndex := st.deviceIndex, pulseDeviceName := st.pulseDeviceName) == st
    ensures (forall d :: d in DeviceList(server, st.filter) ==> !Adoptable(d, st.deviceName)) ==> r == st
    ensures var ds := DeviceList(server, st.filter);
            (exists d :: d in ds && Adoptable(d, st.deviceName)) ==>
              exists i :: 0 <= i < |ds| && Adoptable(ds[i], st.deviceName)
                          && (forall j :: 0 <= j < i ==> !Adoptable(ds[j], st.deviceName))
                          && r.deviceIndex == Some(ds[i].index) && r.pulseDeviceName == Some(ds[i].name)
  {
    var ds := DeviceList(server, st.filter);
    match FindFirst(ds, (d: Device) => Adoptable(d, st.deviceName))
    case None => st
    case Some(d) => st.(deviceIndex := Some(d.index), pulseDeviceName := Some(d.name))
  }

  /** `on_device_changed`: store the picked label, then adopt its device. */
  function OnDeviceChanged(st: State, picked: string, server: Server): (r: State)
    ensures r.deviceName == Some(picked)
    ensures r.filter == st.filter && r.useStandard == st.useStandard && r.deviceNick == st.deviceNick
    ensures (forall d :: d in DeviceList(server, st.filter) ==> !Adoptable(d, Some(picked))) ==> r == st.(deviceName := Some(picked))
    ensures var ds := DeviceList(server, st.filter);
            (exists d :: d in ds && Adoptable(d, Some(picked))) ==>
              exists i :: 0 <= i < |ds| && Adoptable(ds[i], Some(picked))
                          && (forall j :: 0 <= j < i ==> !Adoptable(ds[j], Some(picked)))
                          && r.deviceIndex == Some(ds[i].index) && r.pulseDeviceName == Some(ds[i].name)
  {
    SetDeviceSettings(st.(deviceName := Some(picked)), server)
  }

  /** `on_device_filter_changed`: switch lists and forget the pulse name. */
  function OnDeviceFilterChanged(st: State, filter: DeviceFilter): (r: State)
    ensures r.filter == filter && r.pulseDeviceName.None?
    ensures r.(filter := st.filter, pulseDeviceName := st.pulseDeviceName) == st
  {
    st.(filter := filter, pulseDeviceName := None)
  }

  //
  // Input dispatch
  //

  /** Deck input events. */
  datatype InputEvent =
    | KeyDown | KeyUp | KeyShortUp | KeyHoldStart | KeyHoldStop
    | DialDown | DialUp | DialShortUp | DialHoldStart | DialHoldStop | DialTurnCW | DialTurnCCW
    | TouchEvent

  /** The action method an event reaches. */
  datatype Handler = OnKeyDown | OnHoldStart | OnDialTurn(direction: int) | OnDialDown | Ignored

  /** `event_callback`. */
  function EventCallback(e: InputEvent): (h: Handler)
    ensures h == OnKeyDown <==> e == KeyShortUp
    ensures h == OnHoldStart <==> e == KeyHoldStart || e == DialHoldStart
    ensures h.OnDialTurn? <==> e == DialTurnCW || e == DialTurnCCW
    ensures h.OnDialTurn? ==> (h.direction == 1 <==> e == DialTurnCW) && (h.direction == -1 <==> e == DialTurnCCW)
    ensures h == OnDialDown <==> e == DialShortUp
  {
    match e
    case KeyShortUp => OnKeyDown
    case KeyHoldStart => OnHoldStart
    case DialHoldStart => OnHoldStart
    case DialTurnCW => OnDialTurn(1)
    case DialTurnCCW => OnDialTurn(-1)
    case DialShortUp => OnDialDown
    case _ => Ignored
  }
}
