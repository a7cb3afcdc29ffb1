/** The older set-volume key: a press sets every channel of the bound sink to
    one stored percentage. The sink is bound by label in two places that
    disagree on which match wins. */
module SetVolume {
  import opened Common
  import VolumeAction

  /** The action's fields. `showInfo` is the raw setting, which may be None. */
  datatype SetState = SetState(
    deviceName: Option<string>,
    showInfo: Option<bool>,
    volumeChange: Option<int>,
    sinkName: Option<string>,
    info: string)

  function SinkLabel(d: Device): Option<string>
  {
    VolumeAction.FilterProplist(d.proplist)
  }

  predicate Matches(d: Device, name: Option<string>)
  {
    SinkLabel(d) == name
  }

  /** `on_key_down`: an error without a stored device or percentage; a bound
      sink that cannot be found by name raises; otherwise every channel of it is set. */
  function KeyDown(st: SetState, sinks: seq<Device>): (r: Reaction<PulseCall>)
    ensures st.deviceName.None? || st.volumeChange.None? ==> r.ShowError?
    ensures st.deviceName.Some? && st.volumeChange.Some? ==>
              match DeviceByName(sinks, st.sinkName)
              case None => r.Raise?
              case Some(d) => r == Issue(SetAllChannels(d.index, st.volumeChange.value))
  {
    if st.deviceName.None? || st.volumeChange.None? then ShowError
    else
      match DeviceByName(sinks, st.sinkName)
      case None => Raise
      case Some(d) => Issue(SetAllChannels(d.index, st.volumeChange.value))
  }

  /** After a press every channel of the target sink holds the stored
      percentage, its channel count is kept, and no other sink changes. */
  lemma PressSetsAllChannels(st: SetState, sinks: seq<Device>)
    requires KeyDown(st, sinks).Issue?
    ensures var c := KeyDown(st, sinks).cmd;
            var after := ApplyCall(sinks, c);
            forall j :: 0 <= j < |sinks| ==>
              if sinks[j].index == c.target then
                |after[j].volumes| == |sinks[j].volumes|
                && forall k :: 0 <= k < |after[j].volumes| ==> after[j].volumes[k] == st.volumeChange.value
              else after[j] == sinks[j]
  {
  }

  /** `str(int(volume_change or 0) or "0")`: "0" for a missing or zero percentage, else the percentage. */
  function InfoText(volumeChange: Option<int>): (t: string)
    ensures volumeChange.None? ==> t == "0"
    ensures volumeChange.Some? ==> ParseInt(t) == Some(volumeChange.value)
  {
    var v := if volumeChange.Some? then volumeChange.value else 0;
    IntToStringRoundTrip(v);
    if v == 0 then "0" else IntToString(v)
  }

  /** `on_device_change`: store the picked label; the FIRST sink with that label supplies the name (the loop breaks). */
  function OnDeviceChange(st: SetState, picked: string, sinks: seq<Device>): (r: SetState)
    ensures r.deviceName == Some(picked)
    ensures r.(deviceName := st.deviceName, sinkName := st.sinkName) == st
    ensures (forall j :: 0 <= j < |sinks| ==> !Matches(sinks[j], Some(picked))) ==> r.sinkName == st.sinkName
    ensures (exists j :: 0 <= j < |sinks| && Matches(sinks[j], Some(picked))) ==>
              exists i :: 0 <= i < |sinks| && Matches(sinks[i], Some(picked)) && r.sinkName == Some(sinks[i].name)
                          && forall j :: 0 <= j < i ==> !Matches(sinks[j], Some(picked))
  {
    match FindFirst(sinks, (d: Device) => Matches(d, Some(picked)))
    case None => st.(deviceName := Some(picked))
    case Some(d) => st.(deviceName := Some(picked), sinkName := Some(d.name))
  }

  /** `load_initial_data`: a non-empty stored label is looked up with no
      break, so the LAST matching sink supplies the name; the info text is refreshed. */
  function LoadInitialData(st: SetState, sinks: seq<Device>): (r: SetState)
    ensures r.info == InfoText(st.volumeChange)
    ensures r.deviceName == st.deviceName && r.volumeChange == st.volumeChange && r.showInfo == st.showInfo
    ensures !Truthy(st.deviceName) || (forall j :: 0 <= j < |sinks| ==> !Matches(sinks[j], st.deviceName)) ==>
              r.sinkName == st.sinkName
    ensures Truthy(st.deviceName) && (exists j :: 0 <= j < |sinks| && Matches(sinks[j], st.deviceName)) ==>
              exists i :: 0 <= i < |sinks| && Matches(sinks[i], st.deviceName) && r.sinkName == Some(sinks[i].name)
                          && forall j :: i < j < |sinks| ==> !Matches(sinks[j], st.deviceName)
  {
    var sinkName :=
      if Truthy(st.deviceName) then
        match FindLast(sinks, (d: Device) => Matches(d, st.deviceName), None)
        case None => st.sinkName
        case Some(d) => Some(d.name)
      else st.sinkName;
    st.(sinkName := sinkName, info := InfoText(st.volumeChange))
  }

  /** `on_ready`: read the settings, start unbound, then load. A non-empty
      stored label binds the LAST sink carrying it; otherwise the action stays
      unbound. */
  function OnReady(device: Option<string>, showInfo: Option<bool>, volumeChange: Option<int>, sinks: seq<Device>): (r: SetState)
    ensures r.deviceName == device && r.showInfo == showInfo && r.volumeChange == volumeChange
    ensures r.info == InfoText(volumeChange)
    ensures !Truthy(device) || (forall j :: 0 <= j < |sinks| ==> !Matches(sinks[j], device)) ==> r.sinkName.None?
    ensures Truthy(device) && (exists j :: 0 <= j < |sinks| && Matches(sinks[j], device)) ==>
              exists i :: 0 <= i < |sinks| && Matches(sinks[i], device) && r.sinkName == Some(sinks[i].name)
                          && forall j :: i < j < |sinks| ==> !Matches(sinks[j], device)
  {
    LoadInitialData(SetState(device, showInfo, volumeChange, None, ""), sinks)
  }

  /** Two sinks with the same label: picking the label binds the first, while
      reloading the same settings binds the second. */
  lemma FirstAndLastMatchDisagree(st: SetState, name: string, a: Device, b: Device)
    requires name != "" && SinkLabel(a) == Some(name) && SinkLabel(b) == Some(name) && a.name != b.name
    ensures var picked := OnDeviceChange(st, name, [a, b]);
            picked.sinkName == Some(a.name)
            && LoadInitialData(picked, [a, b]).sinkName == Some(b.name)
  {
    var picked := OnDeviceChange(st, name, [a, b]);
    var i :| 0 <= i < 2 && Matches([a, b][i], Some(name)) && picked.sinkName == Some([a, b][i].name)
             && forall j :: 0 <= j < i ==> !Matches([a, b][j], Some(name));
    assert Matches([a, b][0], Some(name));
    assert i == 0;
    var loaded := LoadInitialData(picked, [a, b]);
    var k :| 0 <= k < 2 && Matches([a, b][k], Some(name)) && loaded.sinkName == Some([a, b][k].name)
             && forall j :: k < j < 2 ==> !Matches([a, b][j], Some(name));
    assert Matches([a, b][1], Some(name));
    assert k == 1;
  }

  /** With exactly one matching sink, picking and reloading bind the same sink. */
  lemma UniqueMatchAgrees(st: SetState, picked: string, sinks: seq<Device>, i: int)
    requires picked != "" && 0 <= i < |sinks| && Matches(sinks[i], Some(picked))
    requires forall j :: 0 <= j < |sinks| && j != i ==> !Matches(sinks[j], Some(picked))
    ensures var r := OnDeviceChange(st, picked, sinks);
            r.sinkName == Some(sinks[i].name) && LoadInitialData(r, sinks).sinkName == Some(sinks[i].name)
  {
  }

  /** `load_config_settings`: the row to activate for the stored label. */
  function Selection(st: SetState, rows: seq<string>): (r: Option<int>)
    ensures st.deviceName.None? ==> r == Some(-1)
    ensures st.deviceName.Some? && r.Some? ==> 0 <= r.value < |rows| && rows[r.value] == st.deviceName.value
                                               && forall j :: 0 <= j < r.value ==> rows[j] != st.deviceName.value
    ensures st.deviceName.Some? ==> (r.None? <==> forall j :: 0 <= j < |rows| ==> rows[j] != st.deviceName.value)
  {
    ComboSelection(rows, st.deviceName)
  }

  /** The selection for a stored label that came from the model points at a row carrying it. */
  lemma ModelLabelIsSelected(st: SetState, sinks: seq<Device>)
    requires st.deviceName.Some? && st.deviceName.value in VolumeAction.DeviceModel(sinks)
    ensures var r := Selection(st, VolumeAction.DeviceModel(sinks));
            r.Some? && VolumeAction.DeviceModel(sinks)[r.value] == st.deviceName.value
  {
  }
}
