/** The older mute key: it toggles the first sink whose label matches the
    stored device and shows the sink's mute state. */
module Mute {
  import opened Common
  import VolumeAction

  /** The action's fields; `sinkIndex` is -1 until a sink is found. */
  datatype MuteState = MuteState(
    deviceName: Option<string>,
    showInfo: bool,
    sinkIndex: int,
    sinkName: Option<string>,
    image: Option<Image>)

  /** Result of a key press: the reaction and the image shown afterwards, None when it is left as it was. */
  datatype KeyPress = KeyPress(reaction: Reaction<PulseCall>, image: Option<Image>)

  function SinkLabel(d: Device): Option<string>
  {
    VolumeAction.FilterProplist(d.proplist)
  }

  /** Whether a sink carries the stored label. */
  predicate Matches(d: Device, device: Option<string>)
  {
    SinkLabel(d) == device
  }

  /** `on_key_down`: with no stored device, an error. Otherwise the first
      sink with that label is toggled and its new state drawn; with no such
      sink nothing happens. */
  function KeyDown(device: Option<string>, sinks: seq<Device>): (p: KeyPress)
    ensures device.None? ==> p == KeyPress(ShowError, None)
    ensures device.Some? ==> (p.reaction.Idle? <==> forall j :: 0 <= j < |sinks| ==> !Matches(sinks[j], device))
    ensures p.reaction.Idle? ==> p.image.None?
    ensures !p.reaction.Raise?
    ensures p.reaction.Issue? ==>
              exists i :: 0 <= i < |sinks| && Matches(sinks[i], device)
                          && (forall j :: 0 <= j < i ==> !Matches(sinks[j], device))
                          && p.reaction.cmd == SetMute(sinks[i].index, ToggledMute(sinks[i].mute))
                          && p.image == Some(MuteStateImage(ToggledMute(sinks[i].mute)))
  {
    if device.None? then KeyPress(ShowError, None)
    else
      match FindFirst(sinks, (s: Device) => Matches(s, device))
      case None => KeyPress(Idle, None)
      case Some(s) =>
        var state := ToggledMute(s.mute);
        KeyPress(Issue(SetMute(s.index, state)), Some(MuteStateImage(state)))
  }

  /** The image a press draws is the mute image exactly when the sink was not muted before. */
  lemma PressShowsNewState(device: string, sinks: seq<Device>)
    requires KeyDown(Some(device), sinks).reaction.Issue?
    ensures var p := KeyDown(Some(device), sinks);
            exists s :: s in sinks && Matches(s, Some(device)) && (p.image == Some(MuteImage) <==> s.mute == 0)
  {
  }

  /** The first position of a label match is the same before and after a direct call: calls never change labels. */
  lemma {:induction false} FirstMatchSurvivesCall(sinks: seq<Device>, c: PulseCall, device: Option<string>, i: int)
    requires 0 <= i < |sinks| && Matches(sinks[i], device) && forall j :: 0 <= j < i ==> !Matches(sinks[j], device)
    ensures var after := ApplyCall(sinks, c);
            Matches(after[i], device) && forall j :: 0 <= j < i ==> !Matches(after[j], device)
  {
    var after := ApplyCall(sinks, c);
    forall j | 0 <= j < |sinks|
      ensures after[j].proplist == sinks[j].proplist
    {
    }
  }

  /** The press acts on the first matching sink, whichever way that sink is found. */
  lemma PressActsOnFirstMatch(device: Option<string>, sinks: seq<Device>, i: int)
    requires device.Some?
    requires 0 <= i < |sinks| && Matches(sinks[i], device) && forall j :: 0 <= j < i ==> !Matches(sinks[j], device)
    ensures KeyDown(device, sinks).reaction == Issue(SetMute(sinks[i].index, ToggledMute(sinks[i].mute)))
  {
    var p := KeyDown(device, sinks);
    assert !p.reaction.Idle?;
    var k :| 0 <= k < |sinks| && Matches(sinks[k], device)
             && (forall j :: 0 <= j < k ==> !Matches(sinks[j], device))
             && p.reaction.cmd == SetMute(sinks[k].index, ToggledMute(sinks[k].mute));
    assert k == i;
  }

  /** Writing a device's mute flag and then writing its old flag back restores a list with unique indices. */
  lemma {:induction false} MuteWriteUndone(sinks: seq<Device>, i: int, state: int)
    requires UniqueIndices(sinks) && 0 <= i < |sinks|
    ensures ApplyCall(ApplyCall(sinks, SetMute(sinks[i].index, state)), SetMute(sinks[i].index, sinks[i].mute)) == sinks
  {
    var after := ApplyCall(sinks, SetMute(sinks[i].index, state));
    var back := ApplyCall(after, SetMute(sinks[i].index, sinks[i].mute));
    forall j | 0 <= j < |sinks|
      ensures back[j] == sinks[j]
    {
      if j != i {
        assert sinks[j].index != sinks[i].index;
      }
    }
  }

  /** Pressing twice, with the server applying each toggle, leaves the sinks as
      they were, provided indices are unique and mute flags are 0 or 1. */
  lemma {:induction false} PressTwiceRestores(device: string, sinks: seq<Device>)
    requires UniqueIndices(sinks)
    requires KeyDown(Some(device), sinks).reaction.Issue?
    requires forall j :: 0 <= j < |sinks| ==> sinks[j].mute == 0 || sinks[j].mute == 1
    ensures var c1 := KeyDown(Some(device), sinks).reaction.cmd;
            var after := ApplyCall(sinks, c1);
            KeyDown(Some(device), after).reaction.Issue?
            && ApplyCall(after, KeyDown(Some(device), after).reaction.cmd) == sinks
  {
    var dev := Some(device);
    var p1 := KeyDown(dev, sinks);
    var i :| 0 <= i < |sinks| && Matches(sinks[i], dev)
             && (forall j :: 0 <= j < i ==> !Matches(sinks[j], dev))
             && p1.reaction.cmd == SetMute(sinks[i].index, ToggledMute(sinks[i].mute));
    var after := ApplyCall(sinks, p1.reaction.cmd);
    FirstMatchSurvivesCall(sinks, p1.reaction.cmd, dev, i);
    assert after[i] == sinks[i].(mute := ToggledMute(sinks[i].mute));
    PressActsOnFirstMatch(dev, after, i);
    ToggleTwice(sinks[i].mute);
    MuteWriteUndone(sinks, i, ToggledMute(sinks[i].mute));
  }

  /** `on_sink_change`: an event about the stored sink index redraws that sink's
      mute state; any other event, or one with too few arguments, leaves the image. */
  function OnSinkChange(sinkIndex: int, eventIndex: Option<int>, sinks: seq<Device>): (img: Option<Image>)
    ensures eventIndex != Some(sinkIndex) ==> img.None?
    ensures img.Some? ==> exists s :: s in sinks && s.index == sinkIndex && img == Some(MuteStateImage(s.mute))
    ensures eventIndex == Some(sinkIndex) ==> (img.None? <==> forall j :: 0 <= j < |sinks| ==> sinks[j].index != sinkIndex)
  {
    if eventIndex != Some(sinkIndex) then None
    else
      match FindFirst(sinks, (s: Device) => s.index == sinkIndex)
      case None => None
      case Some(s) => Some(MuteStateImage(s.mute))
  }

  /** Before any sink is found the index is -1, so events about real sinks, which have non-negative indices, are ignored. */
  lemma UnboundIgnoresEvents(e: nat, sinks: seq<Device>)
    ensures OnSinkChange(-1, Some(e), sinks).None?
  {
  }

  /** Whether `i` is the position of the first sink with the stored label. */
  predicate FirstMatch(sinks: seq<Device>, device: Option<string>, i: int)
  {
    0 <= i < |sinks| && Matches(sinks[i], device) && forall j :: 0 <= j < i ==> !Matches(sinks[j], device)
  }

  /** The fields after binding to sink `s`: its index, name and mute image. */
  function BoundTo(st: MuteState, s: Device): MuteState
  {
    st.(sinkIndex := s.index, sinkName := Some(s.name), image := Some(MuteStateImage(s.mute)))
  }

  /** Adopt the first sink with the stored label: its index, name and mute image. */
  function Adopt(st: MuteState, sinks: seq<Device>): (r: MuteState)
    ensures (forall j :: 0 <= j < |sinks| ==> !Matches(sinks[j], st.deviceName)) ==> r == st
    ensures (exists j :: 0 <= j < |sinks| && Matches(sinks[j], st.deviceName)) ==>
              exists i :: FirstMatch(sinks, st.deviceName, i) && r == BoundTo(st, sinks[i])
  {
    match FindFirst(sinks, (s: Device) => Matches(s, st.deviceName))
    case None => st
    case Some(s) => BoundTo(st, s)
  }

  /** `load_initial_data`: only a non-empty stored device is looked up, and then the first sink with it is adopted. */
  function LoadInitialData(st: MuteState, sinks: seq<Device>): (r: MuteState)
    ensures !Truthy(st.deviceName) || (forall j :: 0 <= j < |sinks| ==> !Matches(sinks[j], st.deviceName)) ==> r == st
    ensures Truthy(st.deviceName) && (exists j :: 0 <= j < |sinks| && Matches(sinks[j], st.deviceName)) ==>
              exists i :: FirstMatch(sinks, st.deviceName, i) && r == BoundTo(st, sinks[i])
  {
    if Truthy(st.deviceName) then Adopt(st, sinks) else st
  }

  /** `on_ready`: read the settings, start unbound, then load. A non-empty
      stored device with a matching sink binds the first such sink; otherwise
      the action stays unbound. */
  function OnReady(device: Option<string>, showInfo: Option<bool>, sinks: seq<Device>): (r: MuteState)
    ensures r.deviceName == device && (r.showInfo <==> showInfo == Some(true))
    ensures Truthy(device) && (exists j :: 0 <= j < |sinks| && Matches(sinks[j], device)) ==>
              exists i :: FirstMatch(sinks, device, i)
                          && r.sinkIndex == sinks[i].index && r.sinkName == Some(sinks[i].name)
                          && r.image == Some(MuteStateImage(sinks[i].mute))
    ensures !Truthy(device) || (forall j :: 0 <= j < |sinks| ==> !Matches(sinks[j], device)) ==>
              r.sinkIndex == -1 && r.sinkName.None? && r.image.None?
  {
    LoadInitialData(MuteState(device, OrFalse(showInfo), -1, None, None), sinks)
  }

  /** `on_device_change`: store the picked row's label and adopt the first sink
      with it; with no such sink the binding is kept. */
  function OnDeviceChange(st: MuteState, picked: string, sinks: seq<Device>): (r: MuteState)
    ensures r.deviceName == Some(picked) && r.showInfo == st.showInfo
    ensures (forall j :: 0 <= j < |sinks| ==> !Matches(sinks[j], Some(picked))) ==>
              r == st.(deviceName := Some(picked))
    ensures (exists j :: 0 <= j < |sinks| && Matches(sinks[j], Some(picked))) ==>
              exists i :: FirstMatch(sinks, Some(picked), i) && r == BoundTo(st.(deviceName := Some(picked)), sinks[i])
  {
    Adopt(st.(deviceName := Some(picked)), sinks)
  }

  /** Once a row whose label some sink carries is picked, a key press toggles the sink that was adopted. */
  lemma PickedSinkIsPressed(st: MuteState, picked: string, sinks: seq<Device>)
    requires exists j :: 0 <= j < |sinks| && Matches(sinks[j], Some(picked))
    ensures var r := OnDeviceChange(st, picked, sinks);
            KeyDown(r.deviceName, sinks).reaction.Issue?
            && exists s :: s in sinks && Some(s.name) == r.sinkName && s.index == r.sinkIndex
                           && KeyDown(r.deviceName, sinks).reaction.cmd == SetMute(s.index, ToggledMute(s.mute))
  {
    var r := OnDeviceChange(st, picked, sinks);
    var i :| FirstMatch(sinks, Some(picked), i) && r == BoundTo(st.(deviceName := Some(picked)), sinks[i]);
    PressActsOnFirstMatch(Some(picked), sinks, i);
  }

  /** With info on, the top label names the sink `load_initial_data` adopted. */
  lemma TopLabelNamesAdoptedSink(st: MuteState, info: Option<string>, sinks: seq<Device>)
    requires st.showInfo && Truthy(st.deviceName)
    requires exists j :: 0 <= j < |sinks| && Matches(sinks[j], st.deviceName)
    ensures var r := LoadInitialData(st, sinks);
            exists s :: s in sinks && Some(s.name) == r.sinkName && SinkLabel(s) == Some(LabelTexts(r, info).0)
  {
    var r := LoadInitialData(st, sinks);
    var i :| FirstMatch(sinks, st.deviceName, i) && r == BoundTo(st, sinks[i]);
    assert sinks[i] in sinks;
  }

  /** `update_labels` inherited from the volume-action base. */
  function LabelTexts(st: MuteState, info: Option<string>): (r: (string, string))
    ensures !st.showInfo ==> r == ("", "")
    ensures st.showInfo ==> r.0 == OrEmpty(st.deviceName)
  {
    VolumeAction.UpdateLabels(st.showInfo, st.deviceName, info)
  }
}
