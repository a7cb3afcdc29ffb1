/** The volume display key: it remembers one sink and writes its first
    channel, in percent, to the bottom label on every tick. Labels come from
    the per-channel action's property rule. */
module VolumeDisplay {
  import opened Common
  import VolumeAdjust

  function SinkLabel(d: Device): Option<string>
  {
    VolumeAdjust.FilterProplist(d.proplist)
  }

  predicate Labelled(d: Device)
  {
    SinkLabel(d).Some?
  }

  /** `set_sink`: the first sink whose label equals the name, else the sink
      kept so far. A None name matches a sink without a label. */
  function SetSink(current: Option<Device>, name: Option<string>, sinks: seq<Device>): (r: Option<Device>)
    ensures (forall j :: 0 <= j < |sinks| ==> SinkLabel(sinks[j]) != name) ==> r == current
    ensures (exists j :: 0 <= j < |sinks| && SinkLabel(sinks[j]) == name) ==>
              exists i :: 0 <= i < |sinks| && r == Some(sinks[i]) && SinkLabel(sinks[i]) == name
                          && forall j :: 0 <= j < i ==> SinkLabel(sinks[j]) != name
  {
    match FindFirst(sinks, (s: Device) => SinkLabel(s) == name)
    case None => current
    case Some(s) => Some(s)
  }

  /** `on_ready`: start with no sink and keep the first sink carrying the stored device's label. */
  function OnReady(device: Option<string>, sinks: seq<Device>): (r: Option<Device>)
    ensures r.Some? <==> exists j :: 0 <= j < |sinks| && SinkLabel(sinks[j]) == device
    ensures r.Some? ==> r.value in sinks && SinkLabel(r.value) == device
    ensures r.Some? ==> exists i :: 0 <= i < |sinks| && r.value == sinks[i] && SinkLabel(sinks[i]) == device
                                    && forall j :: 0 <= j < i ==> SinkLabel(sinks[j]) != device
  {
    SetSink(None, device, sinks)
  }

  /** Looking the same name up twice keeps the first answer. */
  lemma SetSinkIdempotent(current: Option<Device>, name: Option<string>, sinks: seq<Device>)
    ensures SetSink(SetSink(current, name, sinks), name, sinks) == SetSink(current, name, sinks)
  {
  }

  /** `load_device_model`: the labelled sinks' names in server order, and the
      kept sink overwritten by each labelled sink in turn, so the last one wins. */
  function LoadDeviceModel(current: Option<Device>, sinks: seq<Device>): (r: (seq<string>, Option<Device>))
    ensures forall x :: x in r.0 <==> exists i :: 0 <= i < |sinks| && SinkLabel(sinks[i]) == Some(x)
    ensures (forall j :: 0 <= j < |sinks| ==> SinkLabel(sinks[j]).None?) ==> r.1 == current
    ensures (exists j :: 0 <= j < |sinks| && SinkLabel(sinks[j]).Some?) ==>
              exists i :: 0 <= i < |sinks| && r.1 == Some(sinks[i]) && SinkLabel(sinks[i]).Some?
                          && forall j :: i < j < |sinks| ==> SinkLabel(sinks[j]).None?
  {
    (Labels(sinks, SinkLabel, false), FindLast(sinks, Labelled, current))
  }

  /** The sink the model loader keeps is the one behind the last row. */
  lemma LoadedSinkIsLastRow(current: Option<Device>, sinks: seq<Device>)
    requires |Labels(sinks, SinkLabel, false)| > 0
    ensures var rows := Labels(sinks, SinkLabel, false);
            var sink := FindLast(sinks, Labelled, current);
            sink.Some? && SinkLabel(sink.value) == Some(rows[|rows| - 1])
  {
    LastLabelledIsLastRow(sinks, SinkLabel, Labelled, current);
  }

  /** `on_tick`: None leaves the label alone; a sink without channels raises;
      otherwise the first channel and a percent sign. */
  function TickLabel(sink: Option<Device>): (r: Outcome<Option<string>>)
    ensures sink.None? ==> r == Done(None)
    ensures sink.Some? ==> (r.Raised? <==> |sink.value.volumes| == 0)
    ensures r.Done? && r.value.Some? ==>
              var t := r.value.value;
              |t| > 0 && t[|t| - 1] == '%' && ParseInt(t[..|t| - 1]) == Some(sink.value.volumes[0])
  {
    match sink
    case None => Done(None)
    case Some(s) =>
      if |s.volumes| == 0 then Raised
      else
        var t := IntToString(s.volumes[0]) + "%";
        assert t[..|t| - 1] == IntToString(s.volumes[0]);
        IntToStringRoundTrip(s.volumes[0]);
        Done(Some(t))
  }
}
