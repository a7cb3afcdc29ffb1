/** The per-channel volume key: a press shifts every channel of the chosen
    sink by a signed step, flooring each channel at zero. */
module VolumeAdjust {
  import opened Common

  /** `filter_proplist` of this action: the node name, unless it is missing or
      mentions "alsa"; then the product name when the key is present (even if
      empty), else the description. */
  function FilterProplist(p: Proplist): (r: Option<string>)
    ensures Get(p, "node.name").Some? && !Contains(p["node.name"], "alsa") ==> r == Some(p["node.name"])
    ensures (Get(p, "node.name").None? || Contains(p["node.name"], "alsa")) ==>
              (("device.product.name" in p ==> r == Some(p["device.product.name"]))
               && ("device.product.name" !in p ==> r == Get(p, "device.description")))
  {
    var name := Get(p, "node.name");
    if name.None? || Contains(name.value, "alsa") then
      if "device.product.name" in p then Some(p["device.product.name"]) else Get(p, "device.description")
    else name
  }

  /** The label is always one of the three consulted property values, and None only when none of them can supply one. */
  lemma LabelComesFromProperties(p: Proplist)
    ensures FilterProplist(p).Some? ==>
              FilterProplist(p) in {Get(p, "node.name"), Get(p, "device.product.name"), Get(p, "device.description")}
    ensures FilterProplist(p).None? <==>
              (Get(p, "node.name").None? || Contains(p["node.name"], "alsa"))
              && "device.product.name" !in p && "device.description" !in p
  {
  }

  /** A node name that mentions "alsa" is never the label. */
  lemma AlsaNodeNameIsSkipped(p: Proplist, name: string, i: nat)
    requires OccursAt(name, "alsa", i)
    ensures FilterProplist(p["node.name" := name]) != Some(name) || Get(p, "device.product.name") == Some(name)
            || ("device.product.name" !in p && Get(p, "device.description") == Some(name))
  {
    ContainsIffOccurs(name, "alsa");
    var q := p["node.name" := name];
    assert Get(q, "device.product.name") == Get(p, "device.product.name");
    assert Get(q, "device.description") == Get(p, "device.description");
  }

  /** `max(v + change, 0)` for one channel. */
  function FloorAtZero(x: int): (r: nat)
    ensures r >= x
    ensures x >= 0 ==> r == x
    ensures x < 0 ==> r == 0
  {
    if x < 0 then 0 else x
  }

  /** Every channel shifted by `change` and floored at zero. */
  function Floored(vs: seq<int>, change: int): (r: seq<int>)
    ensures |r| == |vs|
    ensures forall i :: 0 <= i < |vs| ==> r[i] >= 0 && r[i] >= vs[i] + change
    ensures forall i :: 0 <= i < |vs| ==> (r[i] == vs[i] + change <==> vs[i] + change >= 0)
    ensures forall i :: 0 <= i < |vs| && vs[i] + change < 0 ==> r[i] == 0
    decreases |vs|
  {
    if |vs| == 0 then []
    else
      var rest := Floored(vs[1..], change);
      assert forall i :: 1 <= i < |vs| ==> vs[i] == vs[1..][i - 1];
      [FloorAtZero(vs[0] + change)] + rest
  }

  /** Two raises in a row of channels that are not below zero are one raise by the sum. */
  lemma {:induction false} RaisesCompose(vs: seq<int>, a: nat, b: nat)
    requires forall i :: 0 <= i < |vs| ==> vs[i] >= 0
    ensures Floored(Floored(vs, a), b) == Floored(vs, a + b)
  {
    var x := Floored(Floored(vs, a), b);
    var y := Floored(vs, a + b);
    assert |x| == |y|;
    forall i | 0 <= i < |vs|
      ensures x[i] == y[i]
    {
      assert Floored(vs, a)[i] == vs[i] + a;
    }
  }

  /** The floor loses information: lowering below zero and raising back does not restore the volume. */
  lemma FloorIsNotUndone(v: int, c: int)
    requires 0 < v < c
    ensures Floored(Floored([v], -c), c) == [c]
    ensures Floored(Floored([v], -c), c) != [v]
  {
    assert Floored([v], -c) == [0];
  }

  /** Whether a sink carries the stored label. */
  predicate Matches(s: Device, device: Option<string>)
  {
    FilterProplist(s.proplist) == device
  }

  /** `on_key_down`. The step defaults to 0 only when its setting is missing; a
      missing device or a step stored as None reports an error. The first sink
      whose label equals the stored device gets every channel shifted and
      floored, and the loop stops there; with no such sink nothing happens. */
  function KeyDown(device: Option<string>, change: Entry<int>, sinks: seq<Device>): (r: Reaction<PulseCall>)
    ensures device.None? || change == Stored(None) ==> r.ShowError?
    ensures device.Some? && GetOr(change, 0).Some? ==>
              (r.Idle? <==> forall j :: 0 <= j < |sinks| ==> !Matches(sinks[j], device))
    ensures r.Issue? ==>
              exists i :: 0 <= i < |sinks| && Matches(sinks[i], device)
                          && (forall j :: 0 <= j < i ==> !Matches(sinks[j], device))
                          && r.cmd == SetChannels(sinks[i].index, Floored(sinks[i].volumes, GetOr(change, 0).value))
    ensures !r.Raise?
  {
    var c := GetOr(change, 0);
    if device.None? || c.None? then ShowError
    else
      match FindFirst(sinks, (s: Device) => Matches(s, device))
      case None => Idle
      case Some(s) => Issue(SetChannels(s.index, Floored(s.volumes, c.value)))
  }

  /** After a press on sinks with unique indices, the first sink carrying the
      label has its channels shifted and floored, and every other sink, later
      sinks with the same label included, is unchanged. */
  lemma PressFloorsFirstMatch(device: string, change: Entry<int>, sinks: seq<Device>, i: int)
    requires UniqueIndices(sinks) && GetOr(change, 0).Some?
    requires 0 <= i < |sinks| && Matches(sinks[i], Some(device))
    requires forall j :: 0 <= j < i ==> !Matches(sinks[j], Some(device))
    ensures KeyDown(Some(device), change, sinks).Issue?
    ensures var after := ApplyCall(sinks, KeyDown(Some(device), change, sinks).cmd);
            after[i] == sinks[i].(volumes := Floored(sinks[i].volumes, GetOr(change, 0).value))
            && forall j :: 0 <= j < |sinks| && j != i ==> after[j] == sinks[j]
  {
    var r := KeyDown(Some(device), change, sinks);
    var k :| 0 <= k < |sinks| && Matches(sinks[k], Some(device))
             && (forall j :: 0 <= j < k ==> !Matches(sinks[j], Some(device)))
             && r.cmd == SetChannels(sinks[k].index, Floored(sinks[k].volumes, GetOr(change, 0).value));
    assert Matches(sinks[i], Some(device));
    assert k == i;
    forall j | 0 <= j < |sinks| && j != i
      ensures ApplyToDevice(sinks[j], r.cmd) == sinks[j]
    {
      assert sinks[j].index != sinks[i].index;
    }
  }

  /** Two sinks with the same label: a press writes the first and leaves the second alone. */
  lemma SecondMatchUntouched(device: string, step: int, a: Device, b: Device)
    requires Matches(a, Some(device)) && Matches(b, Some(device)) && a.index != b.index
    ensures var after := ApplyCall([a, b], KeyDown(Some(device), Stored(Some(step)), [a, b]).cmd);
            after == [a.(volumes := Floored(a.volumes, step)), b]
  {
    PressFloorsFirstMatch(device, Stored(Some(step)), [a, b], 0);
  }

  /** A missing step setting acts as a stored step of 0. */
  lemma MissingStepIsZero(device: string, sinks: seq<Device>)
    ensures KeyDown(Some(device), Missing, sinks) == KeyDown(Some(device), Stored(Some(0)), sinks)
  {
  }

  /** The label of a sink. */
  function SinkLabel(d: Device): Option<string>
  {
    FilterProplist(d.proplist)
  }

  /** `load_device_model`: sink labels in server order, unnamed sinks skipped. */
  function DeviceModel(sinks: seq<Device>): (rows: seq<string>)
    ensures |rows| <= |sinks|
    ensures forall x :: x in rows <==> exists i :: 0 <= i < |sinks| && SinkLabel(sinks[i]) == Some(x)
  {
    Labels(sinks, SinkLabel, false)
  }

  /** A press that acts has a row of the model for its stored label. */
  lemma KeyDownTargetIsListed(device: string, change: Entry<int>, sinks: seq<Device>)
    requires KeyDown(Some(device), change, sinks).Issue?
    ensures device in DeviceModel(sinks)
  {
  }
}
