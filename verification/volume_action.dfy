/** The older base of the volume actions: a name fallback chain over a
    device's properties, and the two labels. */
module VolumeAction {
  import opened Common

  /** Properties consulted, in order, for an ALSA device's name. */
  const AlsaKeys: seq<string> := ["device.product.name", "device.nick", "device.description"]

  /** Whether a property holds a non-empty value. */
  predicate Filled(p: Proplist, key: string)
  {
    Truthy(Get(p, key))
  }

  /** `filter_alsa`: the first non-empty of product name, nick and description; None when all are empty or missing. */
  function FilterAlsa(p: Proplist): (r: Option<string>)
    ensures r.None? <==> forall k :: k in AlsaKeys ==> !Filled(p, k)
    ensures r.Some? ==> exists i :: 0 <= i < |AlsaKeys| && Filled(p, AlsaKeys[i]) && r.value == p[AlsaKeys[i]]
                                    && forall j :: 0 <= j < i ==> !Filled(p, AlsaKeys[j])
    ensures r.Some? ==> r.value != ""
  {
    if Filled(p, AlsaKeys[0]) then Some(p[AlsaKeys[0]])
    else if Filled(p, AlsaKeys[1]) then Some(p[AlsaKeys[1]])
    else if Filled(p, AlsaKeys[2]) then Some(p[AlsaKeys[2]])
    else None
  }

  /** `filter_proplist`: a non-ALSA device goes by its node name when that is
      non-empty; ALSA devices, and nodes without a name, fall back to `filter_alsa`. */
  function FilterProplist(p: Proplist): (r: Option<string>)
    ensures !Filled(p, "alsa.card") && Filled(p, "node.name") ==> r == Some(p["node.name"])
    ensures Filled(p, "alsa.card") || !Filled(p, "node.name") ==> r == FilterAlsa(p)
  {
    if !Filled(p, "alsa.card") then
      var nodeName := Get(p, "node.name");
      if !Truthy(nodeName) then FilterAlsa(p) else nodeName
    else FilterAlsa(p)
  }

  /** The name is never empty: an empty value anywhere in the chain counts as missing. */
  lemma NameNeverEmpty(p: Proplist)
    ensures FilterProplist(p) != Some("")
  {
  }

  /** For an ALSA device the node name plays no part. */
  lemma {:induction false} AlsaIgnoresNodeName(p: Proplist, nodeName: string)
    requires Filled(p, "alsa.card")
    ensures FilterProplist(p["node.name" := nodeName]) == FilterProplist(p)
  {
    var q := p["node.name" := nodeName];
    assert Get(q, "alsa.card") == Get(p, "alsa.card");
    forall k | k in AlsaKeys
      ensures Get(q, k) == Get(p, k)
    {
    }
  }

  /** `load_device_model` of the sink actions: labelled sinks in server order, unnamed sinks skipped. */
  function DeviceModel(sinks: seq<Device>): (rows: seq<string>)
    ensures |rows| <= |sinks|
    ensures forall x :: x in rows <==> exists i :: 0 <= i < |sinks| && FilterProplist(sinks[i].proplist) == Some(x)
  {
    Labels(sinks, (d: Device) => FilterProplist(d.proplist), false)
  }

  /** `update_labels`: with info on, the device name and the info text, a missing one shown as ""; with info off, both empty. */
  function UpdateLabels(showInfo: bool, deviceName: Option<string>, info: Option<string>): (r: (string, string))
    ensures !showInfo ==> r == ("", "")
    ensures showInfo && deviceName.Some? ==> r.0 == deviceName.value
    ensures showInfo && info.Some? ==> r.1 == info.value
    ensures showInfo ==> (r.0 == "" <==> !Truthy(deviceName)) && (r.1 == "" <==> !Truthy(info))
  {
    if showInfo then (OrEmpty(deviceName), OrEmpty(info)) else ("", "")
  }
}
