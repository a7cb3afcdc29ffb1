/** Shared vocabulary of the audio-control plugin model.

    The sound server is abstracted as lists of device records (sinks and
    sources). Every channel volume is an integer percent. Python's `None` is
    `Option.None`. An exception that a handler catches and reports becomes
    `Reaction.ShowError`. One that escapes the handler becomes `Reaction.Raise`
    or `Outcome.Raised`.
 */
module Common {

  datatype Option<+T> = None | Some(value: T)

  /** Result of a display computation that may raise out of its handler. */
  datatype Outcome<+T> = Done(value: T) | Raised

  /** What a key or dial handler does: report an error on the deck, let an
      exception escape, issue one command, or do nothing. */
  datatype Reaction<+C> = ShowError | Raise | Issue(cmd: C) | Idle

  /** A device's property bag. */
  type Proplist = map<string, string>

  /** A sink or source as the sound server lists it. `mute` is the server's
      0/1 flag; `volumes` holds one integer percent per channel, in channel order. */
  datatype Device = Device(index: int, name: string, description: string,
                           proplist: Proplist, mute: int, volumes: seq<int>)

  datatype DeviceFilter = Sink | Source

  /** A snapshot of the sound server: both device lists and the default device names. */
  datatype Server = Server(sinks: seq<Device>, sources: seq<Device>,
                           defaultSink: string, defaultSource: string)

  /** A direct call into the sound-server client library. It targets one device by its index. */
  datatype PulseCall =
    | SetChannels(target: int, volumes: seq<int>)
    | SetMute(target: int, state: int)
    | SetAllChannels(target: int, percent: int)

  /** Images an action can show. */
  datatype Image = MuteImage | AudioImage | VolUpImage | VolDownImage

  /** A settings entry: missing, stored as None, or stored with a value. */
  datatype Entry<+T> = Missing | Stored(stored: Option<T>)

  /** `settings.get(key, default)`: the default only replaces a missing entry, not a stored None. */
  function GetOr<T>(e: Entry<T>, default: T): (r: Option<T>)
    ensures e.Missing? ==> r == Some(default)
    ensures e.Stored? ==> r == e.stored
  {
    match e
    case Missing => Some(default)
    case Stored(v) => v
  }

  /** `x or ""` for an optional string. */
  function OrEmpty(o: Option<string>): string
  {
    match o
    case Some(s) => s
    case None => ""
  }

  /** `proplist.get(key)`. */
  function Get(p: Proplist, key: string): Option<string>
  {
    if key in p then Some(p[key]) else None
  }

  /** Python truthiness of an optional string: present and non-empty. */
  predicate Truthy(o: Option<string>)
  {
    o.Some? && o.value != ""
  }

  /** `x or False` for an optional setting flag. */
  function OrFalse(o: Option<bool>): (b: bool)
    ensures b <==> o == Some(true)
  {
    match o
    case Some(v) => v
    case None => false
  }

  //
  // Substring search (Python `sub in s`)
  //

  predicate IsPrefix(pre: string, s: string)
  {
    |pre| <= |s| && s[..|pre|] == pre
  }

  /** `sub in s`, scanning start positions left to right. */
  predicate Contains(s: string, sub: string)
    decreases |s|
  {
    IsPrefix(sub, s) || (|s| > 0 && Contains(s[1..], sub))
  }

  ghost predicate OccursAt(s: string, sub: string, i: int)
  {
    0 <= i && i + |sub| <= |s| && s[i..i + |sub|] == sub
  }

  /** The scan finds `sub` exactly when it occurs at some position of `s`. */
  lemma {:induction false} ContainsIffOccurs(s: string, sub: string)
    ensures Contains(s, sub) <==> exists i :: OccursAt(s, sub, i)
    decreases |s|
  {
    if |s| > 0 {
      ContainsIffOccurs(s[1..], sub);
    }
    if Contains(s, sub) {
      if IsPrefix(sub, s) {
        assert OccursAt(s, sub, 0);
      } else {
        var j :| OccursAt(s[1..], sub, j);
        assert s[1..][j..j + |sub|] == s[j + 1..j + 1 + |sub|];
        assert OccursAt(s, sub, j + 1);
      }
    }
    if exists i :: OccursAt(s, sub, i) {
      var i :| OccursAt(s, sub, i);
      if i == 0 {
        assert s[..|sub|] == s[0..|sub|];
        assert IsPrefix(sub, s);
      } else {
        assert s[1..][i - 1..i - 1 + |sub|] == s[i..i + |sub|];
        assert OccursAt(s[1..], sub, i - 1);
      }
    }
  }

  /** A monitor is a virtual source mirroring a sink; the device lists skip it. */
  predicate IsMonitor(d: Device)
  {
    Contains(d.description, "Monitor")
  }

  //
  // Decimal rendering (Python `str(int)`) and its inverse
  //

  predicate IsDigit(c: char)
  {
    '0' <= c <= '9'
  }

  predicate IsNumeral(s: string)
  {
    |s| > 0 && forall i :: 0 <= i < |s| ==> IsDigit(s[i])
  }

  function DigitChar(d: nat): (c: char)
    requires d < 10
    ensures IsDigit(c) && c as int - '0' as int == d
  {
    ('0' as int + d) as char
  }

  /** Decimal digits of `n`, most significant first, with no leading zero. */
  function NatToString(n: nat): (s: string)
    ensures IsNumeral(s)
    ensures s[0] == '0' ==> s == "0"
    decreases n
  {
    if n < 10 then [DigitChar(n)] else NatToString(n / 10) + [DigitChar(n % 10)]
  }

  /** Python `str(i)` for an integer. */
  function IntToString(i: int): string
  {
    if i < 0 then "-" + NatToString(-i) else NatToString(i)
  }

  function DigitValue(c: char): nat
    requires IsDigit(c)
  {
    c as int - '0' as int
  }

  function DigitsValue(s: string): nat
    requires forall i :: 0 <= i < |s| ==> IsDigit(s[i])
  {
    if |s| == 0 then 0 else 10 * DigitsValue(s[..|s| - 1]) + DigitValue(s[|s| - 1])
  }

  /** Reads back an optionally signed decimal numeral; None for anything else. */
  function ParseInt(s: string): Option<int>
  {
    if |s| > 0 && s[0] == '-' then
      if IsNumeral(s[1..]) then Some(0 - DigitsValue(s[1..]) as int) else None
    else if IsNumeral(s) then Some(DigitsValue(s)) else None
  }

  lemma {:induction false} NatToStringRoundTrip(n: nat)
    ensures DigitsValue(NatToString(n)) == n
    decreases n
  {
    if n >= 10 {
      var p := NatToString(n / 10);
      var s := p + [DigitChar(n % 10)];
      assert s[..|s| - 1] == p;
      NatToStringRoundTrip(n / 10);
    }
  }

  /** Rendering an integer and reading it back gives the integer. */
  lemma IntToStringRoundTrip(i: int)
    ensures ParseInt(IntToString(i)) == Some(i)
  {
    if i < 0 {
      var s := IntToString(i);
      assert s[1..] == NatToString(-i);
      NatToStringRoundTrip(-i);
    } else {
      NatToStringRoundTrip(i);
    }
  }

  //
  // Searches over device lists
  //

  /** Position of the first element satisfying `p` (a `for … break` loop). */
  function FirstWhere<T>(s: seq<T>, p: T -> bool): (r: Option<nat>)
    ensures r.Some? ==> r.value < |s| && p(s[r.value]) && forall j :: 0 <= j < r.value ==> !p(s[j])
    ensures r.None? <==> forall j :: 0 <= j < |s| ==> !p(s[j])
    decreases |s|
  {
    if |s| == 0 then None
    else if p(s[0]) then Some(0)
    else
      match FirstWhere(s[1..], p)
      case None => None
      case Some(k) => Some(k + 1)
  }

  /** The first element satisfying `p`, if any. */
  function FindFirst<T>(s: seq<T>, p: T -> bool): (r: Option<T>)
    ensures r.None? <==> forall j :: 0 <= j < |s| ==> !p(s[j])
    ensures r.Some? ==> exists i :: 0 <= i < |s| && s[i] == r.value && p(s[i]) && forall j :: 0 <= j < i ==> !p(s[j])
  {
    match FirstWhere(s, p)
    case None => None
    case Some(i) => Some(s[i])
  }

  /** A loop without `break` that overwrites `current` on every match: the
      last match wins, and `current` survives when nothing matches. */
  function FindLast<T>(s: seq<T>, p: T -> bool, current: Option<T>): (r: Option<T>)
    ensures (forall j :: 0 <= j < |s| ==> !p(s[j])) ==> r == current
    ensures (exists i :: 0 <= i < |s| && p(s[i])) ==>
              r.Some? && exists i :: 0 <= i < |s| && s[i] == r.value && p(s[i]) && forall j :: i < j < |s| ==> !p(s[j])
    decreases |s|
  {
    if |s| == 0 then current
    else FindLast(s[1..], p, if p(s[0]) then Some(s[0]) else current)
  }

  /** Scanning one more element: the new last match replaces the old result, or the old result stays. */
  lemma {:induction false} FindLastAppend<T>(s: seq<T>, x: T, p: T -> bool, current: Option<T>)
    ensures FindLast(s + [x], p, current) == if p(x) then Some(x) else FindLast(s, p, current)
    decreases |s|
  {
    if |s| == 0 {
      assert (s + [x])[1..] == [];
    } else {
      assert (s + [x])[1..] == s[1..] + [x];
      FindLastAppend(s[1..], x, p, if p(s[0]) then Some(s[0]) else current);
    }
  }

  /** The combo-box row a config loader activates for a stored label: -1 for
      no stored label, the first equal row otherwise, and None (selection left
      as it was) when no row is equal. */
  function ComboSelection(rows: seq<string>, name: Option<string>): (r: Option<int>)
    ensures name.None? <==> r == Some(-1)
    ensures name.Some? && r.Some? ==> 0 <= r.value < |rows| && rows[r.value] == name.value
                                      && forall j :: 0 <= j < r.value ==> rows[j] != name.value
    ensures name.Some? ==> (r.None? <==> forall j :: 0 <= j < |rows| ==> rows[j] != name.value)
  {
    match name
    case None => Some(-1)
    case Some(n) =>
      match FirstWhere(rows, (x: string) => x == n)
      case None => None
      case Some(i) => Some(i as int)
  }

  /** Whether a device is listed in a dropdown that may skip monitors. */
  predicate Listed(d: Device, skipMonitor: bool)
  {
    !skipMonitor || !IsMonitor(d)
  }

  /** The labels a device dropdown shows: devices in server order, monitors
      skipped when asked, devices whose label is None dropped. */
  function Labels(ds: seq<Device>, labelOf: Device -> Option<string>, skipMonitor: bool): (r: seq<string>)
    ensures |r| <= |ds|
    ensures forall x :: x in r <==> exists i :: 0 <= i < |ds| && Listed(ds[i], skipMonitor) && labelOf(ds[i]) == Some(x)
    decreases |ds|
  {
    if |ds| == 0 then []
    else
      var rest := Labels(ds[1..], labelOf, skipMonitor);
      assert forall x :: (exists i :: 0 <= i < |ds[1..]| && Listed(ds[1..][i], skipMonitor) && labelOf(ds[1..][i]) == Some(x))
                         ==> (exists i :: 0 <= i < |ds| && Listed(ds[i], skipMonitor) && labelOf(ds[i]) == Some(x)) by {
        forall x | exists i :: 0 <= i < |ds[1..]| && Listed(ds[1..][i], skipMonitor) && labelOf(ds[1..][i]) == Some(x)
          ensures exists i :: 0 <= i < |ds| && Listed(ds[i], skipMonitor) && labelOf(ds[i]) == Some(x)
        {
          var i :| 0 <= i < |ds[1..]| && Listed(ds[1..][i], skipMonitor) && labelOf(ds[1..][i]) == Some(x);
          assert ds[1..][i] == ds[i + 1];
        }
      }
      assert forall i :: 1 <= i < |ds| ==> ds[i] == ds[1..][i - 1];
      if Listed(ds[0], skipMonitor) && labelOf(ds[0]).Some? then [labelOf(ds[0]).value] + rest else rest
  }

  /** The dropdown of a concatenated list is the concatenation of the dropdowns: server order is kept. */
  lemma {:induction false} LabelsAppend(a: seq<Device>, b: seq<Device>, labelOf: Device -> Option<string>, skipMonitor: bool)
    ensures Labels(a + b, labelOf, skipMonitor) == Labels(a, labelOf, skipMonitor) + Labels(b, labelOf, skipMonitor)
    decreases |a|
  {
    if |a| > 0 {
      assert (a + b)[1..] == a[1..] + b;
      assert (a + b)[0] == a[0];
      LabelsAppend(a[1..], b, labelOf, skipMonitor);
    } else {
      assert a + b == b;
    }
  }

  /** A loop that keeps overwriting with each labelled device ends on the device behind the dropdown's last row. */
  lemma {:induction false} LastLabelledIsLastRow(ds: seq<Device>, labelOf: Device -> Option<string>,
                                                 labelled: Device -> bool, current: Option<Device>)
    requires forall d :: labelled(d) == labelOf(d).Some?
    requires |Labels(ds, labelOf, false)| > 0
    ensures var rows := Labels(ds, labelOf, false);
            var kept := FindLast(ds, labelled, current);
            kept.Some? && labelOf(kept.value) == Some(rows[|rows| - 1])
    decreases |ds|
  {
    var rows := Labels(ds, labelOf, false);
    var last := ds[|ds| - 1];
    var init := ds[..|ds| - 1];
    assert init + [last] == ds;
    var front := Labels(init, labelOf, false);
    LabelsAppend(init, [last], labelOf, false);
    LabelsSingleton(last, labelOf, false);
    FindLastAppend(init, last, labelled, current);
    if labelled(last) {
      assert rows == front + [labelOf(last).value];
      assert rows[|rows| - 1] == labelOf(last).value;
    } else {
      assert rows == front;
      LastLabelledIsLastRow(init, labelOf, labelled, current);
    }
  }

  /** Every device's label, as a one-element list, shows up in the dropdown exactly when it is listed and named. */
  lemma LabelsSingleton(d: Device, labelOf: Device -> Option<string>, skipMonitor: bool)
    ensures Labels([d], labelOf, skipMonitor) == if Listed(d, skipMonitor) && labelOf(d).Some? then [labelOf(d).value] else []
  {
    assert [d][1..] == [];
  }

  //
  // Device lookups on the sound server
  //

  function DeviceList(server: Server, filter: DeviceFilter): seq<Device>
  {
    match filter
    case Sink => server.sinks
    case Source => server.sources
  }

  /** `get_sink_by_name` / `get_source_by_name`: the device with that name.
      A missing device or a None name makes the library raise; the callers
      turn that into None. */
  function DeviceByName(ds: seq<Device>, name: Option<string>): (r: Option<Device>)
    ensures r.None? <==> name.None? || forall j :: 0 <= j < |ds| ==> ds[j].name != name.value
    ensures r.Some? ==> r.value in ds && r.value.name == name.value
  {
    match name
    case None => None
    case Some(n) => FindFirst(ds, (d: Device) => d.name == n)
  }

  /** What the sound server does with a direct call: the device with the
      target index takes the new channels or mute flag, and every other device is untouched. */
  function ApplyToDevice(d: Device, c: PulseCall): Device
  {
    if d.index != c.target then d
    else
      match c
      case SetChannels(_, vs) => d.(volumes := vs)
      case SetMute(_, state) => d.(mute := state)
      case SetAllChannels(_, p) => d.(volumes := seq(|d.volumes|, _ => p))
  }

  /** A direct call applied to a whole device list. */
  function ApplyCall(ds: seq<Device>, c: PulseCall): (r: seq<Device>)
    ensures |r| == |ds|
    ensures forall i :: 0 <= i < |ds| ==> r[i] == ApplyToDevice(ds[i], c)
  {
    seq(|ds|, i requires 0 <= i < |ds| => ApplyToDevice(ds[i], c))
  }

  /** Whether no two devices of a list share an index. */
  predicate UniqueIndices(ds: seq<Device>)
  {
    forall a, b :: 0 <= a < |ds| && 0 <= b < |ds| && ds[a].index == ds[b].index ==> a == b
  }

  /** The new mute state a toggle writes: 1 when the device is unmuted (0), otherwise 0. */
  function ToggledMute(current: int): (state: int)
    ensures state == 0 || state == 1
    ensures state == 1 <==> current == 0
  {
    if current == 0 then 1 else 0
  }

  /** Toggling twice restores a 0/1 mute flag. */
  lemma ToggleTwice(m: int)
    requires m == 0 || m == 1
    ensures ToggledMute(ToggledMute(m)) == m
  {
  }

  /** `set_image(mute_state)` of the mute actions: the mute image exactly for state 1. */
  function MuteStateImage(state: int): (img: Image)
    ensures img == MuteImage <==> state == 1
    ensures img == MuteImage || img == AudioImage
  {
    if state == 1 then MuteImage else AudioImage
  }
}
