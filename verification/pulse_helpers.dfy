/** The audio helpers shared by every action: device-label scoring, the
    control-script commands for volume changes and mute, and device and
    volume lookups on the sound server. */
module PulseHelpers {
  import opened Common

  //
  // Device-label scoring (`filter_proplist`)
  //

  /** Property keys tried for a label, in priority order. */
  const LabelKeys: seq<string> := [
    "alsa.card_name",
    "alsa.long_card_name",
    "node.name",
    "node.nick",
    "device.name",
    "device.nick",
    "device.description",
    "device.serial"
  ]

  /** Penalty per occurrence of each punctuation character. */
  const PunctuationWeights: seq<(char, int)> := [('.', -50), ('_', -10), (':', -25), (';', -100), ('-', -5)]

  /** Penalty per character of length. */
  const LengthWeight: int := -5

  /** Shortest value that can become a label. */
  const MinLabelLength: nat := 3

  /** `s.count(c)` for a single character. */
  function Count(s: string, c: char): nat
  {
    if |s| == 0 then 0 else (if s[0] == c then 1 else 0) + Count(s[1..], c)
  }

  function WeightedCounts(s: string, ws: seq<(char, int)>): int
  {
    if |ws| == 0 then 0 else Count(s, ws[0].0) * ws[0].1 + WeightedCounts(s, ws[1..])
  }

  /** The score the heuristic gives a candidate value: higher is more readable. */
  function Score(s: string): int
  {
    WeightedCounts(s, PunctuationWeights) + |s| * LengthWeight
  }

  /** Independent reading of the score: every character costs the length
      weight plus its own punctuation weight. */
  function CharCost(c: char): int
  {
    LengthWeight + match c
                   case '.' => -50
                   case '_' => -10
                   case ':' => -25
                   case ';' => -100
                   case '-' => -5
                   case _ => 0
  }

  function CostSum(s: string): int
  {
    if |s| == 0 then 0 else CharCost(s[0]) + CostSum(s[1..])
  }

  /** Sum of the weights of the table rows whose character is `c`. */
  function RowWeight(c: char, ws: seq<(char, int)>): int
  {
    if |ws| == 0 then 0 else (if ws[0].0 == c then ws[0].1 else 0) + RowWeight(c, ws[1..])
  }

  lemma {:induction false} WeightedCountsCons(c: char, t: string, ws: seq<(char, int)>)
    ensures WeightedCounts([c] + t, ws) == WeightedCounts(t, ws) + RowWeight(c, ws)
    decreases |ws|
  {
    if |ws| > 0 {
      var k := ws[0].0;
      var w := ws[0].1;
      var b := if c == k then 1 else 0;
      assert ([c] + t)[1..] == t;
      assert Count([c] + t, k) == b + Count(t, k);
      assert (b + Count(t, k)) * w == b * w + Count(t, k) * w;
      WeightedCountsCons(c, t, ws[1..]);
    }
  }

  lemma PunctuationRowWeight(c: char)
    ensures RowWeight(c, PunctuationWeights) == CharCost(c) - LengthWeight
  {
    var t4: seq<(char, int)> := [('-', -5)];
    var t3: seq<(char, int)> := [(';', -100)] + t4;
    var t2: seq<(char, int)> := [(':', -25)] + t3;
    var t1: seq<(char, int)> := [('_', -10)] + t2;
    assert PunctuationWeights == [('.', -50)] + t1;
    assert t4[1..] == [] && t3[1..] == t4 && t2[1..] == t3 && t1[1..] == t2;
    assert RowWeight(c, t4) == (if c == '-' then -5 else 0);
    assert RowWeight(c, t3) == (if c == ';' then -100 else 0) + RowWeight(c, t4);
    assert RowWeight(c, t2) == (if c == ':' then -25 else 0) + RowWeight(c, t3);
    assert RowWeight(c, t1) == (if c == '_' then -10 else 0) + RowWeight(c, t2);
  }

  /** The table-driven score equals the per-character cost sum. */
  lemma {:induction false} ScoreIsCostSum(s: string)
    ensures Score(s) == CostSum(s)
    decreases |s|
  {
    if |s| > 0 {
      assert s == [s[0]] + s[1..];
      WeightedCountsCons(s[0], s[1..], PunctuationWeights);
      PunctuationRowWeight(s[0]);
      ScoreIsCostSum(s[1..]);
    } else {
      assert WeightedCounts(s, PunctuationWeights[1..][1..][1..][1..]) == Count(s, '-') * -5 + WeightedCounts(s, []);
    }
  }

  lemma {:induction false} CostSumAppend(s: string, t: string)
    ensures CostSum(s + t) == CostSum(s) + CostSum(t)
    decreases |s|
  {
    if |s| > 0 {
      assert (s + t)[1..] == s[1..] + t;
      CostSumAppend(s[1..], t);
    } else {
      assert s + t == t;
    }
  }

  lemma {:induction false} CostSumBounds(s: string)
    ensures -105 * |s| <= CostSum(s) <= -5 * |s|
    decreases |s|
  {
    if |s| > 0 {
      CostSumBounds(s[1..]);
    }
  }

  /** The score adds up over concatenation, and every character lowers it by
      5 to 105: longer and more punctuated values score lower. */
  lemma ScoreAdditive(s: string, t: string)
    ensures Score(s + t) == Score(s) + Score(t)
    ensures -105 * |s| <= Score(s) <= -5 * |s|
  {
    ScoreIsCostSum(s);
    ScoreIsCostSum(t);
    ScoreIsCostSum(s + t);
    CostSumAppend(s, t);
    CostSumBounds(s);
  }

  /** Position `k` of `keys` qualifies: present, with a value of at least three characters. */
  predicate Qualifies(p: Proplist, keys: seq<string>, k: int)
  {
    0 <= k < |keys| && keys[k] in p && |p[keys[k]]| >= MinLabelLength
  }

  /** A collected `(score, value)` pair, remembering the key position it came
      from: the stable sort's tie-break depends on that position. */
  datatype Candidate = Candidate(score: int, value: string, key: nat)

  /** The pairs the loop over the keys collects, from key position `i` on. */
  function Collect(p: Proplist, keys: seq<string>, i: nat): (c: seq<Candidate>)
    requires i <= |keys|
    ensures |c| <= |keys| - i
    decreases |keys| - i
  {
    if i == |keys| then []
    else
      var rest := Collect(p, keys, i + 1);
      if Qualifies(p, keys, i) then [Candidate(Score(p[keys[i]]), p[keys[i]], i)] + rest else rest
  }

  /** Every collected pair comes from a qualifying key position at or after `i`, with that key's value and its score. */
  lemma {:induction false} CollectSound(p: Proplist, keys: seq<string>, i: nat, c: seq<Candidate>)
    requires i <= |keys| && c == Collect(p, keys, i)
    ensures forall j :: 0 <= j < |c| ==>
              i <= c[j].key && Qualifies(p, keys, c[j].key) && c[j].value == p[keys[c[j].key]] && c[j].score == Score(c[j].value)
    decreases |keys| - i
  {
    if i < |keys| {
      var rest := Collect(p, keys, i + 1);
      CollectSound(p, keys, i + 1, rest);
      if Qualifies(p, keys, i) {
        assert forall j :: 1 <= j < |c| ==> c[j] == rest[j - 1];
      }
    }
  }

  /** The collected pairs are in strictly increasing key order. */
  lemma {:induction false} CollectOrdered(p: Proplist, keys: seq<string>, i: nat, c: seq<Candidate>)
    requires i <= |keys| && c == Collect(p, keys, i)
    ensures forall j, j' :: 0 <= j < j' < |c| ==> c[j].key < c[j'].key
    decreases |keys| - i
  {
    if i < |keys| {
      var rest := Collect(p, keys, i + 1);
      CollectOrdered(p, keys, i + 1, rest);
      CollectSound(p, keys, i + 1, rest);
      if Qualifies(p, keys, i) {
        assert forall j :: 1 <= j < |c| ==> c[j] == rest[j - 1];
      }
    }
  }

  /** Every qualifying key position at or after `i` is collected. */
  lemma {:induction false} CollectComplete(p: Proplist, keys: seq<string>, i: nat, c: seq<Candidate>)
    requires i <= |keys| && c == Collect(p, keys, i)
    ensures forall k :: i <= k && Qualifies(p, keys, k) ==> exists j :: 0 <= j < |c| && c[j].key == k
    decreases |keys| - i
  {
    if i < |keys| {
      var rest := Collect(p, keys, i + 1);
      CollectComplete(p, keys, i + 1, rest);
      forall k | i <= k && Qualifies(p, keys, k)
        ensures exists j :: 0 <= j < |c| && c[j].key == k
      {
        if Qualifies(p, keys, i) {
          if k == i {
            assert c[0].key == k;
          } else {
            var j :| 0 <= j < |rest| && rest[j].key == k;
            assert c[j + 1] == rest[j];
          }
        } else {
          assert c == rest;
        }
      }
    }
  }

  /** Position of the head of `c` after a stable sort by descending score:
      the first pair with maximal score. */
  function FirstMax(c: seq<Candidate>): (r: nat)
    requires |c| > 0
    ensures r < |c|
    ensures forall j :: 0 <= j < |c| ==> c[j].score <= c[r].score
    ensures forall j :: 0 <= j < r ==> c[j].score < c[r].score
  {
    if |c| == 1 then 0
    else
      var k := FirstMax(c[1..]);
      assert forall j :: 1 <= j < |c| ==> c[j] == c[1..][j - 1];
      assert c[k + 1] == c[1..][k];
      if c[0].score >= c[k + 1].score then 0 else k + 1
  }

  /** Key position `k` holds the label the heuristic picks: its value has the
      highest score, and every earlier qualifying key scores strictly lower. */
  ghost predicate IsWinner(p: Proplist, keys: seq<string>, k: int)
  {
    && Qualifies(p, keys, k)
    && (forall j :: Qualifies(p, keys, j) ==> Score(p[keys[j]]) <= Score(p[keys[k]]))
    && (forall j :: j < k && Qualifies(p, keys, j) ==> Score(p[keys[j]]) < Score(p[keys[k]]))
  }

  /** The head of the collected pairs comes from the winning key position. */
  lemma FirstMaxIsWinner(p: Proplist, keys: seq<string>, c: seq<Candidate>)
    requires c == Collect(p, keys, 0) && |c| > 0
    ensures IsWinner(p, keys, c[FirstMax(c)].key)
  {
    CollectSound(p, keys, 0, c);
    CollectOrdered(p, keys, 0, c);
    CollectComplete(p, keys, 0, c);
    var m := FirstMax(c);
    forall j | Qualifies(p, keys, j)
      ensures Score(p[keys[j]]) <= Score(p[keys[c[m].key]])
      ensures j < c[m].key ==> Score(p[keys[j]]) < Score(p[keys[c[m].key]])
    {
      var jj :| 0 <= jj < |c| && c[jj].key == j;
      if j < c[m].key {
        assert jj < m;
      }
    }
  }

  /** Label chosen from the values of `keys`: the head of the collected pairs. */
  function BestLabel(p: Proplist, keys: seq<string>): (r: Option<string>)
    ensures r.None? <==> forall k :: 0 <= k < |keys| ==> !Qualifies(p, keys, k)
    ensures r.Some? ==> exists k :: IsWinner(p, keys, k) && r.value == p[keys[k]]
  {
    var c := Collect(p, keys, 0);
    CollectSound(p, keys, 0, c);
    CollectComplete(p, keys, 0, c);
    if |c| > 0 then
      FirstMaxIsWinner(p, keys, c);
      Some(c[FirstMax(c)].value)
    else
      None
  }

  /** `filter_proplist`: the most readable label of a device, or None. */
  function FilterProplist(p: Proplist): (r: Option<string>)
    ensures r.None? <==> forall k :: 0 <= k < |LabelKeys| ==> !Qualifies(p, LabelKeys, k)
    ensures r.Some? ==> exists k :: IsWinner(p, LabelKeys, k) && r.value == p[LabelKeys[k]]
  {
    BestLabel(p, LabelKeys)
  }

  /** The heuristic's choice is unique: at most one key position wins. */
  lemma WinnerUnique(p: Proplist, k1: int, k2: int)
    requires IsWinner(p, LabelKeys, k1) && IsWinner(p, LabelKeys, k2)
    ensures k1 == k2
  {
  }

  /** Any label returned is the value of a listed key and at least three characters long. */
  lemma LabelIsListedValue(p: Proplist)
    requires FilterProplist(p).Some?
    ensures exists k :: 0 <= k < |LabelKeys| && Get(p, LabelKeys[k]) == FilterProplist(p)
    ensures |FilterProplist(p).value| >= MinLabelLength
  {
    var k :| IsWinner(p, LabelKeys, k) && FilterProplist(p).value == p[LabelKeys[k]];
    assert Get(p, LabelKeys[k]) == FilterProplist(p);
  }

  lemma {:induction false} CollectOnlyReadsKeys(p: Proplist, q: Proplist, keys: seq<string>, i: nat)
    requires i <= |keys|
    requires forall k :: 0 <= k < |keys| ==> Get(p, keys[k]) == Get(q, keys[k])
    ensures Collect(p, keys, i) == Collect(q, keys, i)
    decreases |keys| - i
  {
    if i < |keys| {
      assert Get(p, keys[i]) == Get(q, keys[i]);
      CollectOnlyReadsKeys(p, q, keys, i + 1);
    }
  }

  /** Keys outside the priority list never affect the label. */
  lemma OnlyLabelKeysMatter(p: Proplist, q: Proplist)
    requires forall k :: 0 <= k < |LabelKeys| ==> Get(p, LabelKeys[k]) == Get(q, LabelKeys[k])
    ensures FilterProplist(p) == FilterProplist(q)
  {
    CollectOnlyReadsKeys(p, q, LabelKeys, 0);
  }

  //
  // Control-script commands
  //

  /** One invocation of the control script: `up n`, `down n`, `set v` or `mute`. */
  datatype ScriptCommand = Up(amount: nat) | Down(amount: nat) | SetTo(volume: int) | ToggleMute

  /** Python `int(x)`: truncation toward zero. */
  function Truncate(x: real): (n: int)
    ensures x >= 0.0 ==> 0 <= n && n as real <= x < n as real + 1.0
    ensures x < 0.0 ==> n <= 0 && n as real - 1.0 < x <= n as real
  {
    if x >= 0.0 then x.Floor else -((-x).Floor)
  }

  /** Signed change a relative command asks for. */
  function Delta(c: ScriptCommand): int
    requires c.Up? || c.Down?
  {
    if c.Up? then c.amount else -(c.amount as int)
  }

  /** `change_volume`: `down |n|` for a negative truncated adjustment, `up n` otherwise. */
  function ChangeVolume(device: Option<Device>, adjust: real): (c: ScriptCommand)
    ensures c.Up? || c.Down?
    ensures Delta(c) == Truncate(adjust)
    ensures c.Down? <==> adjust <= -1.0
    ensures c.Down? ==> c.amount > 0
  {
    var n := Truncate(adjust);
    if n < 0 then Down(-n) else Up(n)
  }

  /** `set_volume`. */
  function SetVolume(device: Option<Device>, volume: int): (c: ScriptCommand)
    ensures c.SetTo? && c.volume == volume
  {
    SetTo(volume)
  }

  /** `mute`: the requested state is not passed on. */
  function Mute(device: Option<Device>, state: bool): (c: ScriptCommand)
    ensures c.ToggleMute?
  {
    ToggleMute
  }

  /** No script command depends on the device it was asked to act on. */
  lemma CommandsIgnoreDevice(d1: Option<Device>, d2: Option<Device>, adjust: real, volume: int, state: bool)
    ensures ChangeVolume(d1, adjust) == ChangeVolume(d2, adjust)
    ensures SetVolume(d1, volume) == SetVolume(d2, volume)
    ensures Mute(d1, state) == Mute(d2, state)
  {
  }

  /** A device's volume and mute flag as the control script sees them. */
  datatype Level = Level(volume: int, muted: bool)

  /** The script's verbs read as their names say: the script is not part of
      this model, so this is the meaning the plugin relies on. */
  function RunScript(c: ScriptCommand, l: Level): Level
  {
    match c
    case Up(n) => l.(volume := l.volume + n)
    case Down(n) => l.(volume := l.volume - n)
    case SetTo(v) => l.(volume := v)
    case ToggleMute => l.(muted := !l.muted)
  }

  /** `mute` flips the mute flag whatever state was requested: it is a toggle, not a setter. */
  lemma MuteIsToggle(d: Option<Device>, state: bool, l: Level)
    ensures RunScript(Mute(d, state), l).muted == !l.muted
    ensures RunScript(Mute(d, state), l).volume == l.volume
    ensures Mute(d, true) == Mute(d, false)
  {
  }

  /** A relative change moves the volume by exactly the truncated adjustment. */
  lemma ChangeVolumeMovesByTruncated(d: Option<Device>, adjust: real, l: Level)
    ensures RunScript(ChangeVolume(d, adjust), l) == Level(l.volume + Truncate(adjust), l.muted)
  {
  }

  /** Fixed part of the command line: the host spawner, the plugin directory and the script path. */
  function ScriptPrefix(baseDir: string): seq<string>
  {
    ["flatpak-spawn", "--host", "--directory=" + baseDir, "internal/pulseaudio-ctl.sh"]
  }

  /** The arguments after the script path. */
  function ScriptArgs(c: ScriptCommand): seq<string>
  {
    match c
    case Up(n) => ["up", NatToString(n)]
    case Down(n) => ["down", NatToString(n)]
    case SetTo(v) => ["set", IntToString(v)]
    case ToggleMute => ["mute"]
  }

  /** The full command line run for a command; the device appears nowhere in it. */
  function CommandLine(baseDir: string, c: ScriptCommand): (argv: seq<string>)
    ensures |argv| == 5 || |argv| == 6
    ensures argv[..4] == ScriptPrefix(baseDir)
    ensures argv[4] in {"up", "down", "set", "mute"}
  {
    ScriptPrefix(baseDir) + ScriptArgs(c)
  }

  /** How the script reads its arguments back. */
  function ParseScriptArgs(args: seq<string>): Option<ScriptCommand>
  {
    if args == ["mute"] then Some(ToggleMute)
    else if |args| != 2 then None
    else
      match ParseInt(args[1])
      case None => None
      case Some(n) =>
        if args[0] == "set" then Some(SetTo(n))
        else if args[0] == "up" && n >= 0 then Some(Up(n))
        else if args[0] == "down" && n >= 0 then Some(Down(n))
        else None
  }

  /** Every command's arguments read back as the same command. */
  lemma ScriptArgsRoundTrip(c: ScriptCommand)
    ensures ParseScriptArgs(ScriptArgs(c)) == Some(c)
  {
    match c
    case Up(n) => IntToStringRoundTrip(n);
    case Down(n) => IntToStringRoundTrip(n);
    case SetTo(v) => IntToStringRoundTrip(v);
    case ToggleMute =>
  }

  //
  // Device and volume lookups
  //

  /** `get_device`: the device of that name in the filter's list, None on failure. */
  function GetDevice(server: Server, filter: DeviceFilter, name: Option<string>): (r: Option<Device>)
    ensures r.Some? ==> r.value in DeviceList(server, filter) && Some(r.value.name) == name
    ensures r.None? <==> forall d :: d in DeviceList(server, filter) ==> Some(d.name) != name
  {
    DeviceByName(DeviceList(server, filter), name)
  }

  /** Name of the server's default device for a filter. */
  function DefaultName(server: Server, filter: DeviceFilter): string
  {
    match filter
    case Sink => server.defaultSink
    case Source => server.defaultSource
  }

  /** `get_standard_device`: the server's default sink or source, None when it is not listed. */
  function GetStandardDevice(server: Server, filter: DeviceFilter): (r: Option<Device>)
    ensures r.Some? ==> r.value in DeviceList(server, filter) && r.value.name == DefaultName(server, filter)
    ensures r.None? <==> forall d :: d in DeviceList(server, filter) ==> d.name != DefaultName(server, filter)
  {
    GetDevice(server, filter, Some(DefaultName(server, filter)))
  }

  /** `get_volumes_from_device`: one percent per channel of the named device,
      in channel order; [] when the lookup fails. */
  function VolumesFromDevice(server: Server, filter: DeviceFilter, name: Option<string>): (v: seq<int>)
    ensures (forall d :: d in DeviceList(server, filter) ==> Some(d.name) != name) ==> v == []
    ensures v != [] ==> exists d :: d in DeviceList(server, filter) && Some(d.name) == name && d.volumes == v
    ensures GetDevice(server, filter, name).Some? ==> v == GetDevice(server, filter, name).value.volumes
  {
    match GetDevice(server, filter, name)
    case None => []
    case Some(d) => d.volumes
  }
}
