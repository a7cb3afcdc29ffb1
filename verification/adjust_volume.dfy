/** The adjust-volume key: one press moves the volume by a fixed signed step,
    capped at an upper bound when going up. The device lookup and volume read
    of this revision go through base-class methods that are not part of this
    model, so their results are parameters here. */
module AdjustVolume {
  import opened Common
  import PulseHelpers

  /** `on_key_down`. `device` and `volumes` are what the device lookup and the
      volume read return. A missing pulse name or step reports an error. A
      negative step always issues `down`. Otherwise, below the bound the volume
      moves by the step, or to the bound when the step would pass it, and at or
      above the bound nothing happens. */
  function KeyDown(pulseName: Option<string>, adjust: Option<int>, bounds: int,
                   device: Option<Device>, volumes: seq<int>): (r: Reaction<PulseHelpers.ScriptCommand>)
    ensures pulseName.None? || adjust.None? ==> r.ShowError?
    ensures pulseName.Some? && adjust.Some? && adjust.value < 0 ==>
              r.Issue? && r.cmd.Down? && r.cmd.amount == -adjust.value
    ensures pulseName.Some? && adjust.Some? && adjust.value >= 0 ==>
              (r.Issue? <==> |volumes| > 0 && volumes[0] < bounds) && (r.Idle? <==> !r.Issue?)
    ensures pulseName.Some? && adjust.Some? && adjust.value >= 0 && |volumes| > 0 && volumes[0] < bounds ==>
              (volumes[0] + adjust.value > bounds ==> r == Issue(PulseHelpers.SetTo(bounds)))
              && (volumes[0] + adjust.value <= bounds ==>
                    r.Issue? && (r.cmd.Up? || r.cmd.Down?) && PulseHelpers.Delta(r.cmd) == adjust.value)
  {
    if pulseName.None? || adjust.None? then ShowError
    else
      var a := adjust.value;
      if a < 0 then Issue(PulseHelpers.ChangeVolume(device, a as real))
      else if |volumes| > 0 && volumes[0] < bounds then
        if volumes[0] + a > bounds then Issue(PulseHelpers.SetVolume(device, bounds))
        else Issue(PulseHelpers.ChangeVolume(device, a as real))
      else Idle
  }

  /** When the level the script acts on is the volume that was read, a
      non-negative step from below the bound lands on the step's target or on
      the bound, whichever is lower. */
  lemma StepUpStopsAtBound(pulseName: string, adjust: nat, bounds: int, device: Option<Device>, volumes: seq<int>, l: PulseHelpers.Level)
    requires |volumes| > 0 && volumes[0] < bounds
    requires l.volume == volumes[0]
    ensures var r := KeyDown(Some(pulseName), Some(adjust), bounds, device, volumes);
            var after := PulseHelpers.RunScript(r.cmd, l).volume;
            r.Issue?
            && after == (if volumes[0] + adjust < bounds then volumes[0] + adjust else bounds)
            && l.volume <= after <= bounds
  {
  }

  /** A negative step is applied in full whatever the current volume, with no floor at zero. */
  lemma StepDownIsUnbounded(pulseName: string, adjust: int, bounds: int, device: Option<Device>, volumes: seq<int>, l: PulseHelpers.Level)
    requires adjust < 0
    ensures var r := KeyDown(Some(pulseName), Some(adjust), bounds, device, volumes);
            r.Issue? && PulseHelpers.RunScript(r.cmd, l).volume == l.volume + adjust
  {
  }

  /** `display_info`: `str(volume_adjust)`, which is "None" for a missing step. */
  function InfoText(adjust: Option<int>): (t: string)
    ensures adjust.None? ==> t == "None"
    ensures adjust.Some? ==> ParseInt(t) == Some(adjust.value)
  {
    match adjust
    case None => "None"
    case Some(a) =>
      IntToStringRoundTrip(a);
      IntToString(a)
  }

  /** The info text tells a missing step apart from every number. */
  lemma InfoTextDistinguishesMissing(a: int)
    ensures InfoText(Some(a)) != InfoText(None)
  {
    assert ParseInt(InfoText(Some(a))) == Some(a);
    assert ParseInt("None") == None;
  }

  /** `display_icon`: None leaves the image as it is. */
  function Icon(adjust: Option<int>): (img: Option<Image>)
    ensures img.None? <==> adjust.None?
    ensures adjust.Some? ==> (img == Some(VolUpImage) <==> adjust.value >= 0)
    ensures adjust.Some? ==> (img == Some(VolDownImage) <==> adjust.value < 0)
  {
    match adjust
    case None => None
    case Some(a) => if a >= 0 then Some(VolUpImage) else Some(VolDownImage)
  }

  /** The icon points the way a press moves the volume: down icons always lower it, up icons never do. */
  lemma IconMatchesDirection(pulseName: string, adjust: int, bounds: int, device: Option<Device>, volumes: seq<int>, l: PulseHelpers.Level)
    requires KeyDown(Some(pulseName), Some(adjust), bounds, device, volumes).Issue?
    ensures var after := PulseHelpers.RunScript(KeyDown(Some(pulseName), Some(adjust), bounds, device, volumes).cmd, l).volume;
            (Icon(Some(adjust)) == Some(VolDownImage) ==> after < l.volume)
            && (Icon(Some(adjust)) == Some(VolUpImage) && l.volume == volumes[0] ==> after >= l.volume)
  {
  }
}
