/** Alarm evaluation and the status line. Each channel's alarm holds when it
    is enabled and the shown mass has reached the threshold (inclusive). The
    status line shows the scale's name, or an upper-cased alarm message
    naming the channels in alarm. */
module Alarms {
  import opened Faults
  import opened Mass
  import opened Settings

  /** `enable and mass >= threshold`: float comparison, so -0.0 and +0.0
      compare equal. */
  predicate Triggered(on: bool, mass: Grams, threshold: Grams)
    ensures Triggered(on, mass, threshold) ==> on
    ensures on && mass.Value() == threshold.Value() ==> Triggered(on, mass, threshold)
    ensures on && mass.Value() > threshold.Value() ==> Triggered(on, mass, threshold)
    ensures mass.Value() < threshold.Value() ==> !Triggered(on, mass, threshold)
  {
    on && mass.Value() >= threshold.Value()
  }

  /** The pair (a1, a2) as the scale scripts compute it: channel 1 compares
      with the live `alarm_1_mass_gr`, channel 2 with the compiled default
      `ALARM_2_MASS_GR` whatever the live `alarm_2_mass_gr` is. */
  function CheckAsWritten(s: Record, m1: Grams, m2: Grams, alarm2Default: Grams): (a: (bool, bool))
    ensures a.0 <==> s.alarm1On && m1.Value() >= s.alarm1.Value()
    ensures a.1 <==> s.alarm2On && m2.Value() >= alarm2Default.Value()
  {
    (Triggered(s.alarm1On, m1, s.alarm1), Triggered(s.alarm2On, m2, alarm2Default))
  }

  /** Both channels compared with their live thresholds. */
  function Check(s: Record, m1: Grams, m2: Grams): (a: (bool, bool))
    ensures a.0 <==> s.On(Alarm, One) && m1.Value() >= s.Mass(Alarm, One).Value()
    ensures a.1 <==> s.On(Alarm, Two) && m2.Value() >= s.Mass(Alarm, Two).Value()
  {
    (Triggered(s.alarm1On, m1, s.alarm1), Triggered(s.alarm2On, m2, s.alarm2))
  }

  /** The two agree exactly when the live channel-2 threshold is the
      compiled default, e.g. until the user sets a new one. */
  lemma AsWrittenAgreesWithDefault(s: Record, m1: Grams, m2: Grams)
    ensures CheckAsWritten(s, m1, m2, s.alarm2) == Check(s, m1, m2)
  {
  }

  /** A channel-2 alarm the user set to 25.0 g stays silent at 30.0 g under
      the compiled 40.0 g default; the live-threshold check raises it. */
  lemma Channel2IgnoresLiveThreshold()
    ensures var s := Shipped.(alarm2 := Tenths(250));
            !CheckAsWritten(s, Zero, Tenths(300), Shipped.alarm2).1 && Check(s, Zero, Tenths(300)).1
  {
  }

  /** The boundary is inclusive: the alarm-1 scenario with threshold 19.4 g
      over masses 10.0, 19.4, 19.3 and 25.0 g. */
  lemma InclusiveBoundary()
    ensures !Triggered(true, Tenths(100), Tenths(194))
    ensures Triggered(true, Tenths(194), Tenths(194))
    ensures !Triggered(true, Tenths(193), Tenths(194))
    ensures Triggered(true, Tenths(250), Tenths(194))
    ensures !Triggered(false, Tenths(250), Tenths(194))
  {
  }

  function UpperChar(c: char): char
  {
    if 'a' <= c <= 'z' then (c as int - 32) as char else c
  }

  /** `str.upper()` on ASCII text. */
  function Upper(s: string): (u: string)
    ensures |u| == |s|
    ensures forall i :: 0 <= i < |s| ==> u[i] == UpperChar(s[i])
  {
    seq(|s|, i requires 0 <= i < |s| => UpperChar(s[i]))
  }

  /** The channel names and the scale's name of scale_defaults.py. */
  const Chan1Name: string := "beans"
  const Chan2Name: string := "shots"
  const ScaleName: string := "John's Espresso Bench"

  /** The alarm message for the pair (a1, a2), if either holds. */
  function AlarmText(a1: bool, a2: bool, name1: string, name2: string): (t: Option<string>)
    ensures t.Some? <==> a1 || a2
    ensures t.Some? ==> |t.value| >= 7 && t.value[..7] == "ALARM: "
  {
    var text :=
      if a1 && a2 then "ALARM: " + name1 + " and " + name2
      else if a1 then "ALARM: " + name1
      else "ALARM: " + name2;
    if a1 || a2 then
      assert text[..7] == "ALARM: ";
      Some(Upper(text))
    else None
  }

  /** The status line after a frame. At the start of a frame the name is
      shown again unless the previous frame was in alarm; then an alarm of
      this frame overwrites it. So a cleared alarm's message stays up for
      one more frame. */
  function Status(previous: string, wasAlarm: bool, a1: bool, a2: bool, name1: string, name2: string): (s: string)
    ensures (a1 || a2) ==> Some(s) == AlarmText(a1, a2, name1, name2)
    ensures !(a1 || a2) && !wasAlarm ==> s == ScaleName
    ensures !(a1 || a2) && wasAlarm ==> s == previous
  {
    var start := if wasAlarm then previous else ScaleName;
    match AlarmText(a1, a2, name1, name2)
    case Some(text) => text
    case None => start
  }

  /** After an alarm clears, its message lingers for exactly one frame and
      the name returns on the next — when no press is handled in between
      (a press can blank the label; see ScaleLoop.PressCutsLingeringAlarm). */
  lemma ClearedAlarmLingersOneFrame(previous: string, a1: bool, a2: bool)
    requires a1 || a2
    ensures var shown := Status(previous, false, a1, a2, Chan1Name, Chan2Name);
            var next := Status(shown, true, false, false, Chan1Name, Chan2Name);
            next == shown && Status(next, false, false, false, Chan1Name, Chan2Name) == ScaleName
  {
  }

  /** The messages of the shipped channel names. */
  lemma ShippedTexts()
    ensures AlarmText(true, true, Chan1Name, Chan2Name) == Some("ALARM: BEANS AND SHOTS")
    ensures AlarmText(true, false, Chan1Name, Chan2Name) == Some("ALARM: BEANS")
    ensures AlarmText(false, true, Chan1Name, Chan2Name) == Some("ALARM: SHOTS")
  {
    assert "ALARM: " + Chan1Name + " and " + Chan2Name == "ALARM: beans and shots";
    assert "ALARM: " + Chan1Name == "ALARM: beans";
    assert "ALARM: " + Chan2Name == "ALARM: shots";
    assert Upper("ALARM: beans and shots") == "ALARM: BEANS AND SHOTS";
    assert Upper("ALARM: beans") == "ALARM: BEANS";
    assert Upper("ALARM: shots") == "ALARM: SHOTS";
  }

  /** With the shipped names the message tells which alarms hold: distinct
      pairs give distinct status text. */
  lemma AlarmTextDistinguishes(a1: bool, a2: bool, b1: bool, b2: bool)
    requires AlarmText(a1, a2, Chan1Name, Chan2Name) == AlarmText(b1, b2, Chan1Name, Chan2Name)
    ensures a1 == b1 && a2 == b2
  {
    ShippedTexts();
    assert "ALARM: BEANS"[7] != "ALARM: SHOTS"[7];
  }
}
