/** Start-up and the per-frame cycle of the two-channel scale: the zero
    offsets and settings the scale starts from, and what one pass of the
    main loop computes from a pair of averaged raw readings — the two shown
    masses, the two alarms and the status line. */
module ScaleLoop {
  import opened Faults
  import opened Mass
  import opened Settings
  import opened Channel
  import opened Alarms
  import opened Nvm
  import opened Buttons
  import opened Dispatch

  datatype Booted = Booted(scale: Scale, medium: Medium)

  /** Start-up of the revisions with a settings store: with `debug` set the
      zero offsets stay 0, otherwise each is the converter's zero reading;
      then `read_settings` fetches (repairing an unmarked store with the
      defaults) and decodes the eight fields. As written, a board without
      memory fails here. */
  function Startup(debug: bool, reading1: int, reading2: int, m: Medium, defaults: Record): (r: Result<Booted>)
    ensures r.Ok? ==> (r.value.scale.zero1 == (if debug then 0 else reading1)
                       && r.value.scale.zero2 == (if debug then 0 else reading2))
    ensures r.Ok? ==> InSync(r.value.scale.settings, r.value.medium, defaults)
    ensures m == Holds([]) ==> r == Err(IndexError)
    ensures m.Unreadable? ==> r == Err(OSError)
    ensures !m.Unreadable? && m != Holds([]) && !Valid(m) ==> r.Ok? && r.value.scale.settings == defaults
    ensures Valid(m) ==> (r.Ok? <==> Decode(m.data[1..]).Ok?) && (r.Ok? ==> r.value.medium == m)
  {
    var zero1 := if debug then 0 else reading1;
    var zero2 := if debug then 0 else reading2;
    var fetched :- Fetch(m, defaults);
    var settings :- Decode(fetched.cells);
    FetchIdempotent(m, defaults);
    if !Valid(m) then
      FetchInvalid(m, defaults);
      DecodeEncode(defaults);
      Ok(Booted(Scale(settings, zero1, zero2), fetched.medium))
    else
      FetchValid(m, defaults);
      Ok(Booted(Scale(settings, zero1, zero2), fetched.medium))
  }

  /** Start-up with the corrected fetch: a board without memory starts from
      the defaults and keeps no store; any other board starts as written. */
  function StartupFixed(debug: bool, reading1: int, reading2: int, m: Medium, defaults: Record): (r: Result<Booted>)
    ensures !m.Unreadable? ==> r == Startup(debug, reading1, reading2, m, defaults)
    ensures m.Unreadable? ==> r.Ok? && r.value.medium == Unreadable && r.value.scale.settings == defaults
    ensures r.Ok? ==> (r.value.scale.zero1 == (if debug then 0 else reading1)
                       && r.value.scale.zero2 == (if debug then 0 else reading2))
  {
    if !m.Unreadable? then Startup(debug, reading1, reading2, m, defaults)
    else
      var fetched := FetchFixed(m, defaults).value;
      DecodeEncode(defaults);
      Ok(Booted(Scale(Decode(fetched.cells).value, if debug then 0 else reading1, if debug then 0 else reading2), fetched.medium))
  }

  /** Start-up of code/ (and the other store-less revisions): the settings
      are the defaults, each rounded to 0.1 g. */
  function StartupSeeded(debug: bool, reading1: int, reading2: int, defaults: Record): (s: Scale)
    ensures s.zero1 == (if debug then 0 else reading1) && s.zero2 == (if debug then 0 else reading2)
    ensures forall k, c :: s.settings.On(k, c) == defaults.On(k, c) && s.settings.Mass(k, c) == defaults.Mass(k, c)
  {
    Scale(defaults, if debug then 0 else reading1, if debug then 0 else reading2)
  }

  /** A store-less revision starts where a store-backed one, with the
      corrected fetch, starts on a board without memory. */
  lemma SeededIsFreshStore(debug: bool, reading1: int, reading2: int, defaults: Record)
    ensures StartupFixed(debug, reading1, reading2, Unreadable, defaults).Ok?
    ensures StartupFixed(debug, reading1, reading2, Unreadable, defaults).value.scale
         == StartupSeeded(debug, reading1, reading2, defaults)
  {
  }

  /** PyPortal_Scale_v20's start-up rule for one setting: enabled exactly
      when the configured mass is nonzero; a disabled mass is set to 0.0. */
  function EnableIfNonzero(g: Grams): (r: (Grams, bool))
    ensures r.1 <==> g.Value() != 0
    ensures r.0 == if r.1 then g else Zero
  {
    if Truthy(g) then (g, true) else (Zero, false)
  }

  /** PyPortal_Scale_v20's start-up settings from its configuration. */
  function StartupV20(config: Record, reading1: int, reading2: int, debug: bool): (s: Scale)
    ensures s.zero1 == (if debug then 0 else reading1) && s.zero2 == (if debug then 0 else reading2)
    ensures forall k, c :: s.settings.On(k, c) <==> config.Mass(k, c).Value() != 0
    ensures forall k, c :: s.settings.Mass(k, c) == if s.settings.On(k, c) then config.Mass(k, c) else Zero
  {
    var a1, a2 := EnableIfNonzero(config.alarm1), EnableIfNonzero(config.alarm2);
    var t1, t2 := EnableIfNonzero(config.tare1), EnableIfNonzero(config.tare2);
    Scale(Record(a1.0, a2.0, t1.0, t2.0, a1.1, a2.1, t1.1, t2.1),
          if debug then 0 else reading1, if debug then 0 else reading2)
  }

  /** Right after start-up, the unconditional tare subtraction of
      PyPortal_Scale_v20 shows what the gated formula shows. */
  lemma StartupV20IsGated(config: Record, reading1: int, reading2: int, debug: bool,
                          c: Chan, raw: int, ratio: real)
    ensures var s := StartupV20(config, reading1, reading2, debug);
            (UngatedMass(raw, s.Offset(c), ratio, s.settings.Mass(Tare, c))
             == GatedMass(raw, s.Offset(c), ratio, s.settings.Mass(Tare, c), s.settings.On(Tare, c)))
  {
    var s := StartupV20(config, reading1, reading2, debug);
    ClearedTareIsGated(raw, s.Offset(c), ratio, s.settings.Mass(Tare, c), s.settings.On(Tare, c));
  }

  /** What one frame shows. */
  datatype Frame = Frame(m1: Grams, m2: Grams, a1: bool, a2: bool, status: string)

  /** A pass of the main loop of the tap/hold revisions as written: gated
      masses, channel 2's alarm compared with the compiled default. */
  function RunFrame(s: Scale, raw1: int, raw2: int, ratio1: real, ratio2: real, alarm2Default: Grams,
                    previous: string, wasAlarm: bool): (f: Frame)
    ensures !f.m1.MinusZero? && !f.m2.MinusZero?
    ensures -0.05 <= f.m1.Value() as real / 10.0
                     - ((raw1 - s.zero1) as real * ratio1 - TareTerm(s.settings.tare1, s.settings.tare1On).Value() as real / 10.0) <= 0.05
    ensures -0.05 <= f.m2.Value() as real / 10.0
                     - ((raw2 - s.zero2) as real * ratio2 - TareTerm(s.settings.tare2, s.settings.tare2On).Value() as real / 10.0) <= 0.05
    ensures f.a1 <==> s.settings.alarm1On && f.m1.Value() >= s.settings.alarm1.Value()
    ensures f.a2 <==> s.settings.alarm2On && f.m2.Value() >= alarm2Default.Value()
    ensures !f.a1 && !f.a2 && !wasAlarm ==> f.status == ScaleName
    ensures f.a1 || f.a2 ==> |f.status| >= 7 && f.status[..7] == "ALARM: "
  {
    var m1 := GatedMass(raw1, s.zero1, ratio1, s.settings.tare1, s.settings.tare1On);
    var m2 := GatedMass(raw2, s.zero2, ratio2, s.settings.tare2, s.settings.tare2On);
    var a := CheckAsWritten(s.settings, m1, m2, alarm2Default);
    Frame(m1, m2, a.0, a.1, Status(previous, wasAlarm, a.0, a.1, Chan1Name, Chan2Name))
  }

  /** The corrected pass: both alarms compared with their live thresholds. */
  function RunFrameFixed(s: Scale, raw1: int, raw2: int, ratio1: real, ratio2: real,
                         previous: string, wasAlarm: bool): (f: Frame)
    ensures f.m1 == RunFrame(s, raw1, raw2, ratio1, ratio2, Zero, previous, wasAlarm).m1
    ensures f.m2 == RunFrame(s, raw1, raw2, ratio1, ratio2, Zero, previous, wasAlarm).m2
    ensures f.a1 <==> s.settings.On(Alarm, One) && f.m1.Value() >= s.settings.Mass(Alarm, One).Value()
    ensures f.a2 <==> s.settings.On(Alarm, Two) && f.m2.Value() >= s.settings.Mass(Alarm, Two).Value()
    ensures !f.a1 && !f.a2 && !wasAlarm ==> f.status == ScaleName
  {
    var m1 := GatedMass(raw1, s.zero1, ratio1, s.settings.tare1, s.settings.tare1On);
    var m2 := GatedMass(raw2, s.zero2, ratio2, s.settings.tare2, s.settings.tare2On);
    var a := Check(s.settings, m1, m2);
    Frame(m1, m2, a.0, a.1, Status(previous, wasAlarm, a.0, a.1, Chan1Name, Chan2Name))
  }

  /** The two passes agree while the live channel-2 threshold is the
      compiled default. */
  lemma FramesAgreeOnDefault(s: Scale, raw1: int, raw2: int, ratio1: real, ratio2: real,
                             previous: string, wasAlarm: bool)
    ensures RunFrame(s, raw1, raw2, ratio1, ratio2, s.settings.alarm2, previous, wasAlarm)
         == RunFrameFixed(s, raw1, raw2, ratio1, ratio2, previous, wasAlarm)
  {
    AsWrittenAgreesWithDefault(s.settings,
      GatedMass(raw1, s.zero1, ratio1, s.settings.tare1, s.settings.tare1On),
      GatedMass(raw2, s.zero2, ratio2, s.settings.tare2, s.settings.tare2On));
  }

  /** The lingering message and presses: after an alarm frame, a press
      that blanks the label leaves " " through the next calm frame instead
      of the message; either way the name returns on the frame after. */
  lemma PressCutsLingeringAlarm(previous: string, wasAlarm: bool, a1: bool, a2: bool,
                                pressed: Option<Name>, ticks: nat, timeout: real)
    requires a1 || a2
    ensures var shown := Status(previous, wasAlarm, a1, a2, Chan1Name, Chan2Name);
            var after := StatusAfterPress(shown, pressed, ticks, timeout);
            var next := Status(after, true, false, false, Chan1Name, Chan2Name);
            next == after
            && (pressed.None? ==> next == shown)
            && (pressed.Some? && !pressed.value.ResetButton? ==> next == " ")
            && Status(next, false, false, false, Chan1Name, Chan2Name) == ScaleName
  {
  }

  /** Holding alarm_N captures the shown mass as the threshold, so with the
      corrected pass an enabled alarm sounds on the next frame while the
      load has not changed. */
  lemma HoldAlarmThenAlarm(s: Scale, c: Chan, ticks: nat, timeout: real, raw1: int, raw2: int,
                           ratio1: real, ratio2: real, previous: string, wasAlarm: bool)
    requires IsHold(ticks, timeout) && s.settings.On(Alarm, c)
    ensures var f := RunFrameFixed(s, raw1, raw2, ratio1, ratio2, previous, wasAlarm);
            var next := TapHold(s, Some(SettingButton(Alarm, c)), ticks, timeout, f.m1, f.m2, 0, true).scale;
            var after := StatusAfterPress(f.status, Some(SettingButton(Alarm, c)), ticks, timeout);
            var g := RunFrameFixed(next, raw1, raw2, ratio1, ratio2, after, f.a1 || f.a2);
            if c == One then g.a1 else g.a2
  {
    var f := RunFrameFixed(s, raw1, raw2, ratio1, ratio2, previous, wasAlarm);
    var next := TapHold(s, Some(SettingButton(Alarm, c)), ticks, timeout, f.m1, f.m2, 0, true).scale;
    assert next.settings.Mass(Tare, One) == s.settings.Mass(Tare, One);
    assert next.settings.Mass(Tare, Two) == s.settings.Mass(Tare, Two);
    assert next.settings.On(Tare, One) == s.settings.On(Tare, One);
    assert next.settings.On(Tare, Two) == s.settings.On(Tare, Two);
  }

  /** As written, the same hold on alarm_2 at 30.0 g stays silent: the
      channel-2 comparison still uses the compiled 40.0 g. */
  lemma HoldAlarm2StaysSilent()
    ensures var s := Scale(Shipped.(tare2On := false), 0, 0);
            var f := RunFrame(s, 0, 64590, CalibRatio, CalibRatio, Shipped.alarm2, ScaleName, false);
            var next := TapHold(s, Some(SettingButton(Alarm, Two)), 20, 1.0, f.m1, f.m2, 0, true).scale;
            var after := StatusAfterPress(f.status, Some(SettingButton(Alarm, Two)), 20, 1.0);
            var g := RunFrame(next, 0, 64590, CalibRatio, CalibRatio, Shipped.alarm2, after, f.a1 || f.a2);
            f.m2 == Tenths(300) && next.settings.alarm2 == Tenths(300) && next.settings.alarm2On && !g.a2
  {
    var s := Scale(Shipped.(tare2On := false), 0, 0);
    assert 64590 as real * CalibRatio == 300 as real / 10.0;
    RoundOnGrid(300);
    RoundOnGrid(0);
    var m2 := GatedMass(64590, 0, CalibRatio, s.settings.tare2, false);
    assert m2 == Tenths(300);
    var f := RunFrame(s, 0, 64590, CalibRatio, CalibRatio, Shipped.alarm2, ScaleName, false);
    assert f.m2 == m2;
    assert IsHold(20, 1.0);
    var next := TapHold(s, Some(SettingButton(Alarm, Two)), 20, 1.0, f.m1, f.m2, 0, true).scale;
    assert next.settings.alarm2 == Tenths(300) && next.settings.alarm2On;
    assert next.settings.tare2 == s.settings.tare2 && !next.settings.tare2On && next.zero2 == 0;
    var after := StatusAfterPress(f.status, Some(SettingButton(Alarm, Two)), 20, 1.0);
    var g := RunFrame(next, 0, 64590, CalibRatio, CalibRatio, Shipped.alarm2, after, f.a1 || f.a2);
    assert g.m2 == m2;
  }
}
