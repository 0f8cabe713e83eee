/** Button-event dispatch: what a press reported by `read_buttons` does to
    the scale's settings and zero offsets. Three generations exist.

    - Tap/hold (the generic bundle, bundle_v2.0 and the newest revision): a
      hold on reset restores the defaults; zero_N re-zeroes channel N; on
      tare_N and alarm_N a tap toggles the enable and a hold captures the
      shown mass; every tare or alarm press stores the 8-field record.
    - Toggle-only (code/, bundle/, archive/bundle_v1.0, in-progress_bundle):
      every tare or alarm press toggles the enable, whatever the hold time.
    - Toggle-with-capture (the PyPortal revisions): a tare press toggles the
      enable and, when it turns on, captures a fresh tare from a new read. */
module Dispatch {
  import opened Faults
  import opened Mass
  import opened Settings
  import opened Buttons
  import opened Channel
  import opened Nvm

  /** The control state: the eight settings and the two software zero
      offsets (raw counts). */
  datatype Scale = Scale(settings: Record, zero1: int, zero2: int)
  {
    function Offset(c: Chan): int
    {
      if c == One then zero1 else zero2
    }

    function WithOffset(c: Chan, z: int): (r: Scale)
      ensures r.settings == settings && r.Offset(c) == z
      ensures forall c' :: c' != c ==> r.Offset(c') == Offset(c')
    {
      if c == One then this.(zero1 := z) else this.(zero2 := z)
    }
  }

  /** The shown mass of channel `c` in this frame. */
  function Pick(c: Chan, m1: Grams, m2: Grams): Grams
  {
    if c == One then m1 else m2
  }

  /** Every setting other than channel `c`'s `k` is the same in `a` and `b`. */
  predicate OnlyChanges(a: Record, b: Record, k: Kind, c: Chan)
  {
    forall k', c' :: (k', c') != (k, c) ==> b.Mass(k', c') == a.Mass(k', c') && b.On(k', c') == a.On(k', c')
  }

  /** A tap on tare_N or alarm_N: the enable flips; a tare that turns on has
      a stored -0.0 normalised to 0.0. */
  function Toggle(s: Record, k: Kind, c: Chan): (r: Record)
    ensures OnlyChanges(s, r, k, c)
    ensures r.On(k, c) == !s.On(k, c)
    ensures r.Mass(k, c).Value() == s.Mass(k, c).Value()
    ensures k == Alarm || !s.Mass(k, c).MinusZero? ==> r.Mass(k, c) == s.Mass(k, c)
  {
    var on := !s.On(k, c);
    var flipped := s.WithOn(k, c, on);
    if k == Tare && on then flipped.WithMass(k, c, Shown(s.Mass(k, c))) else flipped
  }

  /** Two taps on the same button give back the settings, unless the first
      one normalised a stored -0.0 tare. */
  lemma ToggleTwice(s: Record, k: Kind, c: Chan)
    requires !s.Mass(k, c).MinusZero?
    ensures Toggle(Toggle(s, k, c), k, c) == s
  {
    var t := Toggle(Toggle(s, k, c), k, c);
    assert forall k', c' :: t.Mass(k', c') == s.Mass(k', c') && t.On(k', c') == s.On(k', c');
    assert t.Mass(Alarm, One) == s.alarm1 && t.Mass(Alarm, Two) == s.alarm2;
    assert t.Mass(Tare, One) == s.tare1 && t.Mass(Tare, Two) == s.tare2;
    assert t.On(Alarm, One) == s.alarm1On && t.On(Alarm, Two) == s.alarm2On;
    assert t.On(Tare, One) == s.tare1On && t.On(Tare, Two) == s.tare2On;
  }

  /** What a dispatched press does before anything is stored: the new state,
      whether the defaults are to be restored and reloaded, and whether the
      record is to be written. */
  datatype Step = Step(scale: Scale, restore: bool, persist: bool)

  /** The tap/hold dispatcher. `zeroReading` is what `zero_channel` would
      return for the pressed channel; `softwareZero` is false for the newest
      revision, whose `zero_channel` calibrates the converter and returns
      nothing. */
  function TapHold(s: Scale, pressed: Option<Name>, ticks: nat, timeout: real,
                   m1: Grams, m2: Grams, zeroReading: int, softwareZero: bool): (r: Step)
    ensures r.restore <==> pressed == Some(ResetButton) && IsHold(ticks, timeout)
    ensures r.persist <==> pressed.Some? && pressed.value.SettingButton?
    ensures pressed.None? || pressed == Some(ResetButton) ==> r.scale == s
    ensures pressed.Some? && pressed.value.ZeroButton? ==>
      r.scale == if softwareZero then s.WithOffset(pressed.value.c, zeroReading) else s
    ensures pressed.Some? && pressed.value.SettingButton? ==>
      var k, c := pressed.value.k, pressed.value.c;
      r.scale.zero1 == s.zero1 && r.scale.zero2 == s.zero2 &&
      OnlyChanges(s.settings, r.scale.settings, k, c) &&
      (!IsHold(ticks, timeout) ==> r.scale.settings.On(k, c) == !s.settings.On(k, c)
                                   && r.scale.settings.Mass(k, c).Value() == s.settings.Mass(k, c).Value()) &&
      (IsHold(ticks, timeout) ==> r.scale.settings.On(k, c) == s.settings.On(k, c)
                                  && r.scale.settings.Mass(k, c) == Pick(c, m1, m2))
  {
    match pressed
    case None => Step(s, false, false)
    case Some(ResetButton) => Step(s, IsHold(ticks, timeout), false)
    case Some(ZeroButton(c)) =>
      Step(if softwareZero then s.WithOffset(c, zeroReading) else s, false, false)
    case Some(SettingButton(k, c)) =>
      var settings :=
        if !IsHold(ticks, timeout) then Toggle(s.settings, k, c)
        else s.settings.WithMass(k, c, Pick(c, m1, m2));
      Step(s.(settings := settings), false, true)
  }

  /** The toggle-only dispatcher: no reset button, and tare and alarm
      presses toggle whatever the hold time. */
  function ToggleOnly(s: Scale, pressed: Option<Name>, zeroReading: int): (r: Scale)
    ensures pressed.None? || pressed == Some(ResetButton) ==> r == s
    ensures pressed.Some? && pressed.value.ZeroButton? ==> r == s.WithOffset(pressed.value.c, zeroReading)
    ensures pressed.Some? && pressed.value.SettingButton? ==>
      var k, c := pressed.value.k, pressed.value.c;
      r.zero1 == s.zero1 && r.zero2 == s.zero2 && OnlyChanges(s.settings, r.settings, k, c) &&
      r.settings.On(k, c) == !s.settings.On(k, c) &&
      r.settings.Mass(k, c).Value() == s.settings.Mass(k, c).Value()
  {
    match pressed
    case None => s
    case Some(ResetButton) => s
    case Some(ZeroButton(c)) => s.WithOffset(c, zeroReading)
    case Some(SettingButton(k, c)) => s.(settings := Toggle(s.settings, k, c))
  }

  /** The toggle-only dispatcher is the tap/hold one with every press taken
      as a tap (a tap on reset does nothing in either). */
  lemma ToggleOnlyIsAlwaysTap(s: Scale, pressed: Option<Name>, m1: Grams, m2: Grams, zeroReading: int)
    ensures ToggleOnly(s, pressed, zeroReading)
         == TapHold(s, pressed, 0, 0.0, m1, m2, zeroReading, true).scale
  {
  }

  // ---- Tare hold: the captured value ------------------------------------

  /** The gross (untared) mass behind the shown mass of channel `c`. */
  function GrossShown(s: Record, c: Chan, m: Grams): (g: Grams)
    ensures g.Value() == m.Value() + TareTerm(s.Mass(Tare, c), s.On(Tare, c)).Value()
  {
    Tenths(m.Value() + TareTerm(s.Mass(Tare, c), s.On(Tare, c)).Value())
  }

  /** The tap/hold dispatcher with a tare hold capturing the gross mass
      under the cup rather than the already-tared shown mass. */
  function TapHoldFixed(s: Scale, pressed: Option<Name>, ticks: nat, timeout: real,
                        m1: Grams, m2: Grams, zeroReading: int, softwareZero: bool): (r: Step)
    ensures pressed.Some? && pressed.value.SettingButton? && pressed.value.k == Tare && IsHold(ticks, timeout) ==>
      r.scale.settings.Mass(Tare, pressed.value.c)
        == GrossShown(s.settings, pressed.value.c, Pick(pressed.value.c, m1, m2))
    ensures !(pressed.Some? && pressed.value.SettingButton? && pressed.value.k == Tare && IsHold(ticks, timeout)) ==>
      r == TapHold(s, pressed, ticks, timeout, m1, m2, zeroReading, softwareZero)
  {
    if pressed.Some? && pressed.value.SettingButton? && pressed.value.k == Tare && IsHold(ticks, timeout) then
      TapHold(s, pressed, ticks, timeout, GrossShown(s.settings, One, m1), GrossShown(s.settings, Two, m2),
              zeroReading, softwareZero)
    else TapHold(s, pressed, ticks, timeout, m1, m2, zeroReading, softwareZero)
  }

  /** As written, a tare hold while a tare is active stores the tared mass:
      a 70.0 g cup under the 68.0 g tare shows 2.0 g, the hold stores 2.0 g,
      and the same cup then shows 68.0 g instead of 0.0 g. */
  lemma TareHoldStoresTaredMass()
    ensures var s := Scale(Shipped, 0, 0);
            var shown := GatedMass(150710, 0, CalibRatio, s.settings.tare1, true);
            var r := TapHold(s, Some(SettingButton(Tare, One)), 20, 1.0, shown, Zero, 0, true);
            shown == Tenths(20) && r.scale.settings.tare1 == Tenths(20)
            && GatedMass(150710, 0, CalibRatio, r.scale.settings.tare1, true) == Tenths(680)
  {
    TaredExample();
    assert 150710 as real * CalibRatio == 700 as real / 10.0;
    RoundOnGrid(700);
  }

  /** With the gross capture, holding tare_N with the load that is on the
      cell makes that load show 0.0 g, whether a tare was active or not. */
  lemma TareHoldZeroesDisplay(s: Scale, c: Chan, ticks: nat, timeout: real,
                              raw: int, ratio: real, other: Grams)
    requires IsHold(ticks, timeout)
    ensures var tare := s.settings.Mass(Tare, c);
            var on := s.settings.On(Tare, c);
            var shown := GatedMass(raw, s.Offset(c), ratio, tare, on);
            var m1 := if c == One then shown else other;
            var m2 := if c == Two then shown else other;
            var r := TapHoldFixed(s, Some(SettingButton(Tare, c)), ticks, timeout, m1, m2, 0, true);
            r.scale.settings.On(Tare, c) == on
            && GatedMass(raw, s.Offset(c), ratio, r.scale.settings.Mass(Tare, c), true) == Zero
  {
  }

  // ---- Persisting through the non-volatile store --------------------------

  /** The store agrees with the live settings: what a fetch returns reads
      back as exactly these settings. */
  predicate InSync(s: Record, m: Medium, defaults: Record)
  {
    Fetch(m, defaults).Ok? && Decode(Fetch(m, defaults).value.cells) == Ok(s)
  }

  datatype Persisted = Persisted(scale: Scale, medium: Medium)

  /** A tap/hold step carried out against the store: a reset hold runs
      `restore_defaults` and then `read_settings`; a tare or alarm press runs
      `write_settings` with the record in field order. Both raise on a board
      without memory. */
  function Commit(step: Step, m: Medium, defaults: Record): (r: Result<Persisted>)
    ensures r.Err? <==> m.Unreadable? && (step.restore || step.persist)
    ensures r.Ok? && step.restore ==> r.value.scale == step.scale.(settings := defaults)
    ensures r.Ok? && !step.restore ==> r.value.scale == step.scale
    ensures r.Ok? && (step.restore || step.persist) ==> InSync(r.value.scale.settings, r.value.medium, defaults)
    ensures !step.restore && !step.persist ==> r == Ok(Persisted(step.scale, m))
  {
    if step.restore then
      var restored :- RestoreDefaults(m, defaults);
      FetchValid(restored, defaults);
      DecodeEncode(defaults);
      var fetched := Fetch(restored, defaults).value;
      Ok(Persisted(step.scale.(settings := Decode(fetched.cells).value), fetched.medium))
    else if step.persist then
      var written :- WriteSettings(m, Encode(step.scale.settings));
      SettingsSurviveRestart(m, step.scale.settings, defaults);
      Ok(Persisted(step.scale, written.medium))
    else
      Ok(Persisted(step.scale, m))
  }

  /** The store and the live settings never drift apart: if they agree
      before a press, they agree after it, whatever the press. */
  lemma DispatchKeepsStoreInSync(s: Scale, m: Medium, defaults: Record, pressed: Option<Name>, ticks: nat,
                                 timeout: real, m1: Grams, m2: Grams, zeroReading: int, softwareZero: bool)
    requires InSync(s.settings, m, defaults)
    ensures var step := TapHold(s, pressed, ticks, timeout, m1, m2, zeroReading, softwareZero);
            Commit(step, m, defaults).Ok? &&
            InSync(Commit(step, m, defaults).value.scale.settings, Commit(step, m, defaults).value.medium, defaults)
  {
  }

  /** A tap on reset changes nothing, in the live state or in the store. */
  lemma ResetTapIsNoOp(s: Scale, m: Medium, defaults: Record, ticks: nat, timeout: real,
                       m1: Grams, m2: Grams, zeroReading: int, softwareZero: bool)
    requires !IsHold(ticks, timeout)
    ensures Commit(TapHold(s, Some(ResetButton), ticks, timeout, m1, m2, zeroReading, softwareZero), m, defaults)
         == Ok(Persisted(s, m))
  {
  }

  // ---- The status line after a press -------------------------------------

  /** The status label once a press has been handled: `zero_channel` and
      `flash_status` both end by setting it to " ", and they run on a zero
      press, on a reset hold and on every tare or alarm press. No press, or
      a reset tap, leaves the label as the frame set it. */
  function StatusAfterPress(status: string, pressed: Option<Name>, ticks: nat, timeout: real): (t: string)
    ensures t == " " || t == status
    ensures pressed.None? || (pressed == Some(ResetButton) && !IsHold(ticks, timeout)) ==> t == status
    ensures pressed.Some? && pressed.value.ZeroButton? ==> t == " "
  {
    match pressed
    case None => status
    case Some(ResetButton) => if IsHold(ticks, timeout) then " " else status
    case Some(_) => " "
  }

  /** A press that reaches the store always blanks the label; one that
      changes neither the store nor an offset leaves it alone. */
  lemma StoreTouchBlanksStatus(s: Scale, status: string, pressed: Option<Name>, ticks: nat, timeout: real,
                               m1: Grams, m2: Grams, zeroReading: int, softwareZero: bool)
    ensures var step := TapHold(s, pressed, ticks, timeout, m1, m2, zeroReading, softwareZero);
            step.restore || step.persist ==> StatusAfterPress(status, pressed, ticks, timeout) == " "
    ensures var step := TapHold(s, pressed, ticks, timeout, m1, m2, zeroReading, softwareZero);
            !step.restore && !step.persist && !(pressed.Some? && pressed.value.ZeroButton?) ==>
              StatusAfterPress(status, pressed, ticks, timeout) == status
  {
  }

  // ---- Persisting to the SD card (bundle_v2.0) ---------------------------

  /** The message flashed after a write: whether the card took it. */
  datatype Notice = Stored | Temporary

  datatype SdOutcome = SdOutcome(scale: Scale, notice: Option<Notice>)

  /** The tap/hold step of bundle_v2.0, whose store is its SD card: a reset
      hold reloads whatever `read_settings` fetches after the card's reset
      (`reloaded`); a tare or alarm press reports the write result as STORED
      or TEMPORARY and keeps the live values either way. */
  function CommitSd(step: Step, reloaded: seq<Cell>, writeOk: bool): (r: Result<SdOutcome>)
    ensures !step.restore ==> r == Ok(SdOutcome(step.scale, if step.persist then Some(if writeOk then Stored else Temporary) else None))
    ensures step.restore ==> (r.Ok? <==> Decode(reloaded).Ok?)
    ensures step.restore && r.Ok? ==> r.value.scale == step.scale.(settings := Decode(reloaded).value)
  {
    if step.restore then
      var settings :- Decode(reloaded);
      Ok(SdOutcome(step.scale.(settings := settings), None))
    else if step.persist then
      Ok(SdOutcome(step.scale, Some(if writeOk then Stored else Temporary)))
    else
      Ok(SdOutcome(step.scale, None))
  }

  /** A failed card write does not undo the change: only the notice differs. */
  lemma WriteResultOnlyChangesNotice(step: Step, reloaded: seq<Cell>)
    requires !step.restore && step.persist
    ensures CommitSd(step, reloaded, true).value.scale == CommitSd(step, reloaded, false).value.scale
    ensures CommitSd(step, reloaded, true).value.notice == Some(Stored)
    ensures CommitSd(step, reloaded, false).value.notice == Some(Temporary)
  {
  }

  // ---- Toggle-with-capture (PyPortal revisions) ---------------------------

  /** A tare press of the PyPortal revisions: the enable flips; turning on
      captures `round(net * ratio, 1)` from a fresh read (with the "-0.0"
      filter); turning off clears the tare to 0.0 when `clearOnDisable`. */
  function ToggleCapture(s: Record, c: Chan, net: int, captureRatio: real, clearOnDisable: bool): (r: Record)
    ensures OnlyChanges(s, r, Tare, c)
    ensures r.On(Tare, c) == !s.On(Tare, c)
    ensures r.On(Tare, c) ==> r.Mass(Tare, c) == Shown(Gross(net, captureRatio))
    ensures !r.On(Tare, c) ==> r.Mass(Tare, c) == if clearOnDisable then Zero else s.Mass(Tare, c)
  {
    var on := !s.On(Tare, c);
    var flipped := s.WithOn(Tare, c, on);
    if on then flipped.WithMass(Tare, c, Shown(Gross(net, captureRatio)))
    else if clearOnDisable then flipped.WithMass(Tare, c, Zero)
    else flipped
  }

  /** PyPortal_Scale_v20/code/code.py as written: both channels capture with
      channel 1's ratio, and only tare 2 is cleared when disabled. Other
      buttons have no handler in this revision. */
  function V20Press(s: Scale, pressed: Option<Name>, raw: int, ratio1: real, zeroReading: int): (r: Scale)
    ensures pressed.Some? && pressed.value.ZeroButton? ==> r == s.WithOffset(pressed.value.c, zeroReading)
    ensures pressed.Some? && pressed.value == SettingButton(Tare, One) ==>
      r == s.(settings := ToggleCapture(s.settings, One, raw - s.zero1, ratio1, false))
    ensures pressed.Some? && pressed.value == SettingButton(Tare, Two) ==>
      r == s.(settings := ToggleCapture(s.settings, Two, raw - s.zero2, ratio1, true))
    ensures pressed.None? || pressed == Some(ResetButton) || (pressed.value.SettingButton? && pressed.value.k == Alarm) ==> r == s
  {
    match pressed
    case Some(ZeroButton(c)) => s.WithOffset(c, zeroReading)
    case Some(SettingButton(Tare, c)) =>
      s.(settings := ToggleCapture(s.settings, c, raw - s.Offset(c), ratio1, c == Two))
    case _ => s
  }

  /** PyPortal_Scale/code/PyPortal_Scale_code.py as written: channel 1's
      ratio for both captures, no clearing at the press (the frame clears a
      disabled tare instead, see ClearDisabled). */
  function PyPortalPress(s: Scale, pressed: Option<Name>, raw: int, ratio1: real, zeroReading: int): (r: Scale)
    ensures pressed.Some? && pressed.value.ZeroButton? ==> r == s.WithOffset(pressed.value.c, zeroReading)
    ensures pressed.Some? && pressed.value.SettingButton? && pressed.value.k == Tare ==>
      r == s.(settings := ToggleCapture(s.settings, pressed.value.c, raw - s.Offset(pressed.value.c), ratio1, false))
    ensures pressed.None? || pressed == Some(ResetButton) || (pressed.value.SettingButton? && pressed.value.k == Alarm) ==> r == s
  {
    match pressed
    case Some(ZeroButton(c)) => s.WithOffset(c, zeroReading)
    case Some(SettingButton(Tare, c)) =>
      s.(settings := ToggleCapture(s.settings, c, raw - s.Offset(c), ratio1, false))
    case _ => s
  }

  /** The per-frame clearing of PyPortal_Scale: a disabled tare's mass is
      set to 0.0 before the frame's subtraction. */
  function ClearDisabled(s: Record): (r: Record)
    ensures forall c :: r.On(Tare, c) == s.On(Tare, c)
    ensures forall c :: r.Mass(Tare, c) == if s.On(Tare, c) then s.Mass(Tare, c) else Zero
    ensures forall c :: r.Mass(Alarm, c) == s.Mass(Alarm, c) && r.On(Alarm, c) == s.On(Alarm, c)
  {
    s.(tare1 := if s.tare1On then s.tare1 else Zero, tare2 := if s.tare2On then s.tare2 else Zero)
  }

  /** The corrected tare press: each channel captures with its own ratio,
      and either tare is cleared when disabled. */
  function V20PressFixed(s: Scale, pressed: Option<Name>, raw: int, ratio1: real, ratio2: real,
                         zeroReading: int): (r: Scale)
    ensures pressed.Some? && pressed.value.ZeroButton? ==> r == s.WithOffset(pressed.value.c, zeroReading)
    ensures pressed.Some? && pressed.value.SettingButton? && pressed.value.k == Tare ==>
      var c := pressed.value.c;
      r == s.(settings := ToggleCapture(s.settings, c, raw - s.Offset(c), if c == One then ratio1 else ratio2, true))
    ensures pressed.None? || pressed == Some(ResetButton) || (pressed.value.SettingButton? && pressed.value.k == Alarm) ==> r == s
  {
    match pressed
    case Some(ZeroButton(c)) => s.WithOffset(c, zeroReading)
    case Some(SettingButton(Tare, c)) =>
      s.(settings := ToggleCapture(s.settings, c, raw - s.Offset(c), if c == One then ratio1 else ratio2, true))
    case _ => s
  }

  /** The ratio the frame uses for channel `c`. */
  function RatioOf(c: Chan, ratio1: real, ratio2: real): real
  {
    if c == One then ratio1 else ratio2
  }

  /** With the corrected press, the tare subtracted by the unconditional
      formula is always the one the enable says: enabling tares the load
      now on the cell to 0.0, and disabling makes the tare contribute
      nothing. */
  lemma V20FixedTareFollowsEnable(s: Scale, c: Chan, raw: int, ratio1: real, ratio2: real, later: int)
    ensures var r := V20PressFixed(s, Some(SettingButton(Tare, c)), raw, ratio1, ratio2, 0);
            var ratio := RatioOf(c, ratio1, ratio2);
            var tare := r.settings.Mass(Tare, c);
            (r.settings.On(Tare, c) ==> UngatedMass(raw, s.Offset(c), ratio, tare) == Zero)
            && (!r.settings.On(Tare, c) ==>
                  UngatedMass(later, s.Offset(c), ratio, tare) == GatedMass(later, s.Offset(c), ratio, tare, false))
  {
    var r := V20PressFixed(s, Some(SettingButton(Tare, c)), raw, ratio1, ratio2, 0);
    var ratio := RatioOf(c, ratio1, ratio2);
    if !r.settings.On(Tare, c) {
      ClearedTareIsGated(later, s.Offset(c), ratio, r.settings.Mass(Tare, c), false);
    }
  }

  /** As written, disabling tare 1 keeps subtracting it: with the 6.4 g
      startup tare of PyPortal_Scale_v20, an empty pan then shows -6.4 g. */
  lemma V20DisabledTare1StillSubtracted()
    ensures var s := Scale(Shipped.(tare1 := Tenths(64), tare1On := true), 0, 0);
            var r := V20Press(s, Some(SettingButton(Tare, One)), 0, CalibRatio, 0);
            !r.settings.tare1On && r.settings.tare1 == Tenths(64)
            && UngatedMass(0, 0, CalibRatio, r.settings.tare1) == Tenths(-64)
  {
    RoundOnGrid(0);
  }

  /** As written, channel 2 captures with channel 1's ratio: with ratios
      0.02 and 0.01 g per count, enabling tare 2 over a 1000-count load
      stores 20.0 g, and the frame then shows -10.0 g instead of 0.0 g. */
  lemma V20Channel2CapturesWithRatio1()
    ensures var s := Scale(Shipped.(tare2On := false), 0, 0);
            var r := V20Press(s, Some(SettingButton(Tare, Two)), 1000, 0.02, 0);
            r.settings.tare2On && r.settings.tare2 == Tenths(200)
            && UngatedMass(1000, 0, 0.01, r.settings.tare2) == Tenths(-100)
  {
    RoundOnGrid(200);
    RoundOnGrid(100);
    assert 1000 as real * 0.02 == 200 as real / 10.0;
    assert 1000 as real * 0.01 == 100 as real / 10.0;
  }

  /** The same ratio slip in PyPortal_Scale. */
  lemma PyPortalChannel2CapturesWithRatio1()
    ensures var s := Scale(Shipped.(tare2On := false), 0, 0);
            var r := PyPortalPress(s, Some(SettingButton(Tare, Two)), 1000, 0.02, 0);
            r.settings.tare2 == Tenths(200) && UngatedMass(1000, 0, 0.01, ClearDisabled(r.settings).tare2) == Tenths(-100)
  {
    RoundOnGrid(200);
    RoundOnGrid(100);
    assert 1000 as real * 0.02 == 200 as real / 10.0;
    assert 1000 as real * 0.01 == 100 as real / 10.0;
  }

  // ---- Re-zero on the Clue ----------------------------------------------

  /** Clue_Scale as written: button A/B re-zeroes into a variable the frame
      never reads, so the offsets stay as they were. What that does to the
      shown mass is ClueRezeroEffect. */
  function ClueRezero(zero1: int, zero2: int, c: Chan, reading: int): (r: (int, int))
    ensures r == (zero1, zero2)
  {
    (zero1, zero2)
  }

  /** The corrected re-zero: the pressed channel's offset is replaced. */
  function ClueRezeroFixed(zero1: int, zero2: int, c: Chan, reading: int): (r: (int, int))
    ensures c == One ==> r == (reading, zero2)
    ensures c == Two ==> r == (zero1, reading)
  {
    if c == One then (reading, zero2) else (zero1, reading)
  }

  /** `after` is the no-load raw reading that `zero_channel` takes once
      `calibrate('INTERNAL')` and `calibrate('OFFSET')` have run; how far the
      converter's offset calibration moves later raw readings is not known
      here. The corrected re-zero shows 0.0 g whatever `after` is. As written
      the shown mass is the gross of `after - zero1`: when the calibration
      absorbs the drift (`after == zero1`) nothing is visible, and when the
      no-load reading still differs from the start-up zero by 2153 counts the
      unloaded cell shows 1.0 g. */
  lemma ClueRezeroEffect(zero1: int, zero2: int, after: int, ratio: real)
    ensures ClueMass(after, ClueRezeroFixed(zero1, zero2, One, after).0, ratio) == Zero
    ensures after == zero1 ==> ClueMass(after, ClueRezero(zero1, zero2, One, after).0, ratio) == Zero
    ensures after == zero1 + 2153 ==>
      ClueMass(after, ClueRezero(zero1, zero2, One, after).0, CalibRatio) == Tenths(10)
  {
    RoundOnGrid(0);
    if after == zero1 + 2153 {
      assert 2153 as real * CalibRatio == 10 as real / 10.0;
      RoundOnGrid(10);
    }
  }
}
