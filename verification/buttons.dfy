/** The touch-button panel (`ScaleButtons` in cedargrove_scale/buttons*.py):
    the button-hold timeout and `read_buttons`, which reports which button
    was touched and how long it was held.

    The touchscreen is seen as one initial touch point and then a stream of
    polls of `touch_point`, each true while the screen is still touched; a
    stream that runs out counts as released. Each poll inside the hold loop
    is preceded by a 0.1 s sleep, so the hold time is a whole number of
    ticks of 0.1 s. */
module Buttons {
  import opened Faults
  import opened Settings

  datatype Name = ResetButton | ZeroButton(c: Chan) | SettingButton(k: Kind, c: Chan)

  type Point = (int, int)

  /** A button: its name and the touch points its outline contains. */
  datatype Button = Button(name: Name, region: set<Point>)

  /** The panel the scale builds: the hold timeout in seconds and the
      buttons in list order. */
  datatype Panel = Panel(timeout: real, buttons: seq<Button>)

  /** The order the panel constructor appends its buttons in. */
  const ButtonOrder: seq<Name> := [
    ResetButton, ZeroButton(One), ZeroButton(Two),
    SettingButton(Tare, One), SettingButton(Tare, Two),
    SettingButton(Alarm, One), SettingButton(Alarm, Two)]

  /** The constructor: it raises RuntimeError without a touchscreen. The
      timeout argument is stored as given, without the setter's check. */
  function NewPanel(hasTouchscreen: bool, timeout: real, regions: seq<set<Point>>): (r: Result<Panel>)
    requires |regions| == |ButtonOrder|
    ensures r.Err? <==> !hasTouchscreen
    ensures r.Err? ==> r.fault == RuntimeError
    ensures r.Ok? ==> r.value.timeout == timeout && |r.value.buttons| == |ButtonOrder|
    ensures r.Ok? ==> forall i :: 0 <= i < |ButtonOrder| ==> r.value.buttons[i] == Button(ButtonOrder[i], regions[i])
  {
    if !hasTouchscreen then Err(RuntimeError)
    else Ok(Panel(timeout, seq(|ButtonOrder|, i requires 0 <= i < |ButtonOrder| => Button(ButtonOrder[i], regions[i]))))
  }

  /** The `timeout` setter: a value outside [0, 10) is refused and the
      previous timeout kept. */
  function SetTimeout(current: real, requested: real): (t: real)
    ensures 0.0 <= requested < 10.0 ==> t == requested
    ensures !(0.0 <= requested < 10.0) ==> t == current
  {
    if requested < 0.0 || requested >= 10.0 then current else requested
  }

  /** The setter keeps a timeout that starts in range in range. */
  lemma SetTimeoutKeepsRange(current: real, requested: real)
    requires 0.0 <= current < 10.0
    ensures 0.0 <= SetTimeout(current, requested) < 10.0
  {
  }

  /** The constructor does not apply the setter's range, so a panel can be
      built with a timeout the setter would refuse. */
  lemma ConstructorSkipsRange(regions: seq<set<Point>>)
    requires |regions| == |ButtonOrder|
    ensures NewPanel(true, 12.0, regions).Ok? && NewPanel(true, 12.0, regions).value.timeout == 12.0
    ensures SetTimeout(1.0, 12.0) == 1.0
  {
  }

  /** `touch_point` is truthy at poll `k`. */
  predicate Touched(polls: seq<bool>, k: nat)
  {
    k < |polls| && polls[k]
  }

  /** The number of consecutive touched polls from poll `k` on. */
  function Run(polls: seq<bool>, k: nat): (n: nat)
    ensures forall j :: k <= j < k + n ==> Touched(polls, j)
    ensures !Touched(polls, k + n)
    decreases |polls| - k
  {
    if Touched(polls, k) then 1 + Run(polls, k + 1) else 0
  }

  /** How many buttons' outlines contain the touch point. */
  function Matches(buttons: seq<Button>, touch: Option<Point>): nat
  {
    if |buttons| == 0 || touch.None? then 0
    else Matches(buttons[..|buttons| - 1], touch) + (if touch.value in buttons[|buttons| - 1].region then 1 else 0)
  }

  /** The last button in list order whose outline contains the touch point. */
  function LastContaining(buttons: seq<Button>, touch: Option<Point>): (r: Option<Name>)
    ensures r.None? <==> Matches(buttons, touch) == 0
  {
    if |buttons| == 0 || touch.None? then None
    else if touch.value in buttons[|buttons| - 1].region then Some(buttons[|buttons| - 1].name)
    else LastContaining(buttons[..|buttons| - 1], touch)
  }

  /** The hold time in seconds of `ticks` polls of 0.1 s. */
  function Seconds(ticks: nat): real
  {
    ticks as real / 10.0
  }

  /** Whether a press whose hold loop counted `ticks` polls sounds the
      timeout tone: the comparison runs after each tick. */
  predicate Beeps(ticks: nat, timeout: real)
    ensures Beeps(ticks, timeout) <==> ticks > 0 && ticks as real >= 10.0 * timeout
    ensures timeout <= 0.1 ==> (Beeps(ticks, timeout) <==> ticks > 0)
  {
    ticks >= 1 && Seconds(ticks) >= timeout
  }

  /** What `read_buttons` reports. */
  datatype Reading = Reading(pressed: Option<Name>, ticks: nat, tones: nat)

  /** `read_buttons`. Every button whose outline contains the initial touch
      point is selected in turn, its name recorded, and the touch polled
      until release; the timeout tone sounds at most once per button. */
  method ReadButtons(buttons: seq<Button>, touch: Option<Point>, polls: seq<bool>, timeout: real)
    returns (r: Reading)
    ensures r.pressed == LastContaining(buttons, touch)
    ensures touch.None? || Matches(buttons, touch) == 0 ==> r == Reading(None, 0, 0)
    ensures r.tones <= Matches(buttons, touch)
    ensures Matches(buttons, touch) == 1 ==>
      r.ticks == Run(polls, 0) && (r.tones == 1 <==> Beeps(Run(polls, 0), timeout))
  {
    var pressed: Option<Name> := None;
    var ticks: nat := 0;
    var tones: nat := 0;
    var used: nat := 0;
    var i := 0;
    while i < |buttons|
      invariant 0 <= i <= |buttons|
      invariant pressed == LastContaining(buttons[..i], touch)
      invariant tones <= Matches(buttons[..i], touch)
      invariant Matches(buttons[..i], touch) == 0 ==> ticks == 0 && used == 0 && tones == 0
      invariant Matches(buttons[..i], touch) == 1 ==>
        ticks == Run(polls, 0) && used == Run(polls, 0) + 1 && (tones == 1 <==> Beeps(ticks, timeout))
    {
      assert buttons[..i + 1][..i] == buttons[..i];
      if touch.Some? && touch.value in buttons[i].region {
        pressed := Some(buttons[i].name);
        var start := used;
        var startTicks := ticks;
        var startTones := tones;
        var beeped := false;
        var touching := Touched(polls, used);
        used := used + 1;
        while touching
          invariant used >= start + 1
          invariant touching == Touched(polls, used - 1)
          invariant ticks == startTicks + (used - 1 - start)
          invariant Run(polls, start) == (used - 1 - start) + Run(polls, used - 1)
          invariant beeped == (ticks > startTicks && Seconds(ticks) >= timeout)
          invariant tones == startTones + (if beeped then 1 else 0)
          decreases |polls| + 1 - used
        {
          ticks := ticks + 1;
          if Seconds(ticks) >= timeout && !beeped {
            tones := tones + 1;
            beeped := true;
          }
          touching := Touched(polls, used);
          used := used + 1;
        }
      }
      i := i + 1;
    }
    assert buttons[..i] == buttons;
    r := Reading(pressed, ticks, tones);
  }

  /** The dispatchers' classification: a press is a hold when its hold time
      exceeds the timeout, and a tap otherwise (`hold_time <= timeout`). */
  predicate IsHold(ticks: nat, timeout: real)
    ensures IsHold(ticks, timeout) <==> ticks as real > 10.0 * timeout
    ensures timeout >= 0.0 ==> (IsHold(ticks, timeout) ==> ticks > 0)
  {
    Seconds(ticks) > timeout
  }

  /** Every hold of at least one tick has sounded the timeout tone. */
  lemma HoldSoundsTone(ticks: nat, timeout: real)
    requires ticks >= 1 && IsHold(ticks, timeout)
    ensures Beeps(ticks, timeout)
  {
  }

  /** The tone and the classification use different comparisons: a press
      held exactly as long as the timeout sounds the tone and still counts
      as a tap. With a 0.5 s timeout five additions of 0.1 land exactly on
      0.5 in binary floating point too. */
  lemma ToneAtTimeoutIsTap()
    ensures Beeps(5, 0.5) && !IsHold(5, 0.5)
  {
  }

  /** Holding longer never turns a hold back into a tap. */
  lemma HoldIsMonotone(ticks: nat, more: nat, timeout: real)
    requires IsHold(ticks, timeout) && ticks <= more
    ensures IsHold(more, timeout)
  {
  }
}
