/** Channel mass evaluation: from an averaged raw reading to the mass the
    scale displays. Every revision computes `round(counts * ratio, 1)` and
    then subtracts a tare; they differ in what `counts` is (the raw reading
    minus a software zero offset, or the raw reading alone), in whether the
    tare is subtracted only while enabled, and in whether the "-0.0" text
    filter runs afterwards. */
module Channel {
  import opened Numeric
  import opened Mass

  /** The calibration of configuration.py: 215300 raw counts per 100 g test
      mass, for both channels. */
  const ChanRawValue: int := 215300
  const ChanTestMassGr: int := 100
  const CalibRatio: real := ChanTestMassGr as real / ChanRawValue as real

  /** `round(counts * ratio, 1)`: the gross mass of a net raw count. */
  function Gross(counts: int, ratio: real): (g: Grams)
    ensures -0.05 <= g.Value() as real / 10.0 - counts as real * ratio <= 0.05
    ensures g.MinusZero? <==> (counts as real * ratio < 0.0 && g.Value() == 0)
  {
    Round(counts as real * ratio)
  }

  /** The calibration point: a net reading of 215300 counts is 100.0 g. */
  lemma CalibrationPoint()
    ensures Gross(ChanRawValue, CalibRatio) == Tenths(1000)
  {
    assert ChanRawValue as real * CalibRatio == 1000 as real / 10.0;
    RoundOnGrid(1000);
  }

  /** What is subtracted when the tare is gated by its enable: the tare mass,
      or the integer 0 (which behaves as +0.0). */
  function TareTerm(tare: Grams, on: bool): (t: Grams)
    ensures t.Value() == (if on then tare.Value() else 0)
    ensures !on ==> t == Zero
  {
    if on then tare else Zero
  }

  /** `round((raw - zero) * ratio, 1) - tare`, the tare gated by its enable,
      then the "-0.0" filter: the formula of the generic bundle, bundle_v2.0,
      code/, bundle/, archive/bundle_v1.0 and in-progress_bundle. The shown
      mass is within 0.05 g of the exact net mass. */
  function GatedMass(raw: int, zero: int, ratio: real, tare: Grams, on: bool): (m: Grams)
    ensures !m.MinusZero?
    ensures -0.05 <= m.Value() as real / 10.0
                     - ((raw - zero) as real * ratio - TareTerm(tare, on).Value() as real / 10.0) <= 0.05
  {
    Shown(Minus(Gross(raw - zero, ratio), TareTerm(tare, on)))
  }

  /** The newest revision: the converter's own offset calibration replaces
      the software zero, so the raw reading is scaled directly. */
  function MassNoOffset(raw: int, ratio: real, tare: Grams, on: bool): (m: Grams)
    ensures !m.MinusZero?
    ensures -0.05 <= m.Value() as real / 10.0
                     - (raw as real * ratio - TareTerm(tare, on).Value() as real / 10.0) <= 0.05
  {
    Shown(Minus(Gross(raw, ratio), TareTerm(tare, on)))
  }

  /** The PyPortal revisions: the tare mass is subtracted whatever its
      enable says. */
  function UngatedMass(raw: int, zero: int, ratio: real, tare: Grams): (m: Grams)
    ensures !m.MinusZero?
    ensures -0.05 <= m.Value() as real / 10.0
                     - ((raw - zero) as real * ratio - tare.Value() as real / 10.0) <= 0.05
  {
    Shown(Minus(Gross(raw - zero, ratio), tare))
  }

  /** The Clue revision: no tare and no "-0.0" filter; the displayed value
      is the gross mass itself. */
  function ClueMass(raw: int, zero: int, ratio: real): (m: Grams)
    ensures -0.05 <= m.Value() as real / 10.0 - (raw - zero) as real * ratio <= 0.05
  {
    Gross(raw - zero, ratio)
  }

  /** A disabled tare has no effect: the mass does not depend on it. */
  lemma DisabledTareIgnored(raw: int, zero: int, ratio: real, t: Grams, t': Grams)
    ensures GatedMass(raw, zero, ratio, t, false) == GatedMass(raw, zero, ratio, t', false)
  {
  }

  /** Enabling a tare lowers the shown mass by exactly the tare. */
  lemma EnabledTareShifts(raw: int, zero: int, ratio: real, t: Grams)
    ensures GatedMass(raw, zero, ratio, t, true).Value()
         == GatedMass(raw, zero, ratio, t, false).Value() - t.Value()
  {
  }

  /** The zero offset is all that separates the two formulas: the newest
      revision is the offset formula with a zero offset of 0. */
  lemma NoOffsetIsZeroOffset(raw: int, ratio: real, t: Grams, on: bool)
    ensures MassNoOffset(raw, ratio, t, on) == GatedMass(raw, 0, ratio, t, on)
  {
  }

  /** PyPortal_Scale clears a disabled tare to 0.0 at the start of every
      frame, so its unconditional subtraction behaves as the gated one. */
  lemma ClearedTareIsGated(raw: int, zero: int, ratio: real, t: Grams, on: bool)
    ensures UngatedMass(raw, zero, ratio, if on then t else Zero) == GatedMass(raw, zero, ratio, t, on)
  {
  }

  /** A freshly zeroed, unloaded channel shows 0.0 when its tare is off. */
  lemma UnloadedShowsZero(zero: int, ratio: real, t: Grams)
    ensures GatedMass(zero, zero, ratio, t, false) == Zero
  {
    RoundOnGrid(0);
  }

  /** A 70.0 g load under a 68.0 g tare (the default of code/ and v3.0 v8)
      shows 2.0 g. */
  lemma TaredExample()
    ensures GatedMass(150710, 0, CalibRatio, Tenths(680), true) == Tenths(20)
  {
    assert 150710 as real * CalibRatio == 700 as real / 10.0;
    RoundOnGrid(700);
  }

  /** Without the filter, the Clue display can show "-0.0": one raw count
      below the zero offset rounds to negative zero, which the filtered
      formula shows as 0.0. */
  lemma ClueShowsMinusZero()
    ensures ClueMass(-1, 0, CalibRatio) == MinusZero
    ensures Str(ClueMass(-1, 0, CalibRatio)) == "-0.0"
    ensures GatedMass(-1, 0, CalibRatio, Zero, false) == Zero
  {
    var y := (-1) as real * CalibRatio * 10.0;
    RoundHalfEvenUnique(y, 0);
  }

  /** `MIN_GR = -(MAX_GR // 5)`; the divisor is positive, so Python's floor
      division and Dafny's Euclidean division agree. */
  function MinGr(maxGr: int): (lo: int)
    ensures maxGr >= 0 ==> -(maxGr / 5) == lo <= 0
    ensures 5 * (-lo) <= maxGr < 5 * (-lo) + 5
  {
    -(maxGr / 5)
  }

  lemma MinGrExample()
    ensures MinGr(100) == -20
  {
  }

  /** The needle-colour flag: the mass lies outside [minGr, maxGr] grams.
      A mass of exactly a bound is in range. */
  predicate OutOfRange(m: Grams, minGr: int, maxGr: int)
    ensures minGr <= 0 <= maxGr && m.Value() == 0 ==> !OutOfRange(m, minGr, maxGr)
    ensures OutOfRange(m, minGr, maxGr) && minGr <= 0 < m.Value() ==> m.Value() > 10 * maxGr
  {
    m.Value() as real / 10.0 > maxGr as real || m.Value() as real / 10.0 < minGr as real
  }

  lemma OutOfRangeInTenths(m: Grams, minGr: int, maxGr: int)
    ensures OutOfRange(m, minGr, maxGr) <==> !(minGr * 10 <= m.Value() <= maxGr * 10)
  {
  }

  lemma OutOfRangeBounds()
    ensures !OutOfRange(Tenths(1000), MinGr(100), 100) && OutOfRange(Tenths(1001), MinGr(100), 100)
    ensures !OutOfRange(Tenths(-200), MinGr(100), 100) && OutOfRange(Tenths(-201), MinGr(100), 100)
    ensures !OutOfRange(MinusZero, MinGr(100), 100)
  {
  }
}
