/** Masses as the scale's code holds them: Python floats produced by
    `round(x, 1)`, i.e. whole tenths of a gram, including the negative zero
    `-0.0` that rounding a small negative reading yields and that the display
    code filters out by comparing `str(mass)` with "-0.0". */
module Mass {
  import opened Numeric

  /** A float on the 0.1 g grid: `Tenths(n)` is n / 10 grams (and `Tenths(0)`
      is +0.0); `MinusZero` is -0.0. */
  datatype Grams = Tenths(n: int) | MinusZero {

    /** The numeric value in tenths of a gram; -0.0 and +0.0 are both 0. */
    function Value(): int
    {
      if MinusZero? then 0 else n
    }
  }

  const Zero: Grams := Tenths(0)

  /** `round(x, 1)`: the nearest tenth (ties to even), and -0.0 when a
      negative `x` rounds to zero. */
  function Round(x: real): (g: Grams)
    ensures -0.05 <= g.Value() as real / 10.0 - x <= 0.05
    ensures g.MinusZero? <==> (x < 0.0 && g.Value() == 0)
  {
    var k := RoundHalfEven(x * 10.0);
    if k == 0 && x < 0.0 then MinusZero else Tenths(k)
  }

  /** Rounding a value already on the grid changes nothing. */
  lemma RoundOnGrid(n: int)
    ensures Round(n as real / 10.0) == Tenths(n)
  {
    assert n as real / 10.0 * 10.0 == n as real;
    RoundHalfEvenOfInteger(n);
  }

  /** Float subtraction `a - b` of two grid values, taken on the grid: the
      result is the difference in tenths, and it is -0.0 only for
      (-0.0) - (+0.0), as IEEE 754 rounding-to-nearest gives. The binary
      difference itself can miss the grid by a rounding error (87.3 - 68.0
      is 19.299999999999997); the model does not carry that error. */
  function Minus(a: Grams, b: Grams): (r: Grams)
    ensures r.Value() == a.Value() - b.Value()
    ensures r.MinusZero? <==> (a.MinusZero? && b == Zero)
  {
    if a.MinusZero? && b.Tenths? && b.n == 0 then MinusZero
    else Tenths(a.Value() - b.Value())
  }

  function DigitChar(d: nat): char
    requires d < 10
  {
    (48 + d) as char
  }

  /** Decimal digits of a natural number, most significant first. */
  function Digits(m: nat): (s: string)
    ensures |s| >= 1
    ensures m < 10 <==> |s| == 1
    decreases m
  {
    if m < 10 then [DigitChar(m)] else Digits(m / 10) + [DigitChar(m % 10)]
  }

  /** Python's `str` of a grid float, e.g. "19.4", "-2.5", "0.0", "-0.0". */
  function Str(g: Grams): (s: string)
    ensures |s| >= 3 && s[|s| - 2] == '.'
    ensures s[0] == '-' <==> g.MinusZero? || g.Value() < 0
  {
    match g
    case MinusZero => "-0.0"
    case Tenths(n) =>
      DigitsLead(Abs(n) / 10);
      (if n < 0 then "-" else "") + Digits(Abs(n) / 10) + "." + [DigitChar(Abs(n) % 10)]
  }

  /** The text "-0.0" is produced by negative zero and by nothing else. */
  lemma {:induction false} StrMinusZeroText(g: Grams)
    ensures Str(g) == "-0.0" <==> g.MinusZero?
  {
    if g.Tenths? {
      var n := g.n;
      var ds := Digits(Abs(n) / 10);
      var tail := "." + [DigitChar(Abs(n) % 10)];
      if n < 0 {
        assert Str(g) == "-" + ds + tail;
        if |ds| == 1 {
          assert Abs(n) / 10 < 10 && ds == [DigitChar(Abs(n) / 10)];
          assert Str(g)[1] == DigitChar(Abs(n) / 10);
          assert Str(g)[3] == DigitChar(Abs(n) % 10);
          assert Abs(n) / 10 != 0 || Abs(n) % 10 != 0;
          assert Str(g)[1] != '0' || Str(g)[3] != '0';
        } else {
          assert |Str(g)| != 4;
        }
      } else {
        assert Str(g) == ds + tail;
        DigitsLead(Abs(n) / 10);
        assert Str(g)[0] == ds[0] != '-';
      }
    }
  }

  /** No decimal expansion starts with a minus sign. */
  lemma {:induction false} DigitsLead(m: nat)
    ensures '0' <= Digits(m)[0] <= '9'
    decreases m
  {
    if m >= 10 {
      DigitsLead(m / 10);
      assert Digits(m)[0] == Digits(m / 10)[0];
    }
  }

  /** The display filter `if str(m) == "-0.0": m = 0.0`. */
  function Shown(g: Grams): (r: Grams)
    ensures r.Value() == g.Value()
    ensures !r.MinusZero?
    ensures g.Tenths? ==> r == g
  {
    StrMinusZeroText(g);
    if Str(g) == "-0.0" then Zero else g
  }

  /** `bool(g)`: zero of either sign is false. */
  predicate Truthy(g: Grams)
  {
    g.Value() != 0
  }
}
