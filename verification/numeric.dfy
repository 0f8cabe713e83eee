/** Integer and real arithmetic as the scale's Python code performs it:
    `int(a / b)` truncates toward zero, and `round(x, 1)` rounds to the
    nearest tenth with ties going to the even neighbour. Dafny's own `/` on
    `int` is Euclidean, so both are defined here explicitly. */
module Numeric {

  function Abs(n: int): nat
  {
    if n < 0 then -n else n
  }

  /** `int(n / d)` in Python: the exact quotient truncated toward zero. */
  function TruncDiv(n: int, d: int): (q: int)
    requires d != 0
    ensures Abs(q) * Abs(d) <= Abs(n) < (Abs(q) + 1) * Abs(d)
    ensures q == 0 || ((q < 0) <==> ((n < 0) != (d < 0)))
  {
    var m := Abs(n) / Abs(d);
    EuclideanBounds(Abs(n), Abs(d));
    if (n < 0) != (d < 0) then -m else m
  }

  lemma EuclideanBounds(a: nat, b: nat)
    requires b > 0
    ensures (a / b) * b <= a < (a / b + 1) * b
  {
    var m, r := a / b, a % b;
    assert a == m * b + r && 0 <= r < b;
    assert (m + 1) * b == m * b + b;
  }

  /** Truncation is odd-symmetric, which Euclidean and floor division are not. */
  lemma TruncDivNegate(n: int, d: int)
    requires d != 0
    ensures TruncDiv(-n, d) == -TruncDiv(n, d)
  {
  }

  /** For a non-negative dividend and a positive divisor the three divisions agree. */
  lemma TruncDivNonNegative(n: nat, d: int)
    requires d > 0
    ensures TruncDiv(n, d) == n / d
  {
  }

  /** The quotient is never farther from zero than the exact real quotient. */
  lemma TruncDivTowardZero(n: int, d: int)
    requires d != 0
    ensures Abs(TruncDiv(n, d)) as real <= Abs(n) as real / Abs(d) as real
  {
    var q := TruncDiv(n, d);
    assert Abs(q) * Abs(d) <= Abs(n);
    assert (Abs(q) * Abs(d)) as real == Abs(q) as real * Abs(d) as real;
  }

  /** Where truncation and Dafny's Euclidean division part ways. */
  lemma TruncDivDiffersFromEuclidean()
    ensures TruncDiv(-7, 2) == -3 && -7 / 2 == -4
  {
  }

  /** The integer nearest to `y`, ties to the even integer (Python's `round`). */
  function RoundHalfEven(y: real): (k: int)
    ensures -0.5 <= k as real - y <= 0.5
    ensures (k as real - y == 0.5 || y - k as real == 0.5) ==> k % 2 == 0
  {
    var f := y.Floor;
    var frac := y - f as real;
    if frac < 0.5 then f
    else if frac > 0.5 then f + 1
    else if f % 2 == 0 then f
    else f + 1
  }

  /** The two ensures of RoundHalfEven pin its result down: any integer that
      meets them is the result. */
  lemma RoundHalfEvenUnique(y: real, k: int)
    requires -0.5 <= k as real - y <= 0.5
    requires (k as real - y == 0.5 || y - k as real == 0.5) ==> k % 2 == 0
    ensures RoundHalfEven(y) == k
  {
  }

  lemma RoundHalfEvenOfInteger(k: int)
    ensures RoundHalfEven(k as real) == k
  {
    RoundHalfEvenUnique(k as real, k);
  }
}
