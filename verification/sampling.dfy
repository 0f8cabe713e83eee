/** Raw-sample averaging (`read(samples)` of every scale script). The
    load-cell converter is seen as a stream of polls: on each poll it either
    has a conversion ready, with its raw reading, or it has not.

    Two variants exist. The non-blocking one polls exactly `samples` times,
    adds the readings that were ready and still divides by `samples`. The
    blocking one of the newest revision waits until `samples` readings have
    been taken. Both return `int(sum / samples)`, which truncates toward
    zero. */
module Sampling {
  import opened Numeric
  import opened Faults

  datatype Poll = Ready(reading: int) | NotReady

  /** `Config.SAMPLE_AVG`, the default sample count, also used for zeroing. */
  const SampleAvg: nat := 100

  function Sum(xs: seq<int>): int
  {
    if |xs| == 0 then 0 else Sum(xs[..|xs| - 1]) + xs[|xs| - 1]
  }

  /** The readings of the ready polls, in order. */
  function Readings(polls: seq<Poll>): (xs: seq<int>)
    ensures |xs| <= |polls|
  {
    if |polls| == 0 then []
    else
      var last := polls[|polls| - 1];
      Readings(polls[..|polls| - 1]) + (if last.Ready? then [last.reading] else [])
  }

  /** `int(total / samples)` where `total` is a sum of raw integers: a zero
      divisor raises, any other is a truncating division. */
  function Average(total: int, samples: int): (r: Result<int>)
    ensures r.Err? <==> samples == 0
    ensures r.Err? ==> r.fault == ZeroDivisionError
    ensures r.Ok? ==> Abs(r.value) * Abs(samples) <= Abs(total) < (Abs(r.value) + 1) * Abs(samples)
  {
    if samples == 0 then Err(ZeroDivisionError) else Ok(TruncDiv(total, samples))
  }

  /** What the non-blocking read returns for the first `samples` polls; a
      non-positive count means the loop never runs and the sum stays 0. */
  function SkippingRead(polls: seq<Poll>, samples: int): Result<int>
    requires samples <= |polls|
  {
    Average(Sum(Readings(polls[..if samples < 0 then 0 else samples])), samples)
  }

  /** What the blocking read returns: the first `samples` ready readings. */
  function BlockingRead(polls: seq<Poll>, samples: int): Result<int>
    requires samples <= |Readings(polls)|
  {
    Average(Sum(Readings(polls)[..if samples < 0 then 0 else samples]), samples)
  }

  /** The non-blocking read. The loop adds a poll's reading only when it was
      ready; the divisor is always `samples`. */
  method ReadSkipping(polls: seq<Poll>, samples: int) returns (r: Result<int>)
    requires samples <= |polls|
    ensures r == SkippingRead(polls, samples)
  {
    var sum := 0;
    var i := 0;
    while i < samples
      invariant 0 <= i <= |polls|
      invariant i <= (if samples < 0 then 0 else samples)
      invariant sum == Sum(Readings(polls[..i]))
    {
      if polls[i].Ready? {
        sum := sum + polls[i].reading;
      }
      ReadingsStep(polls, i);
      i := i + 1;
    }
    if samples == 0 {
      r := Err(ZeroDivisionError);
    } else {
      r := Ok(TruncDiv(sum, samples));
    }
  }

  /** The busy-wait on `available()`: skips the polls with no conversion
      ready. While readings remain ahead, a ready poll is found and nothing
      is read on the way. */
  method WaitReady(polls: seq<Poll>, start: nat) returns (i: nat)
    requires start <= |polls| && |Readings(polls[..start])| < |Readings(polls)|
    ensures start <= i < |polls| && polls[i].Ready?
    ensures Readings(polls[..i]) == Readings(polls[..start])
  {
    i := start;
    ReadingsAhead(polls, i);
    while !polls[i].Ready?
      invariant start <= i < |polls|
      invariant Readings(polls[..i]) == Readings(polls[..start])
      decreases |polls| - i
    {
      ReadingsStep(polls, i);
      i := i + 1;
      ReadingsAhead(polls, i);
    }
  }

  /** The blocking read. The outer loop takes one reading per pass; the
      caller supplies a stream that holds enough ready polls (the wait
      terminating is a property of the hardware, not of this code). */
  method ReadBlocking(polls: seq<Poll>, samples: int) returns (r: Result<int>, used: nat)
    requires samples <= |Readings(polls)|
    ensures r == BlockingRead(polls, samples)
    ensures used <= |polls|
    ensures samples > 0 ==> |Readings(polls[..used])| == samples && polls[used - 1].Ready?
    ensures samples <= 0 ==> used == 0
  {
    var sum := 0;
    var count := samples;
    used := 0;
    while count > 0
      invariant 0 <= used <= |polls|
      invariant count <= 0 ==> count == samples || count == 0
      invariant |Readings(polls[..used])| == (if count > 0 then samples - count else if samples > 0 then samples else 0)
      invariant sum == Sum(Readings(polls[..used]))
      invariant samples > 0 && count < samples ==> used > 0 && polls[used - 1].Ready?
      invariant samples <= 0 ==> used == 0
      invariant Readings(polls[..used]) == Readings(polls)[..|Readings(polls[..used])|]
      decreases count
    {
      used := WaitReady(polls, used);
      ReadingsStep(polls, used);
      sum := sum + polls[used].reading;
      count := count - 1;
      used := used + 1;
      ReadingsPrefix(polls, used);
    }
    if samples == 0 {
      r := Err(ZeroDivisionError);
    } else {
      r := Ok(TruncDiv(sum, samples));
    }
  }

  /** Extending a prefix by one poll adds that poll's reading, if any. */
  lemma ReadingsStep(polls: seq<Poll>, i: nat)
    requires i < |polls|
    ensures Readings(polls[..i + 1])
         == Readings(polls[..i]) + (if polls[i].Ready? then [polls[i].reading] else [])
    ensures Sum(Readings(polls[..i + 1]))
         == Sum(Readings(polls[..i])) + (if polls[i].Ready? then polls[i].reading else 0)
  {
    assert polls[..i + 1][..i] == polls[..i];
    var xs := Readings(polls[..i + 1]);
    var ys := Readings(polls[..i]);
    if polls[i].Ready? {
      assert xs == ys + [polls[i].reading];
      assert xs[..|xs| - 1] == ys;
      assert Sum(xs) == Sum(ys) + polls[i].reading;
    } else {
      assert xs == ys;
    }
  }

  /** Once every poll has been consumed, every reading has been taken; so
      while fewer have been taken, there is another poll to wait on. */
  lemma ReadingsAhead(polls: seq<Poll>, i: nat)
    requires i <= |polls|
    ensures i == |polls| ==> Readings(polls[..i]) == Readings(polls)
  {
    if i == |polls| {
      assert polls[..i] == polls;
    }
  }

  /** The readings of a prefix of the polls are a prefix of all readings;
      once a prefix holds `k` readings, more polls cannot change them. */
  lemma {:induction false} ReadingsPrefix(polls: seq<Poll>, i: nat)
    requires i <= |polls|
    ensures |Readings(polls[..i])| <= |Readings(polls)|
    ensures Readings(polls[..i]) == Readings(polls)[..|Readings(polls[..i])|]
    decreases |polls| - i
  {
    if i == |polls| {
      assert polls[..i] == polls;
    } else {
      ReadingsPrefix(polls, i + 1);
      ReadingsStep(polls, i);
    }
  }

  /** Unavailable samples count as zero readings in the non-blocking read:
      it equals the blocking read over the polls with every missed
      conversion replaced by a ready 0. */
  function ZeroFilled(polls: seq<Poll>): (q: seq<Poll>)
    ensures |q| == |polls|
    ensures forall i :: 0 <= i < |q| ==> q[i] == (if polls[i].Ready? then polls[i] else Ready(0))
  {
    seq(|polls|, i requires 0 <= i < |polls| => if polls[i].Ready? then polls[i] else Ready(0))
  }

  lemma {:induction false} ZeroFilledReadings(polls: seq<Poll>)
    ensures |Readings(ZeroFilled(polls))| == |polls|
    ensures Sum(Readings(ZeroFilled(polls))) == Sum(Readings(polls))
    decreases |polls|
  {
    if |polls| > 0 {
      var n := |polls| - 1;
      var front := polls[..n];
      ZeroFilledReadings(front);
      assert ZeroFilled(polls)[..n] == ZeroFilled(front);
      var zs := Readings(ZeroFilled(polls));
      assert zs == Readings(ZeroFilled(front)) + [ZeroFilled(polls)[n].reading];
      assert zs[..|zs| - 1] == Readings(ZeroFilled(front));
      var xs := Readings(polls);
      if polls[n].Ready? {
        assert xs[..|xs| - 1] == Readings(front);
      } else {
        assert xs == Readings(front);
      }
    }
  }

  lemma ReadingsAll(polls: seq<Poll>)
    requires forall i :: 0 <= i < |polls| ==> polls[i].Ready?
    ensures |Readings(polls)| == |polls|
  {
    if |polls| > 0 {
      ReadingsAll(polls[..|polls| - 1]);
    }
  }

  lemma SkippingIsZeroFilledBlocking(polls: seq<Poll>, samples: int)
    requires samples <= |polls|
    ensures samples <= |Readings(ZeroFilled(polls))|
    ensures SkippingRead(polls, samples) == BlockingRead(ZeroFilled(polls), samples)
  {
    var k := if samples < 0 then 0 else samples;
    ZeroFilledReadings(polls[..k]);
    ZeroFilledReadings(polls);
    assert ZeroFilled(polls[..k]) == ZeroFilled(polls)[..k];
    ReadingsPrefix(ZeroFilled(polls), k);
  }

  /** When every conversion is ready the two variants agree. */
  lemma AllReadyAgree(polls: seq<Poll>, samples: int)
    requires samples <= |polls|
    requires forall i :: 0 <= i < |polls| ==> polls[i].Ready?
    ensures samples <= |Readings(polls)|
    ensures SkippingRead(polls, samples) == BlockingRead(polls, samples)
  {
    ReadingsAll(polls);
    SkippingIsZeroFilledBlocking(polls, samples);
    assert ZeroFilled(polls) == polls;
  }

  lemma {:induction false} SumBounds(xs: seq<int>, lo: int, hi: int)
    requires forall i :: 0 <= i < |xs| ==> lo <= xs[i] <= hi
    ensures |xs| * lo <= Sum(xs) <= |xs| * hi
    decreases |xs|
  {
    if |xs| > 0 {
      SumBounds(xs[..|xs| - 1], lo, hi);
    }
  }

  lemma {:induction false} ReadingsBounded(polls: seq<Poll>, lo: int, hi: int)
    requires forall i :: 0 <= i < |polls| && polls[i].Ready? ==> lo <= polls[i].reading <= hi
    ensures forall j :: 0 <= j < |Readings(polls)| ==> lo <= Readings(polls)[j] <= hi
    decreases |polls|
  {
    if |polls| > 0 {
      ReadingsBounded(polls[..|polls| - 1], lo, hi);
    }
  }

  lemma MulCancel(a: int, b: int, n: int)
    requires n > 0 && a * n <= b * n
    ensures a <= b
  {
    assert a * n - b * n == (a - b) * n;
  }

  /** A truncating quotient of a sum of `n` values in [lo, hi] stays in
      [lo, hi], as long as 0 is in that range. */
  lemma TruncDivBounds(s: int, n: int, lo: int, hi: int)
    requires n > 0 && lo <= 0 <= hi
    requires n * lo <= s <= n * hi
    ensures lo <= TruncDiv(s, n) <= hi
  {
    var q := TruncDiv(s, n);
    if s >= 0 {
      assert q >= 0 && q * n <= s;
      MulCancel(q, hi, n);
    } else {
      assert q <= 0 && (-q) * n <= -s;
      assert -s <= (-lo) * n;
      MulCancel(-q, -lo, n);
    }
  }

  /** Readings between `lo` and `hi` (with 0 in range, since a missed
      conversion adds nothing) average to a value between `lo` and `hi`. */
  lemma SkippingReadBounds(polls: seq<Poll>, samples: int, lo: int, hi: int)
    requires 0 < samples <= |polls|
    requires lo <= 0 <= hi
    requires forall i :: 0 <= i < |polls| && polls[i].Ready? ==> lo <= polls[i].reading <= hi
    ensures SkippingRead(polls, samples).Ok?
    ensures lo <= SkippingRead(polls, samples).value <= hi
  {
    var p := polls[..samples];
    var xs := Readings(p);
    ReadingsBounded(p, lo, hi);
    SumBounds(xs, lo, hi);
    ScaleBounds(|xs|, samples, lo, hi);
    TruncDivBounds(Sum(xs), samples, lo, hi);
  }

  lemma ScaleBounds(k: nat, n: nat, lo: int, hi: int)
    requires k <= n && lo <= 0 <= hi
    ensures n * lo <= k * lo && k * hi <= n * hi
  {
    assert n * lo == k * lo + (n - k) * lo;
    assert n * hi == k * hi + (n - k) * hi;
  }

  /** Concrete instances: of four polls one conversion was not ready, so
      the readings 10, 10, 11 are divided by 4; -7 over 2 truncates to -3,
      not -4; and no samples at all raise. */
  lemma SkippingReadMissedExample()
    ensures SkippingRead([Ready(10), NotReady, Ready(10), Ready(11)], 4) == Ok(7)
  {
    var a := [Ready(10), NotReady, Ready(10), Ready(11)];
    assert a[..0] == [];
    ReadingsStep(a, 0);
    assert Readings(a[..1]) == [10];
    ReadingsStep(a, 1);
    assert Readings(a[..2]) == [10];
    ReadingsStep(a, 2);
    assert Readings(a[..3]) == [10, 10];
    ReadingsStep(a, 3);
    assert a[..4] == a;
    assert Sum(Readings(a)) == 31;
    assert TruncDiv(31, 4) == 7;
  }

  lemma SkippingReadTruncatesExample()
    ensures SkippingRead([Ready(-3), Ready(-4)], 2) == Ok(-3)
  {
    var b := [Ready(-3), Ready(-4)];
    assert b[..0] == [];
    ReadingsStep(b, 0);
    ReadingsStep(b, 1);
    assert b[..2] == b;
    assert Sum(Readings(b)) == -7;
    assert TruncDiv(-7, 2) == -3;
  }

  lemma SkippingReadNoSamplesExample()
    ensures SkippingRead([Ready(5)], 0) == Err(ZeroDivisionError)
  {
  }
}
