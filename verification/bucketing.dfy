/** Load-percent bucketing, the lambda applied to `Load_Pct` at lt2315.py:213,
    238 and 257: a percent x becomes 25 * round(x / 25) when that is at most
    200, and 200 otherwise.

    Python's `round` sends ties to the even neighbour. A `NAN` reading is NaN,
    every comparison with NaN is false, so a missing value takes the `else`
    branch and becomes 200. Arithmetic is over exact reals. */
module Bucketing {
  import opened Wrappers

  const Step: real := 25.0
  const Cap: real := 200.0

  function Abs(x: real): real {
    if x < 0.0 then -x else x
  }

  /** Python's `round(x, 0)`: the nearest integer, ties to the even one. */
  function RoundHalfEven(x: real): (n: int)
    ensures -0.5 <= x - n as real <= 0.5
    ensures Abs(x - n as real) == 0.5 ==> n % 2 == 0
  {
    var f := x.Floor;
    var d := x - f as real;
    if d < 0.5 then f
    else if d > 0.5 then f + 1
    else if f % 2 == 0 then f
    else f + 1
  }

  /** The unrounded-to-cap candidate: the multiple of 25 nearest `x`. */
  function Snap(x: real): real {
    (RoundHalfEven(x / Step) * 25) as real
  }

  /** A value on the bucket grid: an integer multiple of 25. */
  predicate OnGrid(b: real) {
    b.Floor as real == b && b.Floor % 25 == 0
  }

  /** The bucketing lambda on a cell of the `Load_Pct` column. */
  function Bucket(v: Option<real>): (b: real)
    ensures OnGrid(b)
    ensures b <= Cap
    ensures v.None? ==> b == Cap
    ensures v.Some? && Snap(v.value) <= Cap ==> -12.5 <= b - v.value <= 12.5
    ensures v.Some? && Snap(v.value) > Cap ==> b == Cap
    ensures v.Some? && Snap(v.value) <= Cap && Abs(b - v.value) == 12.5 ==> (b.Floor / 25) % 2 == 0
  {
    match v
    case None => Cap
    case Some(x) => SnapTie(x); if Snap(x) <= Cap then Snap(x) else Cap
  }

  /** Halfway between two multiples of 25, the snapped value is an even
      multiple, as `round` sends 0.5 to the even neighbour. */
  lemma SnapTie(x: real)
    ensures Snap(x).Floor / 25 == RoundHalfEven(x / Step)
    ensures Abs(Snap(x) - x) == 12.5 ==> (Snap(x).Floor / 25) % 2 == 0
  {
    var n := RoundHalfEven(x / Step);
    assert Snap(x) - x == 25.0 * (n as real - x / Step);
  }

  /** `round` is fully determined by its two promises: any integer within
      one half of `x`, and even on a tie, is the one `round` returns. */
  lemma RoundHalfEvenUnique(x: real, m: int)
    requires -0.5 <= x - m as real <= 0.5
    requires Abs(x - m as real) == 0.5 ==> m % 2 == 0
    ensures m == RoundHalfEven(x)
  {
  }

  /** Rounding preserves order. */
  lemma RoundHalfEvenMonotone(x: real, y: real)
    requires x <= y
    ensures RoundHalfEven(x) <= RoundHalfEven(y)
  {
  }

  /** A value already on the grid is its own rounding. */
  lemma SnapOnGrid(b: real)
    requires OnGrid(b)
    ensures Snap(b) == b
  {
    var k := b.Floor / 25;
    assert b == (k * 25) as real;
    assert b / Step == k as real;
    RoundHalfEvenUnique(b / Step, k);
  }

  /** Bucketing is idempotent. */
  lemma BucketIdempotent(v: Option<real>)
    ensures Bucket(Some(Bucket(v))) == Bucket(v)
  {
    SnapOnGrid(Bucket(v));
  }

  /** Bucketing preserves the order of present values. */
  lemma BucketMonotone(x: real, y: real)
    requires x <= y
    ensures Bucket(Some(x)) <= Bucket(Some(y))
  {
    RoundHalfEvenMonotone(x / Step, y / Step);
  }

  /** Below the cap, no multiple of 25 lies strictly nearer to the reading
      than its bucket. */
  lemma BucketNearest(x: real, k: int)
    requires Snap(x) <= Cap
    ensures Abs(Bucket(Some(x)) - x) <= Abs((k * 25) as real - x)
  {
    var n := RoundHalfEven(x / Step);
    if k != n {
      assert Abs(k as real - x / Step) >= 0.5;
    }
  }

  /** There is no lower clip: a reading below -12.5 % stays negative. */
  lemma BucketKeepsNegatives(x: real)
    requires x < -12.5
    ensures Bucket(Some(x)) < 0.0
  {
    RoundHalfEvenMonotone(x / Step, -0.5);
    assert RoundHalfEven(-0.5) == 0;
  }

  /** Worked values: 37 -> 25, 213 -> 200, 62.5 -> 50 (2.5 rounds to 2),
      87.5 -> 100 (3.5 rounds to 4), missing -> 200. */
  lemma BucketExamples()
    ensures Bucket(Some(37.0)) == 25.0
    ensures Bucket(Some(213.0)) == 200.0
    ensures Bucket(Some(62.5)) == 50.0
    ensures Bucket(Some(87.5)) == 100.0
    ensures Bucket(None) == 200.0
  {
    assert RoundHalfEven(37.0 / Step) == 1;
    assert RoundHalfEven(213.0 / Step) == 9;
    assert RoundHalfEven(62.5 / Step) == 2;
    assert RoundHalfEven(87.5 / Step) == 4;
  }
}
