/**
  The aggregate statistics the endpoint tester takes from Python: the sum,
  `min`, `max` and `statistics.mean` of a latency list, and `round(x, n)`.
  Latencies are exact reals; `round` is round-half-to-even on the exact value.
 */
module Metrics {

  function Sum(s: seq<real>): real {
    if s == [] then 0.0 else s[0] + Sum(s[1..])
  }

  /** Python's `min` of a non-empty list: a member no larger than any other. */
  function Min(s: seq<real>): (m: real)
    requires s != []
    ensures m in s
    ensures forall i :: 0 <= i < |s| ==> m <= s[i]
  {
    if |s| == 1 then s[0]
    else
      var rest := Min(s[1..]);
      if rest < s[0] then rest else s[0]
  }

  /** Python's `max` of a non-empty list: a member no smaller than any other. */
  function Max(s: seq<real>): (m: real)
    requires s != []
    ensures m in s
    ensures forall i :: 0 <= i < |s| ==> s[i] <= m
  {
    if |s| == 1 then s[0]
    else
      var rest := Max(s[1..]);
      if rest > s[0] then rest else s[0]
  }

  /** `statistics.mean`: the arithmetic mean. */
  function Mean(s: seq<real>): real
    requires s != []
  {
    Sum(s) / |s| as real
  }

  /** Every element lies in `[lo, hi]`, so the sum lies in `[n * lo, n * hi]`. */
  lemma {:induction false} SumBounds(s: seq<real>, lo: real, hi: real)
    requires forall i :: 0 <= i < |s| ==> lo <= s[i] <= hi
    ensures |s| as real * lo <= Sum(s) <= |s| as real * hi
    decreases |s|
  {
    if s != [] {
      SumBounds(s[1..], lo, hi);
      assert |s| as real * lo == lo + |s[1..]| as real * lo;
      assert |s| as real * hi == hi + |s[1..]| as real * hi;
    }
  }

  /** The mean of values in `[lo, hi]` lies in `[lo, hi]`. */
  lemma MeanBounds(s: seq<real>, lo: real, hi: real)
    requires s != []
    requires forall i :: 0 <= i < |s| ==> lo <= s[i] <= hi
    ensures lo <= Mean(s) <= hi
  {
    SumBounds(s, lo, hi);
    var n := |s| as real;
    assert Mean(s) * n == Sum(s);
  }

  /** `min(s) <= statistics.mean(s) <= max(s)`. */
  lemma MeanBetweenMinAndMax(s: seq<real>)
    requires s != []
    ensures Min(s) <= Mean(s) <= Max(s)
  {
    MeanBounds(s, Min(s), Max(s));
  }

  function Pow10(n: nat): (r: nat)
    ensures r >= 1
  {
    if n == 0 then 1 else 10 * Pow10(n - 1)
  }

  /** The integer nearest `y`, ties going to the even one. */
  function RoundHalfEven(y: real): (r: int)
    ensures -0.5 <= r as real - y <= 0.5
  {
    var f := y.Floor;
    var frac := y - f as real;
    if frac < 0.5 then f
    else if frac > 0.5 then f + 1
    else if f % 2 == 0 then f
    else f + 1
  }

  /** `x` rounded to the nearest multiple of `1 / p`, ties to even. */
  function RoundAt(x: real, p: real): real
    requires p > 0.0
  {
    RoundHalfEven(x * p) as real / p
  }

  /** `round(x, digits)` on exact reals. */
  function RoundTo(x: real, digits: nat): real {
    RoundAt(x, Pow10(digits) as real)
  }

  lemma ScaleMonotone(a: real, b: real, p: real)
    requires a <= b && p > 0.0
    ensures a * p <= b * p && a / p <= b / p
  {
    assert (b - a) * p >= 0.0;
    assert b / p - a / p == (b - a) / p;
  }

  lemma RoundHalfEvenMonotone(y1: real, y2: real)
    requires y1 <= y2
    ensures RoundHalfEven(y1) <= RoundHalfEven(y2)
  {
    var f1, f2 := y1.Floor, y2.Floor;
    if f1 == f2 {
      assert y1 - f1 as real <= y2 - f2 as real;
    } else {
      assert f1 < f2;
    }
  }

  lemma RoundHalfEvenOfInt(n: int)
    ensures RoundHalfEven(n as real) == n
  {
    assert (n as real).Floor == n;
  }

  lemma ScaledRoundMonotone(x1: real, x2: real, p: real)
    requires x1 <= x2 && p > 0.0
    ensures RoundHalfEven(x1 * p) <= RoundHalfEven(x2 * p)
  {
    ScaleMonotone(x1, x2, p);
    RoundHalfEvenMonotone(x1 * p, x2 * p);
  }

  lemma RoundAtMonotone(x1: real, x2: real, p: real)
    requires x1 <= x2 && p > 0.0
    ensures RoundAt(x1, p) <= RoundAt(x2, p)
  {
    ScaledRoundMonotone(x1, x2, p);
    ScaleMonotone(RoundHalfEven(x1 * p) as real, RoundHalfEven(x2 * p) as real, p);
  }

  lemma RoundAtError(x: real, p: real)
    requires p > 0.0
    ensures -1.0 / (2.0 * p) <= RoundAt(x, p) - x <= 1.0 / (2.0 * p)
  {
    var y := x * p;
    var r := RoundHalfEven(y) as real;
    QuotientDifference(r, x, y, p);
    ScaleMonotone(-0.5, r - y, p);
    ScaleMonotone(r - y, 0.5, p);
    HalfOver(p);
  }

  /** Dividing `r - x * p` by `p` gives `r / p - x`. */
  lemma QuotientDifference(r: real, x: real, y: real, p: real)
    requires p > 0.0 && y == x * p
    ensures r / p - x == (r - y) / p
  {
    assert y / p == x;
    assert r / p - y / p == (r - y) / p;
  }

  lemma HalfOver(p: real)
    requires p > 0.0
    ensures 0.5 / p == 1.0 / (2.0 * p) && -0.5 / p == -1.0 / (2.0 * p)
  {
    assert (0.5 / p) * (2.0 * p) == 1.0;
  }

  lemma RoundAtIdempotent(x: real, p: real)
    requires p > 0.0
    ensures RoundAt(RoundAt(x, p), p) == RoundAt(x, p)
  {
    var n := RoundHalfEven(x * p);
    assert RoundAt(x, p) * p == n as real;
    RoundHalfEvenOfInt(n);
  }

  /** Rounding never reverses the order of two values. */
  lemma RoundToMonotone(x1: real, x2: real, digits: nat)
    requires x1 <= x2
    ensures RoundTo(x1, digits) <= RoundTo(x2, digits)
  {
    RoundAtMonotone(x1, x2, Pow10(digits) as real);
  }

  /** A value rounded to `digits` places is within half a unit of its last place. */
  lemma RoundToError(x: real, digits: nat)
    ensures var e := 1.0 / (2.0 * Pow10(digits) as real);
      -e <= RoundTo(x, digits) - x <= e
  {
    RoundAtError(x, Pow10(digits) as real);
  }

  /** Rounding an already rounded value changes nothing. */
  lemma RoundToIdempotent(x: real, digits: nat)
    ensures RoundTo(RoundTo(x, digits), digits) == RoundTo(x, digits)
  {
    RoundAtIdempotent(x, Pow10(digits) as real);
  }
}
