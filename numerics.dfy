/** Exact-real stand-ins for the numpy element-wise operations the simulators use.
    Every float64 array becomes a `seq<real>`; rounding is not modelled. */
module Numerics {

  function Abs(x: real): (r: real)
    ensures r >= 0.0 && (r == x || r == -x)
  {
    if x < 0.0 then -x else x
  }

  function Max(a: real, b: real): (r: real)
    ensures r >= a && r >= b && (r == a || r == b)
  {
    if a >= b then a else b
  }

  function Min(a: real, b: real): (r: real)
    ensures r <= a && r <= b && (r == a || r == b)
  {
    if a <= b then a else b
  }

  /** `numpy.clip(x, lo, hi)`, which numpy defines as `minimum(maximum(x, lo), hi)`:
      with an empty interval (`hi < lo`) every value becomes `hi`. */
  function Clip(x: real, lo: real, hi: real): (r: real)
    ensures lo <= hi ==> lo <= r <= hi
    ensures lo <= x <= hi ==> r == x
    ensures x < lo <= hi ==> r == lo
    ensures lo <= hi < x ==> r == hi
    ensures hi < lo ==> r == hi
  {
    Min(Max(x, lo), hi)
  }

  /** Element-wise `numpy.clip` over a whole array. */
  function ClipAll(s: seq<real>, lo: real, hi: real): (r: seq<real>)
    ensures |r| == |s|
    ensures forall i :: 0 <= i < |s| ==> r[i] == Clip(s[i], lo, hi)
  {
    seq(|s|, i requires 0 <= i < |s| => Clip(s[i], lo, hi))
  }

  /** Element-wise product of an array with a scalar (`array * k`). */
  function ScaleAll(s: seq<real>, k: real): (r: seq<real>)
    ensures |r| == |s|
    ensures forall i :: 0 <= i < |s| ==> r[i] == s[i] * k
  {
    seq(|s|, i requires 0 <= i < |s| => s[i] * k)
  }

  /** Clipping an array that already lies in `[lo, hi]` leaves it unchanged. */
  lemma ClipInRange(s: seq<real>, lo: real, hi: real)
    requires forall i :: 0 <= i < |s| ==> lo <= s[i] <= hi
    ensures ClipAll(s, lo, hi) == s
  {
  }

  /** `numpy.max` of a non-empty array: an element that bounds every element. */
  function SeqMax(s: seq<real>): (r: real)
    requires |s| > 0
    ensures forall i :: 0 <= i < |s| ==> s[i] <= r
    ensures exists i :: 0 <= i < |s| && s[i] == r
  {
    if |s| == 1 then s[0]
    else
      var m := SeqMax(s[..|s| - 1]);
      assert forall i :: 0 <= i < |s| - 1 ==> s[..|s| - 1][i] == s[i];
      if s[|s| - 1] > m then s[|s| - 1] else m
  }

  /** `numpy.min` of a non-empty array: an element that every element bounds. */
  function SeqMin(s: seq<real>): (r: real)
    requires |s| > 0
    ensures forall i :: 0 <= i < |s| ==> r <= s[i]
    ensures exists i :: 0 <= i < |s| && s[i] == r
  {
    if |s| == 1 then s[0]
    else
      var m := SeqMin(s[..|s| - 1]);
      assert forall i :: 0 <= i < |s| - 1 ==> s[..|s| - 1][i] == s[i];
      if s[|s| - 1] < m then s[|s| - 1] else m
  }

  /** All elements lie in the closed interval `[lo, hi]`. */
  ghost predicate AllWithin(s: seq<real>, lo: real, hi: real)
  {
    forall i :: 0 <= i < |s| ==> lo <= s[i] <= hi
  }

  /** `max(s) <= hi and min(s) >= lo` is the same test as "every element lies in [lo, hi]". */
  lemma ExtremaWithin(s: seq<real>, lo: real, hi: real)
    requires |s| > 0
    ensures SeqMax(s) <= hi && SeqMin(s) >= lo <==> AllWithin(s, lo, hi)
  {
    var iMax :| 0 <= iMax < |s| && s[iMax] == SeqMax(s);
    var iMin :| 0 <= iMin < |s| && s[iMin] == SeqMin(s);
  }

  /** `2^n`, which exceeds `n`. */
  function Pow2(n: nat): (r: nat)
    ensures r > n
  {
    if n == 0 then 1 else 2 * Pow2(n - 1)
  }

  /** `(1 << n_bits) - 1`: the largest unsigned code of an `n_bits`-wide converter. */
  function MaxCode(nBits: nat): (r: nat)
    ensures r + 1 == Pow2(nBits)
    ensures r >= nBits
  {
    Pow2(nBits) - 1
  }

  /** Every code lies in `[0, 2^n_bits - 1]`. */
  ghost predicate ValidCodes(codes: seq<int>, nBits: nat)
  {
    forall i :: 0 <= i < |codes| ==> 0 <= codes[i] <= MaxCode(nBits)
  }

  // ---------------------------------------------------------------------------
  // Real-arithmetic facts, kept in small lemmas so that each proof stays cheap
  // ---------------------------------------------------------------------------

  lemma SquareNonNegative(x: real)
    ensures x * x >= 0.0
  {
    if x < 0.0 { assert x * x == (-x) * (-x); }
  }

  lemma SquareAtLeast(x: real, m: real)
    requires m >= 0.0 && Abs(x) >= m
    ensures x * x >= m * m
  {
    var y := Abs(x);
    assert x * x == y * y;
    assert y * y - m * y == (y - m) * y;
    ProductNonNegative(y - m, y);
    assert m * y - m * m == m * (y - m);
    ProductNonNegative(m, y - m);
  }

  /** A fraction of a non-negative bound stays between zero and the bound. */
  lemma ScaleUnit(d: real, m: real)
    requires 0.0 <= d <= 1.0 && m >= 0.0
    ensures 0.0 <= d * m <= m
  {
    assert m - d * m == (1.0 - d) * m;
  }

  lemma CancelFactor(c: real, v: real, x: real)
    requires x != 0.0 && c * (x * x) == v * x
    ensures c * x == v
  {
    assert (c * x - v) * x == 0.0;
  }

  /** With `d = 1 + k^2`: `(R/d)^2 + (R*k/d)^2 == R * (R/d)`. */
  lemma QuotientSquares(R: real, k: real, d: real)
    requires d == 1.0 + k * k
    ensures d >= 1.0
    ensures (R / d) * (R / d) + (-(R * k) / d) * (-(R * k) / d) == R * (R / d)
  {
    SquareNonNegative(k);
    var a := R / d;
    assert a * d == R;
    assert -(R * k) / d == -(a * k);
    calc {
      (-(a * k)) * (-(a * k));
      (a * k) * (a * k);
      (a * a) * (k * k);
    }
    calc {
      a * a + (a * a) * (k * k);
      (a * a) * d;
      a * (a * d);
      a * R;
    }
  }

  /** Dividing a positive `R` by `d >= 1` keeps it positive and no larger. */
  lemma ShrinkBelow(R: real, d: real)
    requires R > 0.0 && d >= 1.0
    ensures 0.0 < R / d <= R
    ensures R * (R / d) <= R * R
  {
    var a := R / d;
    assert a * d == R;
    assert a > 0.0;
    assert a <= a * d;
  }

  /** Dividing a positive `v` by `d > 1` gives a positive quotient strictly below `v`. */
  lemma QuotientBelow(v: real, d: real)
    requires d > 1.0
    ensures v > 0.0 ==> 0.0 < v / d < v
  {
    if v > 0.0 {
      var q := v / d;
      assert q * d == v;
      assert q > 0.0;
      assert q * d - q == q * (d - 1.0);
      assert q * (d - 1.0) > 0.0;
      assert q < q * d;
    }
  }

  lemma ProductNonNegative(x: real, y: real)
    ensures x >= 0.0 && y >= 0.0 ==> x * y >= 0.0
  {
  }

  lemma ProductPositive(x: real, y: real)
    ensures x > 0.0 && y > 0.0 ==> x * y > 0.0
  {
  }

  /** Dividing by a positive number keeps the order. */
  lemma QuotientMonotone(x: real, y: real, m: real)
    requires m > 0.0 && x <= y
    ensures x / m <= y / m
  {
    var d := x / m - y / m;
    assert (x / m) * m == x && (y / m) * m == y;
    assert d * m == x - y;
    ProductPositive(d, m);
  }

  /** A positive numerator below its denominator gives a fraction strictly inside (0, 1). */
  lemma ProperFraction(a: real, b: real)
    ensures 0.0 < a < b ==> 0.0 < a / b < 1.0
  {
    if 0.0 < a < b {
      var q := a / b;
      assert q * b == a;
      assert q > 0.0;
      assert (q - 1.0) * b == a - b < 0.0;
      ProductNonNegative(q - 1.0, b);
    }
  }

  // ---------------------------------------------------------------------------
  // Complex numbers as pairs of reals (numpy complex128)
  // ---------------------------------------------------------------------------

  datatype Complex = Complex(re: real, im: real)

  function Real(x: real): Complex { Complex(x, 0.0) }

  function CAdd(a: Complex, b: Complex): Complex
  {
    Complex(a.re + b.re, a.im + b.im)
  }

  /** Squared modulus `|z|^2`. */
  function NormSq(z: Complex): (r: real)
    ensures r >= 0.0
  {
    SquareNonNegative(z.re);
    SquareNonNegative(z.im);
    z.re * z.re + z.im * z.im
  }

  /** Complex division `a / b` for a divisor of non-zero modulus. */
  function CDiv(a: Complex, b: Complex): Complex
    requires NormSq(b) > 0.0
  {
    var d := NormSq(b);
    Complex((a.re * b.re + a.im * b.im) / d, (a.im * b.re - a.re * b.im) / d)
  }
}
