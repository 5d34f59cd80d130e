/**
  Exact-arithmetic counterparts of the JavaScript number operations the
  evaluation engine uses: `Math.min`, `Math.round`, the "round to one decimal"
  idiom `Math.round(x * 10) / 10`, and `Math.log10`, which is kept abstract and
  described only by the laws the scores rely on.
 */
module Numeric {

  /** `Math.min` on two reals. */
  function Min(a: real, b: real): (r: real)
    ensures r <= a && r <= b
    ensures r == a || r == b
  {
    if a <= b then a else b
  }

  /** `Math.max` on two integers. */
  function MaxInt(a: int, b: int): (r: int)
    ensures r >= a && r >= b
    ensures r == a || r == b
  {
    if a >= b then a else b
  }

  /** `Math.round`: the nearest integer, halves rounded up. */
  function Round(x: real): (r: int)
    ensures r as real - 0.5 <= x < r as real + 0.5
  {
    (x + 0.5).Floor
  }

  /** A real with at most one decimal digit (a whole number of tenths). */
  predicate IsTenth(x: real) {
    (x * 10.0).Floor as real == x * 10.0
  }

  /** `Math.round(x * 10) / 10`: the nearest tenth, halves rounded up. */
  function RoundTenth(x: real): (r: real)
    ensures IsTenth(r)
    ensures r - 0.05 <= x < r + 0.05
  {
    var k := Round(x * 10.0);
    assert (k as real / 10.0) * 10.0 == k as real;
    k as real / 10.0
  }

  lemma IsTenthSum(x: real, y: real)
    requires IsTenth(x) && IsTenth(y)
    ensures IsTenth(x + y)
  {
    var kx := (x * 10.0).Floor;
    var ky := (y * 10.0).Floor;
    assert (x + y) * 10.0 == (kx + ky) as real;
  }

  lemma IsTenthOfInt(n: int)
    ensures IsTenth(n as real)
  {
    assert n as real * 10.0 == (10 * n) as real;
  }

  lemma IsTenthOfHalf(n: int)
    ensures IsTenth(n as real * 0.5)
  {
    assert n as real * 0.5 * 10.0 == (5 * n) as real;
  }

  lemma IsTenthOfTenths(m: int)
    ensures IsTenth(m as real / 10.0)
  {
    assert m as real / 10.0 * 10.0 == m as real;
  }

  /** Rounding a value that already has one decimal leaves it unchanged. */
  lemma RoundTenthOfTenth(x: real)
    requires IsTenth(x)
    ensures RoundTenth(x) == x
  {
    var k := (x * 10.0).Floor;
    assert (x * 10.0 + 0.5).Floor == k;
  }

  /** Rounding to a tenth never reverses the order of two values. */
  lemma RoundTenthMonotone(x: real, y: real)
    requires x <= y
    ensures RoundTenth(x) <= RoundTenth(y)
  {
    assert Round(x * 10.0) <= Round(y * 10.0);
  }

  /** Rounding to a tenth keeps a value inside any interval whose ends have one decimal. */
  lemma RoundTenthWithin(x: real, lo: real, hi: real)
    requires IsTenth(lo) && IsTenth(hi)
    requires lo <= x <= hi
    ensures lo <= RoundTenth(x) <= hi
  {
    RoundTenthMonotone(lo, x);
    RoundTenthMonotone(x, hi);
    RoundTenthOfTenth(lo);
    RoundTenthOfTenth(hi);
  }

  /** A factor whose product with a positive number is non-negative is itself non-negative. */
  lemma NonNegFactor(d: real, y: real)
    requires y > 0.0 && d * y >= 0.0
    ensures d >= 0.0
  {
  }

  /** A quotient of a non-negative number by a positive one is non-negative. */
  lemma QuotientNonNeg(x: real, y: real)
    requires 0.0 <= x && 0.0 < y
    ensures x / y >= 0.0
  {
    assert x / y * y == x;
  }

  /** A quotient of non-negative by positive is non-negative, and at least one when the numerator is the larger. */
  lemma QuotientBounds(x: real, y: real)
    requires 0.0 <= x && 0.0 < y
    ensures x / y >= 0.0
    ensures x >= y ==> x / y >= 1.0
  {
    QuotientNonNeg(x, y);
    if x >= y {
      var q := x / y;
      assert q * y == x;
      assert (q - 1.0) * y == q * y - y;
      NonNegFactor(q - 1.0, y);
    }
  }

  /** Dividing by a larger positive number gives a smaller quotient. */
  lemma QuotientAntitone(x: real, y1: real, y2: real)
    requires 0.0 <= x && 0.0 < y1 <= y2
    ensures x / y2 <= x / y1
  {
    var q1 := x / y1;
    var q2 := x / y2;
    assert q1 * y1 == x && q2 * y2 == x;
    QuotientBounds(x, y2);
  }

  /** Dividing by the same positive number keeps the order of numerators. */
  lemma QuotientMonotone(x1: real, x2: real, y: real)
    requires x1 <= x2 && 0.0 < y
    ensures x1 / y <= x2 / y
  {
    var q1 := x1 / y;
    var q2 := x2 / y;
    assert q1 * y == x1 && q2 * y == x2;
  }

  /**
    The laws of `Math.log10` that the scores depend on: the logarithm of one
    is zero, and on arguments of at least one it is non-negative and
    non-decreasing.
   */
  ghost predicate Log10Laws(f: real -> real) {
    && f(1.0) == 0.0
    && (forall x :: x >= 1.0 ==> f(x) >= 0.0)
    && (forall x, y :: 1.0 <= x <= y ==> f(x) <= f(y))
  }

  /** An abstract base-10 logarithm: any function obeying `Log10Laws`. */
  type Log10 = f: real -> real | Log10Laws(f) witness (x: real) => 0.0
}
