/** Real-valued helpers shared by the mapper, the atmosphere adjustments and the builder:
    clamping, linear interpolation, Python's `round` and Python's float `%`. */
module Numbers {

  function Max(a: real, b: real): real { if a >= b then a else b }

  function Min(a: real, b: real): real { if a <= b then a else b }

  function MaxInt(a: int, b: int): int { if a >= b then a else b }

  function Abs(x: real): (r: real)
    ensures r >= 0.0 && (r == x || r == -x)
  {
    if x < 0.0 then -x else x
  }

  /** `max(lo, min(hi, value))`: the lower bound wins when the bounds are crossed. */
  function Clamp(value: real, lo: real, hi: real): (r: real)
    ensures r >= lo
    ensures lo <= hi ==> r <= hi
    ensures lo <= value <= hi ==> r == value
    ensures value <= lo ==> r == lo
    ensures lo <= hi <= value ==> r == hi
  {
    Max(lo, Min(hi, value))
  }

  /** `max(0.0, min(1.0, value))`. */
  function Clamp01(value: real): (r: real)
    ensures 0.0 <= r <= 1.0
    ensures 0.0 <= value <= 1.0 ==> r == value
    ensures value <= 0.0 ==> r == 0.0
    ensures value >= 1.0 ==> r == 1.0
  {
    Clamp(value, 0.0, 1.0)
  }

  /** `a + (b - a) * t`: `a` at `t = 0`, `b` at `t = 1`. */
  function Lerp(a: real, b: real, t: real): real
  {
    a + (b - a) * t
  }

  /** A product of two non-negative numbers is non-negative. */
  lemma ProductNonNegative(a: real, b: real)
    requires a >= 0.0 && b >= 0.0
    ensures a * b >= 0.0
  {
  }

  /** A product of two positive numbers is positive. */
  lemma StrictProductPositive(a: real, b: real)
    requires a > 0.0 && b > 0.0
    ensures a * b > 0.0
  {
  }

  /** Where a quotient by a positive number lies relative to 0 and 1. */
  lemma QuotientBounds(x: real, d: real)
    requires d > 0.0
    ensures x <= 0.0 ==> x / d <= 0.0
    ensures x >= d ==> x / d >= 1.0
    ensures 0.0 <= x <= d ==> 0.0 <= x / d <= 1.0
  {
  }

  /** Dividing by a positive number keeps order. */
  lemma QuotientMonotone(a: real, b: real, w: real)
    requires a <= b && w > 0.0
    ensures a / w <= b / w
  {
  }

  /** Dividing by a negative number reverses order. */
  lemma QuotientAntitone(a: real, b: real, w: real)
    requires a <= b && w < 0.0
    ensures b / w <= a / w
  {
  }

  /** Scaling a non-negative number by a factor at most one does not enlarge it. */
  lemma ScaleAtMostOne(a: real, t: real)
    requires a >= 0.0 && t <= 1.0
    ensures a * t <= a
  {
    assert a - a * t == a * (1.0 - t);
    ProductNonNegative(a, 1.0 - t);
  }

  /** For `t` in [0,1] the interpolant stays between the two endpoints. */
  lemma LerpBetween(a: real, b: real, t: real)
    requires 0.0 <= t <= 1.0
    ensures a <= b ==> a <= Lerp(a, b, t) <= b
    ensures b <= a ==> b <= Lerp(a, b, t) <= a
  {
    var d := b - a;
    ScaledWithin(d, t);
    assert Lerp(a, b, t) == a + d * t;
  }

  /** A fraction `t` of `x` lies between 0 and `x`. */
  lemma ScaledWithin(x: real, t: real)
    requires 0.0 <= t <= 1.0
    ensures x >= 0.0 ==> 0.0 <= x * t <= x
    ensures x <= 0.0 ==> x <= x * t <= 0.0
  {
    if x >= 0.0 {
      ProductNonNegative(x, t);
      ScaleAtMostOne(x, t);
    } else {
      ProductNonNegative(-x, t);
      ScaleAtMostOne(-x, t);
      assert x * t == -((-x) * t);
    }
  }

  /** Interpolation moves towards `b` as `t` grows. */
  lemma LerpMonotone(a: real, b: real, t1: real, t2: real)
    requires t1 <= t2
    ensures a <= b ==> Lerp(a, b, t1) <= Lerp(a, b, t2)
    ensures b <= a ==> Lerp(a, b, t2) <= Lerp(a, b, t1)
  {
    assert Lerp(a, b, t2) - Lerp(a, b, t1) == (b - a) * (t2 - t1);
    if a <= b {
      ProductNonNegative(b - a, t2 - t1);
    } else {
      ProductNonNegative(a - b, t2 - t1);
      assert (b - a) * (t2 - t1) == -((a - b) * (t2 - t1));
    }
  }

  /** Before `t` reaches 1 the interpolant has not reached the far endpoint. */
  lemma LerpStrictBelowEnd(a: real, b: real, t: real)
    requires t < 1.0
    ensures a < b ==> Lerp(a, b, t) < b
    ensures a > b ==> Lerp(a, b, t) > b
  {
    var u := 1.0 - t;
    assert b - Lerp(a, b, t) == (b - a) * u;
    if a < b {
      StrictProductPositive(b - a, u);
    } else if a > b {
      StrictProductPositive(a - b, u);
      assert (b - a) * u == -((a - b) * u);
    }
  }

  /** Once `t` is positive the interpolant has left the near endpoint. */
  lemma LerpStrictAboveStart(a: real, b: real, t: real)
    requires t > 0.0
    ensures a < b ==> Lerp(a, b, t) > a
    ensures a > b ==> Lerp(a, b, t) < a
  {
    assert Lerp(a, b, t) - a == (b - a) * t;
    if a < b {
      StrictProductPositive(b - a, t);
    } else if a > b {
      StrictProductPositive(a - b, t);
      assert (b - a) * t == -((a - b) * t);
    }
  }

  /** Python's `round(x)` on a number: the nearest integer, ties going to the even one. */
  function RoundHalfEven(x: real): (r: int)
    ensures -0.5 <= r as real - x <= 0.5
    ensures (r as real - x == 0.5 || x - r as real == 0.5) ==> r % 2 == 0
  {
    var f := x.Floor;
    var frac := x - f as real;
    if frac < 0.5 then f
    else if frac > 0.5 then f + 1
    else if f % 2 == 0 then f
    else f + 1
  }

  /** Rounding never reverses the order of two numbers. */
  lemma RoundMonotone(x: real, y: real)
    requires x <= y
    ensures RoundHalfEven(x) <= RoundHalfEven(y)
  {
    var rx, ry := RoundHalfEven(x), RoundHalfEven(y);
    if x < y {
      assert (rx as real) < ry as real + 1.0;
    }
  }

  /** Rounding an integer gives that integer back. */
  lemma RoundOfInteger(n: int)
    ensures RoundHalfEven(n as real) == n
  {
  }

  /** Rounding a number between two integers stays between them. */
  lemma RoundBetween(x: real, lo: int, hi: int)
    requires lo as real <= x <= hi as real
    ensures lo <= RoundHalfEven(x) <= hi
  {
    RoundMonotone(lo as real, x);
    RoundMonotone(x, hi as real);
    RoundOfInteger(lo);
    RoundOfInteger(hi);
  }

  /** Python's float `%` with a positive divisor: the remainder takes the sign of the divisor. */
  function FloorMod(x: real, m: real): (r: real)
    requires m > 0.0
    ensures 0.0 <= r < m
    ensures CongruentMod(r, x, m)
  {
    var q := (x / m).Floor;
    var r := x - q as real * m;
    FloorModBounds(x, m, q);
    assert r - x == ((-q) as real) * m;
    QuotientOfProduct((-q) as real, m);
    assert (r - x) / m == (-q) as real;
    assert ((-q) as real).Floor == -q;
    r
  }

  lemma FloorModBounds(x: real, m: real, q: int)
    requires m > 0.0 && q == (x / m).Floor
    ensures 0.0 <= x - q as real * m < m
  {
    var y := x / m;
    assert x == y * m;
    assert 0.0 <= y - q as real < 1.0;
    var f := y - q as real;
    assert x - q as real * m == f * m;
    ProductNonNegative(f, m);
    assert f * m < m by {
      assert m - f * m == (1.0 - f) * m;
      StrictProductPositive(1.0 - f, m);
    }
  }

  /** `a` and `b` differ by a whole multiple of `m`. */
  predicate CongruentMod(a: real, b: real, m: real)
    requires m > 0.0
  {
    ((a - b) / m).Floor as real == (a - b) / m
  }

  /** Congruence modulo `m` is transitive. */
  lemma CongruentTransitive(a: real, b: real, c: real, m: real)
    requires m > 0.0 && CongruentMod(a, b, m) && CongruentMod(b, c, m)
    ensures CongruentMod(a, c, m)
  {
    var x, y := (a - b) / m, (b - c) / m;
    assert (a - c) / m == x + y by {
      QuotientOfSum(a - b, b - c, m);
      assert a - c == (a - b) + (b - c);
    }
    IntegralSum(x, y);
  }

  /** The sum of two whole numbers is whole. */
  lemma IntegralSum(x: real, y: real)
    requires x.Floor as real == x && y.Floor as real == y
    ensures (x + y).Floor as real == x + y
  {
    assert x + y == (x.Floor + y.Floor) as real;
  }

  lemma QuotientOfSum(u: real, v: real, m: real)
    requires m > 0.0
    ensures (u + v) / m == u / m + v / m
  {
  }

  lemma QuotientOfProduct(c: real, w: real)
    requires w != 0.0
    ensures (c * w) / w == c
  {
  }

  /** Adding the same amount to both sides keeps a congruence. */
  lemma CongruentShift(a: real, b: real, c: real, m: real)
    requires m > 0.0 && CongruentMod(a, b, m)
    ensures CongruentMod(a + c, b + c, m)
  {
    assert (a + c) - (b + c) == a - b;
  }
}
