/**
 * Numeric helpers shared by every component model.
 *
 * All arithmetic is over `real`: JavaScript numbers are IEEE doubles, but the
 * formulas of the portfolio are stated here exactly, and the JavaScript
 * operators that do not exist on `real` are written out:
 *   - `Math.round(x)` is `Round(x)`, the floor of `x + 0.5` (halves go up);
 *   - `a % m` is `JsRem(a, m)`, the remainder of a division truncated toward
 *     zero, so its sign follows `a`;
 *   - `Math.max(lo, Math.min(hi, x))` and `gsap.utils.clamp(lo, hi, x)` are
 *     both `Clamp(lo, hi, x)`.
 */
module Common {

  datatype Option<T> = None | Some(value: T)

  function Abs(x: real): (r: real)
    ensures r >= 0.0 && (r == x || r == -x)
  {
    if x < 0.0 then -x else x
  }

  function Max(a: real, b: real): (r: real)
    ensures r >= a && r >= b && (r == a || r == b)
  {
    if a >= b then a else b
  }

  function Min(a: real, b: real): (r: real)
    ensures r <= a && r <= b && (r == a || r == b)
  {
    if a <= b then a else b
  }

  /** `Math.max(lo, Math.min(hi, x))`. */
  function Clamp(lo: real, hi: real, x: real): (r: real)
    ensures lo <= hi ==> lo <= r <= hi
    ensures lo <= x <= hi ==> r == x
    ensures x <= lo ==> r == lo
    ensures lo <= hi && hi <= x ==> r == hi
  {
    Max(lo, Min(hi, x))
  }

  /** JavaScript's `Math.round`: the nearest integer, a half rounded up. */
  function Round(x: real): (r: int)
    ensures r as real - 0.5 <= x < r as real + 0.5
  {
    (x + 0.5).Floor
  }

  /** Truncation toward zero, the quotient JavaScript's `%` is built on. */
  function Trunc(x: real): (r: int)
    ensures x >= 0.0 ==> r == x.Floor
    ensures Abs(r as real) <= Abs(x) < Abs(r as real) + 1.0
  {
    if x >= 0.0 then x.Floor else -((-x).Floor)
  }

  /** JavaScript's remainder `x % m` for a positive modulus. */
  function JsRem(x: real, m: real): real
    requires m > 0.0
  {
    x - m * (Trunc(x / m) as real)
  }

  /**
   * On a non-negative dividend JavaScript's `%` is the floored modulus
   * `x - m * Floor(x / m)` and lies in `[0, m)`; on a negative one it lies
   * in `(-m, 0]`.
   */
  lemma JsRemRange(x: real, m: real)
    requires m > 0.0
    ensures x >= 0.0 ==> JsRem(x, m) == x - m * ((x / m).Floor as real)
    ensures x >= 0.0 ==> 0.0 <= JsRem(x, m) < m
    ensures x < 0.0 ==> -m < JsRem(x, m) <= 0.0
  {
    if x >= 0.0 {
      JsRemNonNegative(x, m);
    } else {
      JsRemNegative(x, m);
    }
  }

  lemma JsRemNonNegative(x: real, m: real)
    requires m > 0.0 && x >= 0.0
    ensures JsRem(x, m) == x - m * ((x / m).Floor as real)
    ensures 0.0 <= JsRem(x, m) < m
  {
    var q := x / m;
    assert q >= 0.0;
    var t := Trunc(q) as real;
    var d := q - t;
    assert 0.0 <= d < 1.0;
    Scale(m, d, x, t);
    MulBelow(m, d);
    assert JsRem(x, m) == x - m * t;
  }

  lemma JsRemNegative(x: real, m: real)
    requires m > 0.0 && x < 0.0
    ensures -m < JsRem(x, m) <= 0.0
  {
    var q := x / m;
    assert q < 0.0;
    var t := Trunc(q) as real;
    var d := q - t;
    assert -1.0 < d <= 0.0;
    Scale(m, d, x, t);
    MulBelow(m, -d);
    assert JsRem(x, m) == x - m * t == m * d;
  }

  lemma Scale(m: real, d: real, x: real, t: real)
    requires m > 0.0 && x / m == t + d
    ensures x - m * t == m * d
  {
    assert x == m * (t + d);
  }

  lemma MulBelow(m: real, d: real)
    requires m > 0.0 && 0.0 <= d < 1.0
    ensures 0.0 <= m * d < m
  {
    assert m * d < m * 1.0;
  }

  /** A remainder is unchanged by whole turns added to a non-negative dividend. */
  lemma {:induction false} JsRemPeriodic(x: real, m: real, k: nat)
    requires m > 0.0 && x >= 0.0
    ensures JsRem(x + (k as real) * m, m) == JsRem(x, m)
  {
    var q := x / m;
    assert (x + (k as real) * m) / m == q + k as real;
    assert (q + k as real).Floor == q.Floor + k;
  }

  /** On `[0, 2m)` the remainder subtracts `m` at most once. */
  lemma JsRemWrapOnce(x: real, m: real)
    requires m > 0.0 && 0.0 <= x < 2.0 * m
    ensures JsRem(x, m) == if x < m then x else x - m
  {
    JsRemNonNegative(x, m);
    if x < m {
      DivideBounds(x, 0.0, 1.0, m);
      assert (x / m).Floor == 0;
    } else {
      DivideBounds(x, 1.0, 2.0, m);
      assert (x / m).Floor == 1;
    }
  }

  /** Multiplying by a positive `m` keeps the order, strict or not. */
  lemma ScaleMonotone(a: real, b: real, m: real)
    requires m > 0.0 && a <= b
    ensures a * m <= b * m
    ensures a < b ==> a * m < b * m
  {
  }

  /** A dividend between `lo * m` and `hi * m` gives a quotient between `lo` and `hi`. */
  lemma DivideBounds(x: real, lo: real, hi: real, m: real)
    requires m > 0.0 && lo * m <= x < hi * m
    ensures lo <= x / m < hi
  {
    var q := x / m;
    assert q * m == x;
    if q < lo {
      ScaleMonotone(q, lo, m);
    }
    if q >= hi {
      ScaleMonotone(hi, q, m);
    }
  }

  /**
   * A fraction `p == a * d` of a distance `d`: zero when either factor is,
   * within `[0, d]` (or `[d, 0]`) for `a` in `[0, 1]`, and negative for a
   * positive fraction of a negative distance. The product is a parameter so
   * that callers reason about it as one number.
   */
  lemma FractionOf(p: real, a: real, d: real)
    requires p == a * d
    ensures a == 0.0 || d == 0.0 ==> p == 0.0
    ensures 0.0 <= a <= 1.0 && d >= 0.0 ==> 0.0 <= p <= d
    ensures 0.0 <= a <= 1.0 && d <= 0.0 ==> d <= p <= 0.0
    ensures a > 0.0 && d < 0.0 ==> p < 0.0
  {
    if 0.0 <= a <= 1.0 && d >= 0.0 {
      assert (1.0 - a) * d >= 0.0;
    }
    if 0.0 <= a <= 1.0 && d <= 0.0 {
      assert (1.0 - a) * d <= 0.0;
    }
  }

  function Pow(b: real, n: nat): real
  {
    if n == 0 then 1.0 else b * Pow(b, n - 1)
  }

  /** A base in `[0, 1]` keeps every power in `[0, 1]`; a positive base keeps it positive. */
  lemma {:induction false} PowBounds(b: real, n: nat)
    requires 0.0 <= b <= 1.0
    ensures 0.0 <= Pow(b, n) <= 1.0
    ensures b > 0.0 ==> Pow(b, n) > 0.0
  {
    if n > 0 {
      PowBounds(b, n - 1);
      var p := Pow(b, n - 1);
      assert b * p <= 1.0 * p;
      assert b > 0.0 && p > 0.0 ==> b * p > 0.0;
    }
  }
}
