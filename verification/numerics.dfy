/**
 The number conversions the optimizers and the dashboard apply to their
 results: Python's `int()` on a number, and NumPy's decimal rounding
 (`round(x, d)` on a NumPy float and `np.round(frame, decimals=d)`), both
 taken on exact reals.
 */
module Numerics {

  /** Python's `int(x)`: truncation toward zero. */
  function Trunc(x: real): (n: int)
    ensures 0.0 <= x ==> 0 <= n && n as real <= x < n as real + 1.0
    ensures x < 0.0 ==> n <= 0 && n as real - 1.0 < x <= n as real
  {
    if x >= 0.0 then x.Floor else -((-x).Floor)
  }

  /** True when `n` is a nearest integer to `y`, with an exact tie going to the even one. */
  predicate IsNearestEven(y: real, n: int)
  {
    && -0.5 <= n as real - y <= 0.5
    && ((n as real - y == 0.5 || y - n as real == 0.5) ==> n % 2 == 0)
  }

  /** Round half to even to an integer, as NumPy's `rint` does. */
  function Nearest(y: real): (n: int)
    ensures IsNearestEven(y, n)
  {
    var f := y.Floor;
    var frac := y - f as real;
    if frac < 0.5 then f
    else if frac > 0.5 then f + 1
    else if f % 2 == 0 then f
    else f + 1
  }

  /** Half-to-even rounding picks exactly one integer: any integer with that property is `Nearest(y)`. */
  lemma NearestUnique(y: real, n: int)
    requires IsNearestEven(y, n)
    ensures n == Nearest(y)
  {
  }

  /** Rounding to the nearest integer never reverses the order of two reals. */
  lemma NearestMonotone(x: real, y: real)
    requires x <= y
    ensures Nearest(x) <= Nearest(y)
  {
  }

  /** A real rounds to a positive integer exactly when it lies strictly above one half. */
  lemma NearestPositive(y: real)
    ensures Nearest(y) > 0 <==> y > 0.5
  {
  }

  /** The scale for two decimal places, used for the table and the reported optimum value. */
  const Cents: real := 100.0

  /** The scale for three decimal places, used for the reported optimum revenue. */
  const Mills: real := 1000.0

  /** `r` is a whole number of `1/scale` steps. */
  predicate OnGrid(r: real, scale: real)
  {
    (r * scale).Floor as real == r * scale
  }

  /**
   NumPy's rounding of `x` to the decimal grid of step `1/scale`: scale up,
   round half to even, scale back.
   */
  function Round(x: real, scale: real): (r: real)
    requires scale > 0.0
    ensures OnGrid(r, scale)
    ensures -0.5 <= (r - x) * scale <= 0.5
    ensures IsNearestEven(x * scale, (r * scale).Floor)
  {
    GridStep(Nearest(x * scale), x, scale);
    Nearest(x * scale) as real / scale
  }

  /** Dividing an integer `n` by the scale lands on the grid, as far from `x` as `n` is from `x * s`. */
  lemma GridStep(n: int, x: real, s: real)
    requires s > 0.0
    ensures OnGrid(n as real / s, s)
    ensures (n as real / s - x) * s == n as real - x * s
  {
    var r := n as real / s;
    assert r * s == n as real;
    assert (r * s).Floor == n;
  }

  /** Decimal rounding never reverses the order of two reals. */
  lemma RoundMonotone(x: real, y: real, scale: real)
    requires x <= y && scale > 0.0
    ensures Round(x, scale) <= Round(y, scale)
  {
    var s := scale;
    ScaleMonotone(x, y, s);
    NearestMonotone(x * s, y * s);
    DivideMonotone(Nearest(x * s) as real, Nearest(y * s) as real, s);
  }

  /** Scaling by a positive factor keeps order. */
  lemma ScaleMonotone(x: real, y: real, s: real)
    requires x <= y && s > 0.0
    ensures x * s <= y * s
  {
    assert y * s - x * s == (y - x) * s;
  }

  /** Dividing by a positive factor keeps order. */
  lemma DivideMonotone(a: real, b: real, s: real)
    requires a <= b && s > 0.0
    ensures a / s <= b / s
  {
    assert b / s - a / s == (b - a) / s;
  }

  /** The 3-decimal rounding the dashboard applies before its `> 0` test is positive exactly above 0.0005. */
  lemma RoundMillsPositive(x: real)
    ensures Round(x, Mills) > 0.0 <==> x > 0.0005
  {
    NearestPositive(x * 1000.0);
  }
}
