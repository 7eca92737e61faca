/**
 The fitted demand line and the discretised sweep both optimizers evaluate
 it on: `range(var_range[0], var_range[1], 10)`.
 */
module Sweep {

  /** The stride of the sweep; both optimizers fix it at 10. */
  const Step: int := 10

  /**
   An ordinary-least-squares line as `model.params` holds it: `params[0]`
   is the intercept and `params[1]` the slope on the single regressor.
   */
  datatype Line = Line(intercept: real, slope: real)

  /**
   The line's value at `x`: `params[0] + params[1] * x`. The intercept is
   the value at zero, and a flat line predicts it everywhere.
   */
  function Predict(line: Line, x: real): (y: real)
    ensures x == 0.0 ==> y == line.intercept
    ensures line.slope == 0.0 ==> y == line.intercept
  {
    line.intercept + line.slope * x
  }

  /** The line is affine: between two points its value changes by the slope times their distance. */
  lemma PredictDifference(line: Line, x: real, z: real)
    ensures Predict(line, x) - Predict(line, z) == line.slope * (x - z)
  {
    assert line.slope * x - line.slope * z == line.slope * (x - z);
  }

  /**
   Python's `range(lo, hi, Step)`: `lo, lo + Step, ...` strictly below `hi`,
   and nothing at all when `hi <= lo`.
   */
  function Range(lo: int, hi: int): (xs: seq<int>)
    decreases hi - lo
    ensures |xs| == if lo < hi then (hi - lo + Step - 1) / Step else 0
    ensures forall k :: 0 <= k < |xs| ==> xs[k] == lo + Step * k
  {
    if hi <= lo then [] else [lo] + Range(lo + Step, hi)
  }

  /** A value is swept exactly when it lies in `[lo, hi)` on the stride from `lo`; `hi` itself never is. */
  lemma RangeMembers(lo: int, hi: int, x: int)
    ensures x in Range(lo, hi) <==> lo <= x < hi && (x - lo) % Step == 0
  {
    var xs := Range(lo, hi);
    if lo <= x < hi && (x - lo) % Step == 0 {
      var k := (x - lo) / Step;
      assert xs[k] == x;
    }
  }
}
