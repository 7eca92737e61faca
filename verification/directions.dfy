/**
 The two optimizers compute revenue with differently written formulas:
 `(price - cost) * quantity` when sweeping price and
 `quantity * (price - cost)` when sweeping quantity. Given lines that
 describe the same demand curve, the two directions produce the same row.
 */
module Directions {
  import opened Sweep
  import OptimizePrice
  import OptimizeQuantity

  /** The line solved for its regressor: if `y = a + b * x` then `x = -a / b + y / b`. */
  function Inverse(line: Line): (inv: Line)
    requires line.slope != 0.0
    ensures forall x :: Predict(inv, Predict(line, x)) == x
  {
    var inv := Line(-line.intercept / line.slope, 1.0 / line.slope);
    assert forall x :: Predict(inv, Predict(line, x)) == x by {
      forall x ensures Predict(inv, Predict(line, x)) == x {
        InverseAt(line, x);
      }
    }
    inv
  }

  /** The inverse line undoes the line at `x`. */
  lemma InverseAt(line: Line, x: real)
    requires line.slope != 0.0
    ensures Predict(Line(-line.intercept / line.slope, 1.0 / line.slope), Predict(line, x)) == x
  {
    var a, b := line.intercept, line.slope;
    calc {
      -a / b + (1.0 / b) * (a + b * x);
      -a / b + a / b + (b * x) / b;
      x;
    }
  }

  /**
   Sweeping quantity along the inverse of a quantity-on-price line, to the
   quantity that line predicts at price `p`, yields exactly the row that
   sweeping price yields at `p`.
   */
  lemma DirectionsAgree(line: Line, p: real, cost: int)
    requires line.slope != 0.0
    ensures OptimizeQuantity.QuantityRow(Inverse(line), Predict(line, p), cost) == OptimizePrice.PriceRow(line, p, cost)
  {
    var q := Predict(line, p);
    assert Predict(Inverse(line), q) == p;
    assert q * (p - cost as real) == (p - cost as real) * q;
  }
}
