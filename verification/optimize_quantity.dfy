/**
 `optimize_quantity.fun_optimize`: sweep the quantity, predict the price
 from a price-on-quantity line, and report the quantity with the maximum
 revenue.
 */
module OptimizeQuantity {
  import opened Wrappers
  import opened Numerics
  import opened Frames
  import opened Sweep
  import opened Optimum

  /** One pass of the loop at quantity `q`: the predicted price and `q * (price - cost)`. */
  function QuantityRow(line: Line, q: real, cost: int): (row: Row)
    ensures row.quantity == q && row.price == Predict(line, q)
    ensures row.revenue == Profit(row.price, q, cost)
  {
    var demand := Predict(line, q);
    Row(demand, q, q * (demand - cost as real))
  }

  /**
   The `profit` table for the swept quantities, one row per quantity in
   sweep order. Although the loop multiplies in the other order, each
   revenue is the same `(price - cost) * quantity` as in the price direction.
   */
  function QuantityTable(line: Line, quantities: seq<int>, cost: int): (rows: seq<Row>)
    ensures |rows| == |quantities|
    ensures forall k :: 0 <= k < |rows| ==>
      && rows[k].quantity == quantities[k] as real
      && rows[k].price == Predict(line, rows[k].quantity)
      && rows[k].revenue == Profit(rows[k].price, rows[k].quantity, cost)
  {
    if quantities == [] then []
    else [QuantityRow(line, quantities[0] as real, cost)] + QuantityTable(line, quantities[1..], cost)
  }

  /**
   The table `fun_optimize` builds for a range and a cost: row `k` holds the
   `k`-th swept quantity `lo + 10 * k`, its predicted price, and its revenue
   at the cost `int(var_cost)`.
   */
  function Table(line: Line, lo: int, hi: int, varCost: real): (rows: seq<Row>)
    ensures |rows| == if lo < hi then (hi - lo + Step - 1) / Step else 0
    ensures forall k :: 0 <= k < |rows| ==>
      && rows[k].quantity == (lo + Step * k) as real
      && rows[k].price == Predict(line, rows[k].quantity)
      && rows[k].revenue == Profit(rows[k].price, rows[k].quantity, Trunc(varCost))
  {
    QuantityTable(line, Range(lo, hi), Trunc(varCost))
  }

  /**
   `fun_optimize` without its figures: the table and the quantity whose row
   alone has the maximum revenue; an empty range or a tie raises.
   */
  function FunOptimize(line: Line, lo: int, hi: int, varCost: real): (res: Result<Optimization, Failure>)
    ensures hi <= lo ==> res == Err(EmptyRange)
    ensures res.Ok? <==> exists k :: UniqueArgmax(Table(line, lo, hi, varCost), k)
    ensures res.Ok? ==>
      var o := res.value;
      && o.table == Table(line, lo, hi, varCost)
      && IsBest(o.table, o.best)
      && o.value == Round(o.best.quantity, Cents)
      && o.revenue == Round(o.best.revenue, Mills)
  {
    var table := Table(line, lo, hi, varCost);
    match SelectBest(table)
    case Err(e) => Err(e)
    case Ok(best) => Ok(Report(table, best, best.quantity))
  }
}
