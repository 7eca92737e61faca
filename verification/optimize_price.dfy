/**
 `optimize_price.fun_optimize`: sweep the price, predict the quantity from
 a quantity-on-price line, and report the price with the maximum revenue.
 */
module OptimizePrice {
  import opened Wrappers
  import opened Numerics
  import opened Frames
  import opened Sweep
  import opened Optimum

  /** One pass of the loop at price `p`: the predicted quantity and `(p - cost) * quantity`. */
  function PriceRow(line: Line, p: real, cost: int): (row: Row)
    ensures row.price == p && row.quantity == Predict(line, p)
    ensures row.revenue == Profit(p, row.quantity, cost)
  {
    var demand := Predict(line, p);
    Row(p, demand, (p - cost as real) * demand)
  }

  /** The `profit` table for the swept prices, one row per price in sweep order. */
  function PriceTable(line: Line, prices: seq<int>, cost: int): (rows: seq<Row>)
    ensures |rows| == |prices|
    ensures forall k :: 0 <= k < |rows| ==>
      && rows[k].price == prices[k] as real
      && rows[k].quantity == Predict(line, rows[k].price)
      && rows[k].revenue == Profit(rows[k].price, rows[k].quantity, cost)
  {
    if prices == [] then []
    else [PriceRow(line, prices[0] as real, cost)] + PriceTable(line, prices[1..], cost)
  }

  /**
   The table `fun_optimize` builds for a range and a cost: row `k` holds the
   `k`-th swept price `lo + 10 * k`, its predicted quantity, and its revenue
   at the cost `int(var_cost)`.
   */
  function Table(line: Line, lo: int, hi: int, varCost: real): (rows: seq<Row>)
    ensures |rows| == if lo < hi then (hi - lo + Step - 1) / Step else 0
    ensures forall k :: 0 <= k < |rows| ==>
      && rows[k].price == (lo + Step * k) as real
      && rows[k].quantity == Predict(line, rows[k].price)
      && rows[k].revenue == Profit(rows[k].price, rows[k].quantity, Trunc(varCost))
  {
    PriceTable(line, Range(lo, hi), Trunc(varCost))
  }

  /**
   `fun_optimize` without its figures: the table and the price whose row
   alone has the maximum revenue; an empty range or a tie raises.
   */
  function FunOptimize(line: Line, lo: int, hi: int, varCost: real): (res: Result<Optimization, Failure>)
    ensures hi <= lo ==> res == Err(EmptyRange)
    ensures res.Ok? <==> exists k :: UniqueArgmax(Table(line, lo, hi, varCost), k)
    ensures res.Ok? ==>
      var o := res.value;
      && o.table == Table(line, lo, hi, varCost)
      && IsBest(o.table, o.best)
      && o.value == Round(o.best.price, Cents)
      && o.revenue == Round(o.best.revenue, Mills)
  {
    var table := Table(line, lo, hi, varCost);
    match SelectBest(table)
    case Err(e) => Err(e)
    case Ok(best) => Ok(Report(table, best, best.price))
  }
}
