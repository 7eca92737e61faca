/**
 What the two optimizers share: the revenue law, the returned optimization,
 and the selection of the maximum-revenue row, which raises unless exactly
 one row attains the maximum.
 */
module Optimum {
  import opened Wrappers
  import opened Numerics
  import opened Frames

  /**
   Why `fun_optimize` raises instead of returning. Both come from `int()` on
   the selection of maximum-revenue rows, which only converts a one-row
   column.
   */
  datatype Failure =
    | EmptyRange              // the sweep has no point, so nothing is selected
    | TiedMaximum(rows: nat)  // this many rows share the maximum revenue

  /** Revenue net of a per-unit cost: `(price - cost) * quantity`. */
  function Profit(price: real, quantity: real, cost: int): (r: real)
    ensures price == cost as real || quantity == 0.0 ==> r == 0.0
  {
    (price - cost as real) * quantity
  }

  /** With units sold, a row earns money exactly when its price is above the cost. */
  lemma ProfitSign(price: real, quantity: real, cost: int)
    requires quantity > 0.0
    ensures Profit(price, quantity, cost) > 0.0 <==> price > cost as real
  {
  }

  /**
   What `fun_optimize` returns, figures aside: the sweep table, the row at
   the maximum, and the reported optimum, that is its swept value rounded to
   two decimals and its revenue rounded to three.
   */
  datatype Optimization = Optimization(table: seq<Row>, best: Row, value: real, revenue: real)

  /** Row `k` has strictly more revenue than every other row. */
  predicate UniqueArgmax(rows: seq<Row>, k: int)
  {
    && 0 <= k < |rows|
    && forall j :: 0 <= j < |rows| && j != k ==> rows[j].revenue < rows[k].revenue
  }

  /** `best` is a row of the table, no row has more revenue, and no other row has as much. */
  predicate IsBest(rows: seq<Row>, best: Row)
  {
    && best in rows
    && (forall r :: r in rows ==> r.revenue <= best.revenue)
    && (forall r :: r in rows && r.revenue == best.revenue ==> r == best)
  }

  /** On a non-empty table, a strict maximum is the one row the maximum-revenue mask selects. */
  lemma UniqueArgmaxIsOnlyMatch(rows: seq<Row>, k: int)
    requires |rows| > 0
    ensures UniqueArgmax(rows, k) <==> OnlyMatch(rows, RevenueIs(MaxRevenue(rows)), k)
  {
    var m := MaxRevenue(rows);
    if UniqueArgmax(rows, k) {
      var i :| 0 <= i < |rows| && rows[i].revenue == m;
      assert i == k;
    }
  }

  /** Two rows sharing the maximum revenue leave no row strictly above all others. */
  lemma TiedHasNoArgmax(rows: seq<Row>, i: int, j: int)
    requires 0 <= i < j < |rows| && rows[i].revenue == rows[j].revenue
    requires forall k :: 0 <= k < |rows| ==> rows[k].revenue <= rows[i].revenue
    ensures forall k :: !UniqueArgmax(rows, k)
  {
    forall k | 0 <= k < |rows| ensures !UniqueArgmax(rows, k) {
      if k == i {
        assert rows[j].revenue == rows[k].revenue;
      } else {
        assert rows[k].revenue <= rows[i].revenue;
      }
    }
  }

  /**
   Lines 40 and 45 of either optimizer: select the rows at the maximum
   revenue and convert the selection, which succeeds only when it holds
   exactly one row.
   */
  function SelectBest(rows: seq<Row>): (res: Result<Row, Failure>)
    ensures rows == [] <==> res == Err(EmptyRange)
    ensures res.Ok? <==> exists k :: UniqueArgmax(rows, k)
    ensures forall k :: UniqueArgmax(rows, k) ==> res == Ok(rows[k])
    ensures res.Ok? ==> IsBest(rows, res.value)
    ensures res.Err? && rows != [] ==>
      exists i, j :: 0 <= i < j < |rows| && rows[i].revenue == rows[j].revenue == MaxRevenue(rows)
  {
    if rows == [] then Err(EmptyRange)
    else
      var m := MaxRevenue(rows);
      var top := AtMaximum(rows);
      WhereSingleton(rows, RevenueIs(m));
      assert forall k :: UniqueArgmax(rows, k) <==> OnlyMatch(rows, RevenueIs(m), k) by {
        forall k { UniqueArgmaxIsOnlyMatch(rows, k); }
      }
      if |top| != 1 then
        var i :| 0 <= i < |rows| && rows[i].revenue == m;
        assert !OnlyMatch(rows, RevenueIs(m), i);
        var j :| 0 <= j < |rows| && j != i && rows[j].revenue == m;
        assert if i < j then rows[i].revenue == rows[j].revenue == m else rows[j].revenue == rows[i].revenue == m;
        Err(TiedMaximum(|top|))
      else
        var k :| UniqueArgmax(rows, k);
        assert IsBest(rows, rows[k]);
        Ok(top[0])
  }

  /** The optimum reported for a selected row: its swept value and its revenue, rounded for display. */
  function Report(table: seq<Row>, best: Row, swept: real): (o: Optimization)
    ensures o.table == table && o.best == best
    ensures OnGrid(o.value, Cents) && -0.5 <= (o.value - swept) * Cents <= 0.5
    ensures OnGrid(o.revenue, Mills) && -0.5 <= (o.revenue - best.revenue) * Mills <= 0.5
  {
    Optimization(table, best, Round(swept, Cents), Round(best.revenue, Mills))
  }
}
