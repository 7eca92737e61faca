/**
 Worked instances of the model: the default dashboard settings (price range
 200 to 400, cost 80) on a demand line `quantity = 1000 - 2 * price`, a
 range whose two best prices tie, and a demand line on which every price
 loses money.
 */
module Scenarios {
  import opened Wrappers
  import opened Numerics
  import opened Frames
  import opened Sweep
  import opened Optimum
  import OptimizePrice
  import App

  /** A downward demand line: 1000 units at price 0, two fewer per unit of price. */
  const Demand := Line(1000.0, -2.0)

  /** On `Demand` at cost 80, revenue is a parabola in the price with its peak of 88200 at price 290. */
  lemma Parabola(p: int)
    ensures Profit(p as real, Predict(Demand, p as real), 80) == (88200 - 2 * ((p - 290) * (p - 290))) as real
  {
  }

  /** Away from price 290 the parabola lies strictly below its peak. */
  lemma BelowPeak(p: int)
    requires p != 290
    ensures Profit(p as real, Predict(Demand, p as real), 80) < 88200.0
  {
    Parabola(p);
    SquareBelow(p - 290);
  }

  /** A non-zero integer square pulls the peak down. */
  lemma SquareBelow(d: int)
    requires d != 0
    ensures 88200 - 2 * (d * d) < 88200
  {
  }

  /** Price 290, the tenth swept price, is the strict maximum of the default sweep. */
  lemma PeakIsUnique(t: seq<Row>, lo: int, hi: int, varCost: real)
    requires lo == 200 && hi == 400 && varCost == 80.0
    requires t == OptimizePrice.Table(Demand, lo, hi, varCost)
    ensures |t| == 20 && t[9] == Row(290.0, 420.0, 88200.0)
    ensures UniqueArgmax(t, 9)
  {
    PeakRow(t, lo, hi, varCost);
    forall j | 0 <= j < |t| && j != 9 ensures t[j].revenue < t[9].revenue {
      RowBelowPeak(t, lo, hi, varCost, j);
    }
  }

  /** Row `j` of the default sweep on `Demand`: price `200 + 10 * j` and its revenue on the line. */
  lemma DemandRow(t: seq<Row>, lo: int, hi: int, varCost: real, j: int)
    requires lo == 200 && hi == 400 && varCost == 80.0
    requires t == OptimizePrice.Table(Demand, lo, hi, varCost)
    requires 0 <= j < |t|
    ensures t[j].price == (lo + Step * j) as real
    ensures t[j].quantity == Predict(Demand, t[j].price)
    ensures t[j].revenue == Profit(t[j].price, t[j].quantity, 80)
  {
    assert Trunc(varCost) == 80;
  }

  /** The default sweep has twenty rows, the tenth at price 290 selling 420 units for 88200. */
  lemma PeakRow(t: seq<Row>, lo: int, hi: int, varCost: real)
    requires lo == 200 && hi == 400 && varCost == 80.0
    requires t == OptimizePrice.Table(Demand, lo, hi, varCost)
    ensures |t| == 20 && t[9] == Row(290.0, 420.0, 88200.0)
  {
    assert |t| == 20 by {
      assert |t| == |Range(lo, hi)|;
    }
    DemandRow(t, lo, hi, varCost, 9);
    assert t[9].price == 290.0;
    assert t[9].quantity == 420.0 by {
      assert t[9].quantity == Predict(Demand, 290.0);
    }
    assert t[9].revenue == 88200.0 by {
      assert t[9].revenue == Profit(290.0, 420.0, 80);
    }
  }

  /** Every row of the default sweep other than the tenth earns less than 88200. */
  lemma RowBelowPeak(t: seq<Row>, lo: int, hi: int, varCost: real, j: int)
    requires lo == 200 && hi == 400 && varCost == 80.0
    requires t == OptimizePrice.Table(Demand, lo, hi, varCost)
    requires 0 <= j < |t| && j != 9
    ensures t[j].revenue < 88200.0
  {
    DemandRow(t, lo, hi, varCost, j);
    BelowPeak(lo + Step * j);
  }

  /**
   Sweeping prices 200, 210, ..., 390 at cost 80 evaluates twenty rows and
   reports price 290 with revenue 88200.
   */
  lemma DefaultSettings()
    ensures |OptimizePrice.Table(Demand, 200, 400, 80.0)| == 20
    ensures OptimizePrice.FunOptimize(Demand, 200, 400, 80.0).Ok?
    ensures var o := OptimizePrice.FunOptimize(Demand, 200, 400, 80.0).value;
      o.best == Row(290.0, 420.0, 88200.0) && o.value == 290.0 && o.revenue == 88200.0
  {
    var t := OptimizePrice.Table(Demand, 200, 400, 80.0);
    PeakIsUnique(t, 200, 400, 80.0);
    var o := OptimizePrice.FunOptimize(Demand, 200, 400, 80.0).value;
    assert o.best == t[9];
    NearestUnique(290.0 * Cents, 29000);
    NearestUnique(88200.0 * Mills, 88200000);
  }

  /**
   Prices 285 and 295 sit symmetrically about the peak, so they tie for the
   maximum and the optimizer raises instead of picking one.
   */
  lemma TieRaises()
    ensures OptimizePrice.FunOptimize(Demand, 285, 300, 80.0) == Err(TiedMaximum(2))
  {
    var t := OptimizePrice.Table(Demand, 285, 300, 80.0);
    assert |t| == 2;
    assert Trunc(80.0) == 80;
    assert t[0].revenue == t[1].revenue == 88150.0;
    assert !UniqueArgmax(t, 0) && !UniqueArgmax(t, 1);
  }

  /** A line that predicts 5 units short at every price. */
  const Shortfall := Line(-5.0, 0.0)

  /** On `Shortfall` every swept price loses money, the least at the cheapest price. */
  lemma ShortfallTable(t: seq<Row>, lo: int, hi: int, varCost: real)
    requires lo == 200 && hi == 400 && varCost == 80.0
    requires t == OptimizePrice.Table(Shortfall, lo, hi, varCost)
    ensures |t| == 20 && t[0].revenue == -600.0
    ensures UniqueArgmax(t, 0)
  {
    assert Trunc(varCost) == 80;
    assert t[0].revenue == Profit(200.0, -5.0, 80);
    forall j | 0 <= j < |t| && j != 0 ensures t[j].revenue < t[0].revenue {
      var p := lo + Step * j;
      assert t[j].price == p as real;
      assert t[j].revenue == Profit(p as real, -5.0, 80);
    }
  }

  /**
   Whatever the dataset, when the fit on the selected records yields
   `Shortfall`, sweeping prices 200 to 400 at cost 80 shows the whole table
   with the loss message.
   */
  lemma LossMessage(data: seq<App.Record>, req: App.Request, fit: (App.Formula, seq<App.Record>) -> Option<Line>)
    requires req.varOpt == "Price" && req.lo == 200 && req.hi == 400 && req.varCost == 80.0
    requires fit(App.QuantityOnPrice, App.FilterData(data, req.product, req.seller)) == Some(Shortfall)
    ensures App.UpdateOutputAll(data, req, fit).insight == App.Loss
    ensures |App.UpdateOutputAll(data, req, fit).table| == 20
  {
    var t := OptimizePrice.Table(Shortfall, req.lo, req.hi, req.varCost);
    ShortfallTable(t, req.lo, req.hi, req.varCost);
    var res := OptimizePrice.FunOptimize(Shortfall, req.lo, req.hi, req.varCost);
    assert res.Ok? && res.value.best == t[0];
    App.SolvePrice(data, req, fit, Shortfall);
    var out := App.UpdateOutputAll(data, req, fit);
    assert !out.insight.MaximumRevenue?;
    assert !out.insight.ProcessingError?;
    assert |out.table| == |t|;
  }
}
