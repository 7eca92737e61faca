/**
 The dashboard callback `update_output_All`: select the records of one
 product and seller, fit the line the chosen direction needs, run that
 direction's optimizer, sort its table by revenue in descending order and
 round it, and choose the recommendation. Anything the optimizer raises
 turns into an empty table and a generic error message.
 */
module App {
  import opened Wrappers
  import opened Numerics
  import opened Frames
  import opened Sweep
  import opened Optimum
  import OptimizePrice
  import OptimizeQuantity

  /** A numeric cell after `pd.to_numeric(..., errors='coerce')`: a number, or NaN for text that is not one. */
  datatype Cell = Num(value: real) | Missing

  /** One record of the sales dataset, restricted to the columns the callback and the fit read. */
  datatype Record = Record(name: string, seller: string, price: Cell, quantity: Cell)

  /** The regression formula an optimizer fits: `"QUANTITY ~ PRICE"` or `"PRICE ~ QUANTITY"`. */
  datatype Formula = QuantityOnPrice | PriceOnQuantity

  /** The callback's inputs: both dropdowns, the direction radio item, the range slider and the cost input. */
  datatype Request = Request(product: string, seller: string, varOpt: string, lo: int, hi: int, varCost: real)

  /** The recommendation, up to its wording. */
  datatype Insight =
    | MaximumRevenue(revenue: real, value: real)  // "The maximum revenue of ... is achieved by optimizing ... at ..."
    | Loss                                        // "... you will incur a loss in revenue."
    | ProcessingError                             // "An error occurred while processing the data."

  /** The table records and the recommendation; the two figures are not part of the model. */
  datatype Output = Output(table: seq<Row>, insight: Insight)

  /** The record mask: the selected product and the selected seller. */
  function Selected(product: string, seller: string): Record -> bool
  {
    (x: Record) => x.name == product && x.seller == seller
  }

  /** `NAOS[(NAOS['NAME'] == product_name) & (NAOS['CADENA GENERAL'] == seller)]`. */
  function FilterData(data: seq<Record>, product: string, seller: string): (r: seq<Record>)
    ensures forall x :: multiset(r)[x] == if x.name == product && x.seller == seller then multiset(data)[x] else 0
    ensures forall x :: x in r <==> x in data && x.name == product && x.seller == seller
  {
    WhereContents(data, Selected(product, seller));
    Where(data, Selected(product, seller))
  }

  /** `var_opt == 'Price'` dispatches to the price sweep; every other value to the quantity sweep. */
  function FormulaFor(varOpt: string): (f: Formula)
    ensures f == QuantityOnPrice <==> varOpt == "Price"
  {
    if varOpt == "Price" then QuantityOnPrice else PriceOnQuantity
  }

  /**
   The dispatched optimizer run on the line fitted to the filtered records.
   `fit` stands for the OLS fit, which may raise (`None`); `None` is also the
   result when the optimizer raises.
   */
  function Solve(data: seq<Record>, req: Request, fit: (Formula, seq<Record>) -> Option<Line>): (res: Option<Optimization>)
    ensures fit(FormulaFor(req.varOpt), FilterData(data, req.product, req.seller)).None? ==> res.None?
    ensures req.hi <= req.lo ==> res.None?
    ensures res.Some? ==> Reported(req, res.value)
    ensures var f := fit(FormulaFor(req.varOpt), FilterData(data, req.product, req.seller));
      f.Some? && req.varOpt == "Price" ==>
        var r := OptimizePrice.FunOptimize(f.value, req.lo, req.hi, req.varCost);
        (res.Some? <==> r.Ok?) && (res.Some? ==> res.value == r.value)
    ensures var f := fit(FormulaFor(req.varOpt), FilterData(data, req.product, req.seller));
      f.Some? && req.varOpt != "Price" ==>
        var r := OptimizeQuantity.FunOptimize(f.value, req.lo, req.hi, req.varCost);
        (res.Some? <==> r.Ok?) && (res.Some? ==> res.value == r.value)
  {
    var filtered := FilterData(data, req.product, req.seller);
    match fit(FormulaFor(req.varOpt), filtered)
    case None => None
    case Some(line) =>
      match Dispatch(req, line)
      case Err(_) => None
      case Ok(o) => Some(o)
  }

  /**
   What the callback receives from a successful optimizer: a best row that
   strictly maximizes revenue, its revenue rounded to three decimals, and a
   table over the swept range of the chosen direction, with the swept value
   of the best row rounded to two decimals.
   */
  predicate Reported(req: Request, o: Optimization)
  {
    && IsBest(o.table, o.best)
    && o.revenue == Round(o.best.revenue, Mills)
    && |o.table| == |Range(req.lo, req.hi)|
    && if req.varOpt == "Price" then
         && (forall k :: 0 <= k < |o.table| ==> o.table[k].price == (req.lo + Step * k) as real)
         && o.value == Round(o.best.price, Cents)
       else
         && (forall k :: 0 <= k < |o.table| ==> o.table[k].quantity == (req.lo + Step * k) as real)
         && o.value == Round(o.best.quantity, Cents)
  }

  /** The optimizer `var_opt` selects, run on the fitted line. */
  function Dispatch(req: Request, line: Line): (r: Result<Optimization, Failure>)
    ensures req.varOpt == "Price" ==> r == OptimizePrice.FunOptimize(line, req.lo, req.hi, req.varCost)
    ensures req.varOpt != "Price" ==> r == OptimizeQuantity.FunOptimize(line, req.lo, req.hi, req.varCost)
    ensures req.hi <= req.lo ==> r.Err?
    ensures r.Ok? ==> Reported(req, r.value)
  {
    if req.varOpt == "Price" then
      PriceReported(req, line);
      OptimizePrice.FunOptimize(line, req.lo, req.hi, req.varCost)
    else
      QuantityReported(req, line);
      OptimizeQuantity.FunOptimize(line, req.lo, req.hi, req.varCost)
  }

  /** A successful price sweep reports what the callback expects of the price direction. */
  lemma PriceReported(req: Request, line: Line)
    requires req.varOpt == "Price"
    ensures var r := OptimizePrice.FunOptimize(line, req.lo, req.hi, req.varCost);
      r.Ok? ==> Reported(req, r.value)
  {
    var r := OptimizePrice.FunOptimize(line, req.lo, req.hi, req.varCost);
    if r.Ok? {
      assert r.value.table == OptimizePrice.Table(line, req.lo, req.hi, req.varCost);
    }
  }

  /** A successful quantity sweep reports what the callback expects of the quantity direction. */
  lemma QuantityReported(req: Request, line: Line)
    requires req.varOpt != "Price"
    ensures var r := OptimizeQuantity.FunOptimize(line, req.lo, req.hi, req.varCost);
      r.Ok? ==> Reported(req, r.value)
  {
    var r := OptimizeQuantity.FunOptimize(line, req.lo, req.hi, req.varCost);
    if r.Ok? {
      assert r.value.table == OptimizeQuantity.Table(line, req.lo, req.hi, req.varCost);
    }
  }

  /** When the fit succeeds and the price sweep finds its optimum, the price sweep's result is what the callback shows. */
  lemma SolvePrice(data: seq<Record>, req: Request, fit: (Formula, seq<Record>) -> Option<Line>, line: Line)
    requires req.varOpt == "Price"
    requires fit(QuantityOnPrice, FilterData(data, req.product, req.seller)) == Some(line)
    requires OptimizePrice.FunOptimize(line, req.lo, req.hi, req.varCost).Ok?
    ensures Solve(data, req, fit) == Some(OptimizePrice.FunOptimize(line, req.lo, req.hi, req.varCost).value)
  {
  }

  /** When the fit succeeds and the quantity sweep finds its optimum, the quantity sweep's result is what the callback shows. */
  lemma SolveQuantity(data: seq<Record>, req: Request, fit: (Formula, seq<Record>) -> Option<Line>, line: Line)
    requires req.varOpt != "Price"
    requires fit(PriceOnQuantity, FilterData(data, req.product, req.seller)) == Some(line)
    requires OptimizeQuantity.FunOptimize(line, req.lo, req.hi, req.varCost).Ok?
    ensures Solve(data, req, fit) == Some(OptimizeQuantity.FunOptimize(line, req.lo, req.hi, req.varCost).value)
  {
  }

  /** The sweep table of the direction `var_opt` selects, on the fitted line. */
  function SweepTable(req: Request, line: Line): seq<Row>
  {
    if req.varOpt == "Price" then OptimizePrice.Table(line, req.lo, req.hi, req.varCost)
    else OptimizeQuantity.Table(line, req.lo, req.hi, req.varCost)
  }

  /**
   Two swept points that share the maximum revenue make the optimizer raise,
   so the callback shows the error message and an empty table.
   */
  lemma TieShowsError(data: seq<Record>, req: Request, fit: (Formula, seq<Record>) -> Option<Line>, line: Line, i: int, j: int)
    requires fit(FormulaFor(req.varOpt), FilterData(data, req.product, req.seller)) == Some(line)
    requires 0 <= i < j < |SweepTable(req, line)|
    requires SweepTable(req, line)[i].revenue == SweepTable(req, line)[j].revenue
    requires forall k :: 0 <= k < |SweepTable(req, line)| ==> SweepTable(req, line)[k].revenue <= SweepTable(req, line)[i].revenue
    ensures UpdateOutputAll(data, req, fit) == Output([], ProcessingError)
  {
    TiedHasNoArgmax(SweepTable(req, line), i, j);
  }

  /**
   Lines 232 to 258 of the callback, shared by both directions: the
   optimizer's table sorted by revenue, highest first, then rounded to two
   decimals, with the maximum-revenue message when the reported optimum
   revenue is above zero and the loss message otherwise; an empty table and
   the error message when the optimizer raised.
   */
  function Present(res: Option<Optimization>): (out: Output)
    ensures out.insight.ProcessingError? <==> res.None?
    ensures res.None? ==> out.table == []
    ensures res.Some? ==>
      && |out.table| == |res.value.table|
      && SortedDesc(out.table)
      && multiset(out.table) == multiset(RoundTable(res.value.table, Cents))
    ensures res.Some? ==>
      exists s :: && SortedDesc(s) && multiset(s) == multiset(res.value.table)
                  && out.table == RoundTable(s, Cents)
    ensures out.insight.MaximumRevenue? <==> res.Some? && res.value.revenue > 0.0
    ensures out.insight.MaximumRevenue? ==>
      out.insight.revenue == res.value.revenue && out.insight.value == res.value.value
  {
    match res
    case None => Output([], ProcessingError)
    case Some(o) =>
      var sorted := SortByRevenueDesc(o.table);
      RoundTableSorted(sorted, Cents);
      RoundSortedPermutation(o.table, Cents);
      var table := RoundTable(sorted, Cents);
      if o.revenue > 0.0 then Output(table, MaximumRevenue(o.revenue, o.value))
      else Output(table, Loss)
  }

  /**
   `update_output_All`: the dispatched optimizer's result, presented. The
   maximum-revenue message appears exactly when the best revenue is still
   positive after rounding to three decimals, that is above 0.0005.
   */
  function UpdateOutputAll(data: seq<Record>, req: Request, fit: (Formula, seq<Record>) -> Option<Line>): (out: Output)
    ensures out.insight.ProcessingError? <==> Solve(data, req, fit).None?
    ensures out.insight.ProcessingError? ==> out.table == []
    ensures Solve(data, req, fit).Some? ==>
      && |out.table| == |Solve(data, req, fit).value.table|
      && SortedDesc(out.table)
      && multiset(out.table) == multiset(RoundTable(Solve(data, req, fit).value.table, Cents))
    ensures Solve(data, req, fit).Some? ==>
      exists s :: && SortedDesc(s) && multiset(s) == multiset(Solve(data, req, fit).value.table)
                  && out.table == RoundTable(s, Cents)
    ensures out.insight.MaximumRevenue? <==>
      Solve(data, req, fit).Some? && Solve(data, req, fit).value.best.revenue > 0.0005
    ensures out.insight.MaximumRevenue? ==>
      out.insight.revenue == Solve(data, req, fit).value.revenue && out.insight.value == Solve(data, req, fit).value.value
  {
    var res := Solve(data, req, fit);
    match res
    case None => Present(res)
    case Some(o) =>
      RoundMillsPositive(o.best.revenue);
      Present(res)
  }

  /** Records of other products or sellers, wherever they sit in the dataset, do not change the output. */
  lemma OtherRecordsIgnored(a: seq<Record>, x: Record, b: seq<Record>, req: Request, fit: (Formula, seq<Record>) -> Option<Line>)
    requires x.name != req.product || x.seller != req.seller
    ensures UpdateOutputAll(a + [x] + b, req, fit) == UpdateOutputAll(a + b, req, fit)
  {
    FilterSkipsOthers(a, x, b, req.product, req.seller);
    SameSelectionSameOutput(a + [x] + b, a + b, req, fit);
  }

  /** The filter drops a record of another product or seller wherever it sits. */
  lemma FilterSkipsOthers(a: seq<Record>, x: Record, b: seq<Record>, product: string, seller: string)
    requires x.name != product || x.seller != seller
    ensures FilterData(a + [x] + b, product, seller) == FilterData(a + b, product, seller)
  {
    WhereSkips(a, x, b, Selected(product, seller));
  }

  /** The output depends on the dataset only through the selected records. */
  lemma SameSelectionSameOutput(d1: seq<Record>, d2: seq<Record>, req: Request, fit: (Formula, seq<Record>) -> Option<Line>)
    requires FilterData(d1, req.product, req.seller) == FilterData(d2, req.product, req.seller)
    ensures UpdateOutputAll(d1, req, fit) == UpdateOutputAll(d2, req, fit)
  {
    assert Solve(d1, req, fit) == Solve(d2, req, fit);
    assert UpdateOutputAll(d1, req, fit) == Present(Solve(d1, req, fit));
    assert UpdateOutputAll(d2, req, fit) == Present(Solve(d2, req, fit));
  }
}
