# Revenue optimization of the pricing dashboard, in Dafny

This project models the algorithmic core of a Dash pricing dashboard. The
dashboard fits a straight demand line to the sales records of one product at
one seller. It then sweeps either the price or the quantity in steps of 10
over a chosen range. At every swept point it predicts the other variable,
computes the revenue net of a per-unit cost, and reports the point with the
highest revenue. The callback then sorts the sweep table by revenue, highest
first, and either states the maximum revenue or warns of a loss.

Everything is modelled with exact `real`s over sequences of immutable rows:

- `Sweep` models `range(lo, hi, 10)` and the fitted line `params[0] + params[1] * x`.
- `Numerics` models `int(var_cost)`, which truncates toward zero. It also
  models NumPy's decimal rounding, which rounds half to even.
- `Frames` models the DataFrame operations used: boolean-mask selection, the
  column maximum, the rows at the maximum, `sort_values('Revenue', ascending=False)`
  and `np.round`.
- `Optimum` holds what both directions share:
  - the revenue law `(price - cost) * quantity`;
  - the selection of the maximum-revenue row. That selection raises unless
    exactly one row attains the maximum, because line 45 of both optimizers
    calls `int()` on it.
- `OptimizePrice` and `OptimizeQuantity` model the two `fun_optimize`
  functions. The quantity direction writes its revenue as
  `quantity * (price - cost)`. Its table contract states that this is the
  same `(price - cost) * quantity` as in the price direction.
- `Directions` compares the two directions in one special case. The two
  directions fit separate OLS lines: quantity on price, and price on
  quantity. Those two lines are inverses of each other only when the
  records lie exactly on one line. Only in that case does
  `Directions.DirectionsAgree` show that the two sweeps produce identical
  rows. In general the two fits differ, and so do the two modes' tables.
- `App` models `update_output_All`. It selects the records by product and
  seller and dispatches on `var_opt == 'Price'`. It sorts and rounds the
  table and picks the message. Anything that raises becomes an empty table
  with the error message.
- `Scenarios` works through three cases:
  - the dashboard's default settings, with price range 200 to 400 and cost 80;
  - a tie that raises;
  - a sweep in which every price loses money.

The OLS fit is a statsmodels call. The model therefore takes it as a
parameter `fit`, which returns `None` when it raises.

Points of the code's behaviour that are easy to misread:

- **Ties.** A tie for the maximum revenue does not go to the first row. It
  makes `int()` raise at line 45 of both optimizers, so the callback shows
  the error message.
- **Sort order.** pandas' default sort is quicksort, which is not stable,
  so rows with equal revenue keep no particular order. The sort happens
  before the rounding, so rows whose different revenues round to the same
  cents still come out in their exact revenue order.
- **Cost.** The cost is truncated with `int()` before any arithmetic. The messages still print the value as entered.
- **Step.** The sweep's step is fixed at 10.
- **Revenue formulas.** The two revenue formulas are written differently
  but are algebraically the same.
- **Loss test.** The `> 0` test applies to the optimum revenue after it is
  rounded to three decimals. So the maximum-revenue message appears exactly
  when the best revenue exceeds 0.0005.

## Model

| member | source | states |
|---|---|---|
| Sweep.Range | optimize_price.py:27 | the swept values are `lo + 10*k` for k below ceil((hi - lo)/10) when hi > lo, and there are none otherwise |
| Sweep.Predict | optimize_price.py:32 | the fitted line's value at x: `params[0]` is the value at zero, and a line with zero slope predicts `params[0]` everywhere |
| Sweep.PredictDifference | optimize_price.py:32 | the fitted line is affine: between two swept points its value changes by `params[1]` times their distance |
| Sweep.RangeMembers | optimize_quantity.py:27 | a value is swept iff lo <= x < hi and x - lo is a multiple of 10, so `hi` itself is never evaluated |
| Numerics.Trunc | optimize_price.py:28 | `int(var_cost)` truncates toward zero: the result is non-negative for a non-negative cost and non-positive for a negative one, lies within 1 of the cost, and never goes beyond it |
| Numerics.Nearest | optimize_price.py:67 | the rounded integer is within one half of the input, and an exact tie goes to the even integer |
| Numerics.NearestUnique | optimize_quantity.py:57 | half-to-even rounding determines one integer: any integer with that property is the rounded one |
| Numerics.NearestMonotone | app.py:232 | rounding to integers preserves order |
| Numerics.NearestPositive | app.py:234 | an input rounds to a positive integer iff it exceeds one half |
| Numerics.Round | optimize_price.py:67 | `round(x, d)` lands on the decimal grid of step 1/10^d, within half a step of x, and an exact tie goes to the even last digit |
| Numerics.GridStep | optimize_quantity.py:57 | an integer divided by the scale lies on the grid, at the scaled distance from x |
| Numerics.RoundMonotone | app.py:247 | decimal rounding never reverses the order of two revenues |
| Numerics.RoundMillsPositive | app.py:234 | the optimum revenue rounded to 3 decimals is > 0 iff the revenue exceeds 0.0005; in particular a revenue of 0 gives the loss message |
| Frames.Where | app.py:224-227 | boolean-mask selection never holds more rows than the frame it selects from |
| Frames.WhereContents | app.py:224-227 | the selection holds every copy of each matching row and no other row |
| Frames.WhereAppend | app.py:224-227 | selecting from a concatenation concatenates the selections, so row order is kept |
| Frames.WhereSkips | app.py:224-227 | a row the mask rejects drops out wherever it sits |
| Frames.WhereSingleton | optimize_price.py:40-45 | a selection holds exactly one row iff exactly one position matches, and then that row is the selection |
| Frames.MaxRevenue | optimize_price.py:40 | `profit['Revenue'].max()` bounds every row's revenue and is attained by some row |
| Frames.AtMaximum | optimize_quantity.py:40 | `max_val` holds exactly the rows whose revenue no row exceeds; it is empty for an empty table and non-empty otherwise |
| Frames.Insert | app.py:247 | inserting a row into a descending table keeps it descending and adds exactly that row |
| Frames.SortByRevenueDesc | app.py:232 | `sort_values('Revenue', ascending=False)` orders revenues non-increasingly and neither adds nor drops a row |
| Frames.SortedRevenuesAgree | app.py:247 | any two descending orderings of the same rows have the same Revenue column, so the order pandas gives to tied rows changes no revenue position |
| Frames.HeadsAgree | app.py:232 | two descending orderings of the same rows start with the same revenue |
| Frames.RemoveKeepsSorted | app.py:232 | dropping a row from a descending table keeps it descending |
| Frames.RemoveKeepsOthers | app.py:247 | dropping the same row from two rearrangements of each other leaves rearrangements of each other |
| Frames.RoundTable | app.py:232 | `np.round(res, decimals=2)` rounds each row in place and keeps the row count and order |
| Frames.RoundTableSorted | app.py:247 | rounding a descending table keeps it descending |
| Frames.RoundInsert | app.py:232 | rounding after an insertion gives the same rows as rounding the table and the inserted row separately |
| Frames.RoundSortedPermutation | app.py:247 | the sorted and rounded table has exactly the rounded rows of the optimizer's table |
| Optimum.Profit | optimize_price.py:34 | revenue net of the per-unit cost is zero when the price equals the cost or nothing is sold |
| Optimum.ProfitSign | optimize_price.py:34 | when units are sold, a row earns money exactly when its price is above the cost |
| Optimum.Report | optimize_price.py:67 | the reported optimum keeps the table and the best row, and gives the swept value on the cent grid and the revenue on the tenth-of-a-cent grid, each within half a step of the exact value |
| Optimum.TiedHasNoArgmax | optimize_price.py:40-45 | two rows sharing the maximum revenue leave no row strictly above all others, so the one-row selection cannot succeed |
| Optimum.UniqueArgmaxIsOnlyMatch | optimize_quantity.py:40-45 | a row has strictly the most revenue iff it is the only row the maximum-revenue mask selects |
| Optimum.SelectBest | optimize_price.py:40-45 | the selection is an error for an empty table, succeeds iff one row has strictly the most revenue and then returns that row, and on a tie two rows share the maximum |
| OptimizePrice.PriceRow | optimize_price.py:32-34 | one loop pass at price p: the price itself, the line's quantity at p, and the revenue (p - cost) * quantity |
| OptimizePrice.PriceTable | optimize_price.py:31-34 | row k holds the k-th price, the line's quantity at it, and revenue (price - cost) * quantity |
| OptimizePrice.Table | optimize_price.py:27-38 | the table has one row per swept price; row k is price lo + 10k with its predicted quantity and its revenue at cost int(var_cost) |
| OptimizePrice.FunOptimize | optimize_price.py:13-67 | fails on an empty range and succeeds iff one row strictly maximizes revenue. On success the best row is in the table, no row beats it and no other row ties it, and it reports price rounded to 2 and revenue rounded to 3 decimals |
| OptimizeQuantity.QuantityRow | optimize_quantity.py:32-34 | one loop pass at quantity q: q itself, the line's price at q, and the revenue q * (price - cost), which is the same law (price - cost) * q |
| OptimizeQuantity.QuantityTable | optimize_quantity.py:31-34 | row k holds the k-th quantity, the line's price at it, and revenue quantity * (price - cost), which equals (price - cost) * quantity |
| OptimizeQuantity.Table | optimize_quantity.py:27-38 | the table has one row per swept quantity; row k is quantity lo + 10k with its predicted price and its revenue at cost int(var_cost) |
| OptimizeQuantity.FunOptimize | optimize_quantity.py:13-57 | fails on an empty range and succeeds iff one row strictly maximizes revenue. On success the best row is in the table, no row beats it and no other row ties it, and it reports quantity rounded to 2 and revenue rounded to 3 decimals |
| Directions.DirectionsAgree | optimize_quantity.py:32-34 | if the price-on-quantity line is exactly the inverse of the quantity-on-price line (the two fits agree only on records lying on one line), the quantity sweep's row equals the price sweep's row, revenue included |
| App.FilterData | app.py:224-227 | the filtered data holds exactly the records with the chosen NAME and CADENA GENERAL, every copy of each, and nothing else |
| App.FormulaFor | app.py:229 | `var_opt == 'Price'` selects the quantity-on-price fit, and every other value selects the price-on-quantity fit |
| App.Solve | app.py:229-246 | A failed fit gives no result. Otherwise the result is exactly the dispatched optimizer's: `'Price'` runs the price optimizer on the quantity-on-price fit and any other value runs the quantity optimizer on the price-on-quantity fit, and there is a result iff that optimizer succeeds, so an empty range or a tie gives none. A result's best row strictly maximizes revenue over a table of the swept range, with the reported values rounded |
| App.SolvePrice | app.py:229-231 | when the fit on the filtered records succeeds and the price sweep finds its optimum, that optimum is the callback's result |
| App.SolveQuantity | app.py:244-246 | when the fit on the filtered records succeeds and the quantity sweep finds its optimum, that optimum is the callback's result |
| App.TieShowsError | app.py:259-267 | when two swept points of the chosen direction share the maximum revenue, the callback returns the error message and an empty table |
| App.Present | app.py:232-258 | the shown table is the optimizer's table sorted by exact revenue, highest first, and then rounded row by row to two decimals. The maximum-revenue message appears iff the reported optimum revenue is positive and carries it; an optimizer failure gives the error message and an empty table |
| App.UpdateOutputAll | app.py:221-267 | error message iff the optimizer failed, and then an empty table. Otherwise the table is some descending ordering of the optimizer's exact rows, rounded row by row afterwards, so rows are ordered by exact revenue even where rounding makes revenues equal. The maximum-revenue message appears iff the best revenue exceeds 0.0005 and carries the reported optimum |
| App.OtherRecordsIgnored | app.py:224-227 | inserting a record of another product or seller anywhere in the data leaves the output unchanged |
| App.FilterSkipsOthers | app.py:224-227 | the filter drops a record of another product or seller wherever it sits |
| App.SameSelectionSameOutput | app.py:221-231 | the output depends on the data only through the filtered records |
| Scenarios.Parabola | optimize_price.py:32-34 | on quantity = 1000 - 2*price at cost 80, revenue is 88200 - 2*(price - 290)^2 |
| Scenarios.BelowPeak | optimize_price.py:34 | on that line every price other than 290 earns strictly less than 88200 |
| Scenarios.PeakRow | optimize_price.py:27-34 | for the fitted line quantity = 1000 - 2*price, the price sweep over [200, 400) at cost 80 has 20 rows, and the tenth is price 290 selling 420 units for revenue 88200 |
| Scenarios.PeakIsUnique | optimize_price.py:27-40 | for the fitted line quantity = 1000 - 2*price, the price sweep over [200, 400) at cost 80 has 20 rows, and the row at price 290 (revenue 88200) strictly maximizes revenue |
| Scenarios.DefaultSettings | optimize_price.py:27-67 | for the fitted line quantity = 1000 - 2*price, the dashboard's default price range [200, 400) and cost 80 make the optimizer evaluate 20 prices and report price 290 with revenue 88200 |
| Scenarios.TieRaises | optimize_price.py:40-45 | for the fitted line quantity = 1000 - 2*price and cost 80, the sweep over [285, 300) has prices 285 and 295 tied at the maximum, so the optimizer raises instead of choosing one |
| Scenarios.ShortfallTable | optimize_price.py:31-40 | for the fitted line quantity = -5, the price sweep over [200, 400) at cost 80 has 20 rows that all lose money, and the cheapest price loses least, uniquely |
| Scenarios.LossMessage | app.py:239-243 | when the fit on the selected records is quantity = -5, the price direction with range [200, 400) and cost 80 shows the 20-row table with the loss message. A loss everywhere does not give the loss message in general: if losing rows tie for the maximum, the optimizer raises and `App.TieShowsError` applies |

## Left out

- Loading the CSV at import time (app.py:29, optimize_price.py:11, optimize_quantity.py:10) is file I/O with a fixed path.
- The OLS fit (optimize_price.py:25, optimize_quantity.py:25) is a statsmodels call. `App.Solve` takes it as the parameter `fit`, which sees the filtered records and the formula. `None` stands for a fit that raises.
- `pd.to_numeric(..., errors='coerce')` (optimize_price.py:16-17, optimize_quantity.py:15-16) is pandas behaviour on strings. A record's price and quantity are `Cell`s, and only the fit reads them.
- Figures, annotations, `fig.show()`, the page layout, the range-slider text callback, logging and `run_server` are UI and I/O.
- Binary floating point: every value is an exact real. Rounding is half to even on exact reals, which is what NumPy's rounding does up to the representation error of binary floats.
- The wording of the three messages is left out. Only which message appears, and the numbers the maximum-revenue message carries, are modelled.
- A missing or non-numeric `var_cost` (which makes `int()` raise) and a malformed `var_range` are not modelled. The cost is always a real and the range two integers.
- Frames.SortByRevenueDesc: fixes one order for equal revenues, while pandas' quicksort may order them differently. Only sortedness and the row multiset are promised, and `Frames.SortedRevenuesAgree` shows the Revenue column is the same for every such order.
- App.UpdateOutputAll: among rows with exactly equal revenue, the order of the shown table is not fixed, for the same reason. Every other ordering fact is stated: the table is a descending ordering of the exact rows, rounded afterwards.
