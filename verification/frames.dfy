/**
 The DataFrame operations the optimizers and the dashboard apply to the
 sweep table: boolean-mask selection, the column maximum, the rows at that
 maximum, sorting by revenue in descending order, and decimal rounding of
 every cell.
 */
module Frames {
  import opened Numerics

  /** One row of the `profit` table both optimizers build. */
  datatype Row = Row(price: real, quantity: real, revenue: real)

  /** Boolean-mask selection `df[mask]`: the rows for which `keep` holds, in their original order. */
  function Where<T>(s: seq<T>, keep: T -> bool): (r: seq<T>)
    ensures |r| <= |s|
  {
    if s == [] then []
    else (if keep(s[0]) then [s[0]] else []) + Where(s[1..], keep)
  }

  /** A selection keeps every copy of a matching row and nothing else. */
  lemma {:induction false} WhereContents<T(!new)>(s: seq<T>, keep: T -> bool)
    ensures forall x :: multiset(Where(s, keep))[x] == if keep(x) then multiset(s)[x] else 0
    ensures forall x :: x in Where(s, keep) <==> x in s && keep(x)
  {
    if s != [] {
      assert s == [s[0]] + s[1..];
      WhereContents(s[1..], keep);
    }
  }

  /** Selecting from a concatenation selects from each part in turn, so the order of the rows is kept. */
  lemma {:induction false} WhereAppend<T>(a: seq<T>, b: seq<T>, keep: T -> bool)
    ensures Where(a + b, keep) == Where(a, keep) + Where(b, keep)
  {
    if a != [] {
      var ab := a + b;
      assert ab[0] == a[0];
      assert ab[1..] == a[1..] + b;
      WhereAppend(a[1..], b, keep);
      var head := if keep(a[0]) then [a[0]] else [];
      calc {
        Where(ab, keep);
        head + Where(ab[1..], keep);
        head + (Where(a[1..], keep) + Where(b, keep));
        (head + Where(a[1..], keep)) + Where(b, keep);
        Where(a, keep) + Where(b, keep);
      }
    } else {
      assert a + b == b;
    }
  }

  /** An element the mask rejects drops out wherever it sits. */
  lemma WhereSkips<T>(a: seq<T>, x: T, b: seq<T>, keep: T -> bool)
    requires !keep(x)
    ensures Where(a + [x] + b, keep) == Where(a + b, keep)
  {
    WhereAppend(a + [x], b, keep);
    WhereAppend(a, [x], keep);
    WhereAppend(a, b, keep);
    assert Where([x], keep) == [];
  }

  /** Index `k` is the only position of `s` that `keep` selects. */
  predicate OnlyMatch<T>(s: seq<T>, keep: T -> bool, k: int)
  {
    && 0 <= k < |s|
    && keep(s[k])
    && forall j :: 0 <= j < |s| && j != k ==> !keep(s[j])
  }

  /** A selection holds exactly one row precisely when exactly one position matches, and then it is that row. */
  lemma {:induction false} WhereSingleton<T(!new)>(s: seq<T>, keep: T -> bool)
    ensures |Where(s, keep)| == 1 <==> exists k :: OnlyMatch(s, keep, k)
    ensures forall k :: OnlyMatch(s, keep, k) ==> Where(s, keep) == [s[k]]
  {
    if s != [] {
      var t := s[1..];
      WhereSingleton(t, keep);
      WhereContents(t, keep);
      if keep(s[0]) {
        if |Where(s, keep)| == 1 {
          assert Where(t, keep) == [];
          forall j | 0 <= j < |s| && j != 0 ensures !keep(s[j]) {
            assert s[j] == t[j - 1];
            assert s[j] !in Where(t, keep);
          }
          assert OnlyMatch(s, keep, 0);
        }
        forall k | OnlyMatch(s, keep, k) ensures Where(s, keep) == [s[k]] {
          assert k == 0;
        }
      } else {
        forall k | OnlyMatch(s, keep, k) ensures k >= 1 && OnlyMatch(t, keep, k - 1) {
          forall j | 0 <= j < |t| && j != k - 1 ensures !keep(t[j]) {
            assert t[j] == s[j + 1];
          }
        }
        if |Where(s, keep)| == 1 {
          var k :| OnlyMatch(t, keep, k);
          forall j | 0 <= j < |s| && j != k + 1 ensures !keep(s[j]) {
            if j > 0 {
              assert s[j] == t[j - 1];
            }
          }
          assert OnlyMatch(s, keep, k + 1);
        }
      }
    }
  }

  /** `profit['Revenue'].max()` on a non-empty table. */
  function MaxRevenue(rows: seq<Row>): (m: real)
    requires |rows| > 0
    ensures forall k :: 0 <= k < |rows| ==> rows[k].revenue <= m
    ensures exists k :: 0 <= k < |rows| && rows[k].revenue == m
  {
    if |rows| == 1 then rows[0].revenue
    else
      var rest := MaxRevenue(rows[1..]);
      if rows[0].revenue >= rest then rows[0].revenue else rest
  }

  /** Whether a row's revenue equals the column maximum `m`. */
  function RevenueIs(m: real): Row -> bool
  {
    (x: Row) => x.revenue == m
  }

  /**
   `profit.loc[profit['Revenue'] == profit['Revenue'].max()]`: the rows at
   the maximum revenue, in table order. The maximum of an empty column is NaN,
   which equals nothing, so an empty table selects no row.
   */
  function AtMaximum(rows: seq<Row>): (r: seq<Row>)
    ensures rows == [] ==> r == []
    ensures rows != [] ==> |r| >= 1
    ensures forall x :: x in r <==> x in rows && forall y :: y in rows ==> y.revenue <= x.revenue
  {
    if rows == [] then []
    else
      var m := MaxRevenue(rows);
      var k :| 0 <= k < |rows| && rows[k].revenue == m;
      WhereContents(rows, RevenueIs(m));
      assert rows[k] in Where(rows, RevenueIs(m));
      Where(rows, RevenueIs(m))
  }

  /** Rows ordered by non-increasing revenue. */
  predicate SortedDesc(rows: seq<Row>)
  {
    forall i, j :: 0 <= i < j < |rows| ==> rows[i].revenue >= rows[j].revenue
  }

  /** Places `x` into a table already sorted by descending revenue. */
  function Insert(x: Row, rows: seq<Row>): (r: seq<Row>)
    requires SortedDesc(rows)
    ensures SortedDesc(r)
    ensures multiset(r) == multiset(rows) + multiset{x}
    ensures |r| == |rows| + 1
    ensures r[0] == x || (rows != [] && r[0] == rows[0])
  {
    if rows == [] || x.revenue >= rows[0].revenue then [x] + rows
    else
      assert rows == [rows[0]] + rows[1..];
      [rows[0]] + Insert(x, rows[1..])
  }

  /**
   `sort_values('Revenue', ascending=False)`: a rearrangement of the rows
   in non-increasing order of revenue.
   */
  function SortByRevenueDesc(rows: seq<Row>): (r: seq<Row>)
    ensures SortedDesc(r)
    ensures multiset(r) == multiset(rows)
    ensures |r| == |rows|
  {
    if rows == [] then []
    else
      assert rows == [rows[0]] + rows[1..];
      Insert(rows[0], SortByRevenueDesc(rows[1..]))
  }

  /**
   Any two descending orderings of the same rows list the same revenues
   position by position: however a sort orders equal revenues, the Revenue
   column comes out the same.
   */
  lemma {:induction false} SortedRevenuesAgree(a: seq<Row>, b: seq<Row>)
    requires SortedDesc(a) && SortedDesc(b) && multiset(a) == multiset(b)
    ensures |a| == |b|
    ensures forall k :: 0 <= k < |a| ==> a[k].revenue == b[k].revenue
  {
    assert |a| == |multiset(a)| == |multiset(b)| == |b|;
    if a != [] {
      var i := HeadsAgree(a, b);
      var rest := b[..i] + b[i + 1..];
      RemoveKeepsSorted(b, i);
      RemoveKeepsOthers(a, b, i);
      SortedRevenuesAgree(a[1..], rest);
      forall k | 0 <= k < |a| ensures a[k].revenue == b[k].revenue {
        if 0 < k <= i {
          assert a[k].revenue == rest[k - 1].revenue == b[k - 1].revenue;
          assert b[0].revenue >= b[k - 1].revenue >= b[k].revenue >= b[i].revenue;
        } else if k > i {
          assert a[k].revenue == rest[k - 1].revenue;
          assert rest[k - 1] == b[k];
        }
      }
    }
  }

  /** The first row of one descending ordering sits at some `i` in the other, whose first revenue is the same. */
  lemma HeadsAgree(a: seq<Row>, b: seq<Row>) returns (i: int)
    requires SortedDesc(a) && SortedDesc(b) && multiset(a) == multiset(b) && a != []
    ensures 0 <= i < |b| && b[i] == a[0] && a[0].revenue == b[0].revenue
  {
    assert a[0] in multiset(b);
    assert b != [] && b[0] in multiset(a);
    i :| 0 <= i < |b| && b[i] == a[0];
    var j :| 0 <= j < |a| && a[j] == b[0];
  }

  /** Dropping one row keeps a table sorted. */
  lemma RemoveKeepsSorted(b: seq<Row>, i: int)
    requires SortedDesc(b) && 0 <= i < |b|
    ensures SortedDesc(b[..i] + b[i + 1..])
  {
    var rest := b[..i] + b[i + 1..];
    forall p, q | 0 <= p < q < |rest| ensures rest[p].revenue >= rest[q].revenue {
      var p' := if p < i then p else p + 1;
      var q' := if q < i then q else q + 1;
      assert rest[p] == b[p'] && rest[q] == b[q'];
    }
  }

  /** Dropping the same row from two rearrangements of each other leaves rearrangements of each other. */
  lemma RemoveKeepsOthers(a: seq<Row>, b: seq<Row>, i: int)
    requires multiset(a) == multiset(b) && a != [] && 0 <= i < |b| && b[i] == a[0]
    ensures multiset(a[1..]) == multiset(b[..i] + b[i + 1..])
  {
    assert a == [a[0]] + a[1..];
    assert multiset(a) == multiset{a[0]} + multiset(a[1..]);
    assert b == b[..i] + [b[i]] + b[i + 1..];
    assert multiset(b) == multiset(b[..i]) + multiset{b[i]} + multiset(b[i + 1..]);
    var rest := b[..i] + b[i + 1..];
    assert multiset(rest) == multiset(b[..i]) + multiset(b[i + 1..]);
    assert multiset(b) == multiset(rest) + multiset{a[0]};
    assert multiset(a) == multiset(a[1..]) + multiset{a[0]};
    assert multiset(a[1..]) == multiset(a) - multiset{a[0]};
    assert multiset(rest) == multiset(b) - multiset{a[0]};
  }

  /** Every cell of a row rounded to the decimal grid of `scale`. */
  function RoundRow(x: Row, scale: real): Row
    requires scale > 0.0
  {
    Row(Round(x.price, scale), Round(x.quantity, scale), Round(x.revenue, scale))
  }

  /** `np.round(frame, decimals)`: every row rounded, order kept. */
  function RoundTable(rows: seq<Row>, scale: real): (r: seq<Row>)
    requires scale > 0.0
    ensures |r| == |rows|
    ensures forall k :: 0 <= k < |r| ==> r[k] == RoundRow(rows[k], scale)
  {
    if rows == [] then [] else [RoundRow(rows[0], scale)] + RoundTable(rows[1..], scale)
  }

  /** Rounding a sorted table keeps it sorted, since rounding is monotone. */
  lemma RoundTableSorted(rows: seq<Row>, scale: real)
    requires scale > 0.0 && SortedDesc(rows)
    ensures SortedDesc(RoundTable(rows, scale))
  {
    var r := RoundTable(rows, scale);
    forall i, j | 0 <= i < j < |r| ensures r[i].revenue >= r[j].revenue {
      RoundMonotone(rows[j].revenue, rows[i].revenue, scale);
    }
  }

  /** Rounding after inserting a row holds the same rows as rounding the row and the table separately. */
  lemma {:induction false} RoundInsert(x: Row, rows: seq<Row>, scale: real)
    requires scale > 0.0 && SortedDesc(rows)
    ensures multiset(RoundTable(Insert(x, rows), scale)) == multiset(RoundTable(rows, scale)) + multiset{RoundRow(x, scale)}
  {
    if rows != [] && x.revenue < rows[0].revenue {
      RoundInsert(x, rows[1..], scale);
    }
  }

  /** Sorting before rounding neither adds nor drops a rounded row. */
  lemma {:induction false} RoundSortedPermutation(rows: seq<Row>, scale: real)
    requires scale > 0.0
    ensures multiset(RoundTable(SortByRevenueDesc(rows), scale)) == multiset(RoundTable(rows, scale))
  {
    if rows != [] {
      RoundSortedPermutation(rows[1..], scale);
      RoundInsert(rows[0], SortByRevenueDesc(rows[1..]), scale);
    }
  }
}
