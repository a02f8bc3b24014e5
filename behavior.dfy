/**
 * The monthly spending profile (`UserBehaviorModel`, and its twin
 * `BuildUserProfile`): a month × category pivot of absolute spending, a
 * per-month "abnormal" flag, and advice lines for the categories in which
 * an abnormal month overspent the user's normal level the most.
 *
 * IsolationForest and StandardScaler are not part of this model: the
 * abnormal flag of each month comes in as a function of the month.
 */
module Behavior {
  import opened Common
  import opened Table

  /** The pivot: `months` are the rows (ascending month numbers),
      `categories` the columns, `cells[i][j]` the absolute spending of month
      `i` in category `j`, `abnormal[i]` the `is_abnormal_month` column. */
  datatype Profile = Profile(
    months: seq<int>,
    categories: seq<string>,
    cells: seq<seq<real>>,
    abnormal: seq<bool>)

  ghost predicate WellFormed(p: Profile) {
    |p.cells| == |p.months| && |p.abnormal| == |p.months| &&
    forall i :: 0 <= i < |p.cells| ==> |p.cells[i]| == |p.categories|
  }

  // ---------------------------------------------------------------------
  // The pivot
  // ---------------------------------------------------------------------

  /** The `month` column: the calendar month of every row. */
  function RowMonths(df: seq<Row>): (r: seq<int>)
    ensures |r| == |df|
    ensures forall i :: 0 <= i < |df| ==> r[i] == MonthOf(df[i].txn.date)
  {
    seq(|df|, i requires 0 <= i < |df| => MonthOf(df[i].txn.date))
  }

  function RowCategories(df: seq<Row>): (r: seq<string>)
    requires Labelled(df)
    ensures |r| == |df|
    ensures forall i :: 0 <= i < |df| ==> r[i] == FinalCategory(df[i])
  {
    seq(|df|, i requires 0 <= i < |df| => FinalCategory(df[i]))
  }

  /** The signed `sum` of the amounts of one (month, category) cell. */
  function Spent(df: seq<Row>, month: int, category: string): real
    requires Labelled(df)
  {
    if df == [] then 0.0
    else
      var last := df[|df| - 1];
      Spent(df[..|df| - 1], month, category) +
      (if MonthOf(last.txn.date) == month && FinalCategory(last) == category then last.txn.amount else 0.0)
  }

  /** `unstack(fill_value=0)`: a (month, category) pair no row has sums to
      zero. */
  lemma {:induction false} SpentOfEmptyCell(df: seq<Row>, month: int, category: string)
    requires Labelled(df)
    requires forall i :: 0 <= i < |df| ==>
      MonthOf(df[i].txn.date) != month || FinalCategory(df[i]) != category
    ensures Spent(df, month, category) == 0.0
  {
    if df != [] {
      SpentOfEmptyCell(df[..|df| - 1], month, category);
    }
  }

  /** The pivot's index: every month that has a row, ascending. */
  function PivotMonths(df: seq<Row>): (months: seq<int>)
    ensures forall i, j :: 0 <= i < j < |months| ==> months[i] < months[j]
    ensures forall m :: m in months <==> m in RowMonths(df)
  {
    var distinctMonths := Distinct(RowMonths(df));
    var months := SortBy(distinctMonths, (m: int) => m as real);
    assert forall m :: m in months <==> m in multiset(distinctMonths);
    PermutationKeepsNoDuplicates(distinctMonths, months);
    SortedDistinctAscend(months);
    months
  }

  /** Sorted and free of duplicates means strictly ascending. */
  lemma SortedDistinctAscend(months: seq<int>)
    requires SortedBy(months, (m: int) => m as real) && NoDuplicates(months)
    ensures forall i, j :: 0 <= i < j < |months| ==> months[i] < months[j]
  {
    forall i, j | 0 <= i < j < |months|
      ensures months[i] < months[j]
    {
      assert months[i] as real <= months[j] as real;
      assert months[i] != months[j];
    }
  }

  /** The pivot's columns: every final category that has a row, once. */
  function PivotCategories(df: seq<Row>): (categories: seq<string>)
    requires Labelled(df)
    ensures NoDuplicates(categories)
    ensures forall c :: c in categories <==> c in RowCategories(df)
  {
    Distinct(RowCategories(df))
  }

  function Cells(df: seq<Row>, months: seq<int>, categories: seq<string>): (cells: seq<seq<real>>)
    requires Labelled(df)
    ensures |cells| == |months|
    ensures forall i :: 0 <= i < |months| ==> |cells[i]| == |categories|
    ensures forall i, j :: 0 <= i < |months| && 0 <= j < |categories| ==>
      cells[i][j] >= 0.0 && cells[i][j] == Abs(Spent(df, months[i], categories[j]))
  {
    seq(|months|, i requires 0 <= i < |months| =>
      seq(|categories|, j requires 0 <= j < |categories| => Abs(Spent(df, months[i], categories[j]))))
  }

  /** `build_user_profile`: group by (month, final category), sum, unstack,
      take absolute values, and attach the abnormal flag. The months are
      sorted; the categories are listed in order of first appearance. */
  function Pivot(df: seq<Row>, isAbnormal: int -> bool): (p: Profile)
    requires Labelled(df)
    ensures WellFormed(p)
    ensures forall i, j :: 0 <= i < j < |p.months| ==> p.months[i] <= p.months[j]
    ensures NoDuplicates(p.categories)
    ensures forall m :: m in p.months <==> m in RowMonths(df)
    ensures forall c :: c in p.categories <==> c in RowCategories(df)
    ensures forall i, j :: 0 <= i < |p.months| && 0 <= j < |p.categories| ==>
      p.cells[i][j] >= 0.0 && p.cells[i][j] == Abs(Spent(df, p.months[i], p.categories[j]))
    ensures forall i :: 0 <= i < |p.months| ==> p.abnormal[i] == isAbnormal(p.months[i])
  {
    var months := PivotMonths(df);
    var categories := PivotCategories(df);
    Profile(months, categories, Cells(df, months, categories), Flags(months, isAbnormal))
  }

  /** The `is_abnormal_month` column. */
  function Flags(months: seq<int>, isAbnormal: int -> bool): (r: seq<bool>)
    ensures |r| == |months| && forall i :: 0 <= i < |months| ==> r[i] == isAbnormal(months[i])
  {
    seq(|months|, i requires 0 <= i < |months| => isAbnormal(months[i]))
  }

  // ---------------------------------------------------------------------
  // Baseline and deviations
  // ---------------------------------------------------------------------

  /** The rows of the normal months, in month order. */
  function NormalRows(p: Profile): (r: seq<seq<real>>)
    requires WellFormed(p)
    ensures forall k :: 0 <= k < |r| ==> |r[k]| == |p.categories|
    ensures |r| > 0 <==> false in p.abnormal
  {
    NormalRowsUpTo(p, |p.months|)
  }

  function NormalRowsUpTo(p: Profile, n: nat): (r: seq<seq<real>>)
    requires WellFormed(p) && n <= |p.months|
    ensures forall k :: 0 <= k < |r| ==> |r[k]| == |p.categories|
    ensures |r| > 0 <==> false in p.abnormal[..n]
  {
    if n == 0 then []
    else
      assert p.abnormal[..n] == p.abnormal[..n - 1] + [p.abnormal[n - 1]];
      NormalRowsUpTo(p, n - 1) + (if p.abnormal[n - 1] then [] else [p.cells[n - 1]])
  }

  /** How many of the first `n` months are normal. */
  function NormalCount(abnormal: seq<bool>, n: nat): (c: nat)
    requires n <= |abnormal|
    ensures c <= n
  {
    if n == 0 then 0 else NormalCount(abnormal, n - 1) + if abnormal[n - 1] then 0 else 1
  }

  /** The normal rows are exactly the rows of the normal months, in month
      order: there are as many as there are normal months, and the row of a
      normal month sits after those of the normal months before it. */
  lemma NormalRowsAreNormalMonths(p: Profile)
    requires WellFormed(p)
    ensures |NormalRows(p)| == NormalCount(p.abnormal, |p.months|)
    ensures forall i :: 0 <= i < |p.months| && !p.abnormal[i] ==>
      NormalCount(p.abnormal, i) < |NormalRows(p)| && NormalRows(p)[NormalCount(p.abnormal, i)] == p.cells[i]
  {
    NormalRowsUpToPlaces(p, |p.months|);
    forall i | 0 <= i < |p.months| && !p.abnormal[i]
      ensures NormalCount(p.abnormal, i) < |NormalRows(p)| && NormalRows(p)[NormalCount(p.abnormal, i)] == p.cells[i]
    {
      PlacedAt(p.abnormal, p.cells, NormalRows(p), |p.months|, i);
    }
  }

  /** `rows` holds the cells of the normal months among the first `n`,
      each at its place among them. */
  ghost predicate Placed(abnormal: seq<bool>, cells: seq<seq<real>>, rows: seq<seq<real>>, n: nat)
    requires n <= |abnormal| && n <= |cells|
  {
    |rows| == NormalCount(abnormal, n) &&
    forall i {:trigger cells[i]} :: 0 <= i < n && !abnormal[i] ==>
      NormalCount(abnormal, i) < |rows| && rows[NormalCount(abnormal, i)] == cells[i]
  }

  lemma {:induction false} NormalRowsUpToPlaces(p: Profile, n: nat)
    requires WellFormed(p) && n <= |p.months|
    ensures Placed(p.abnormal, p.cells, NormalRowsUpTo(p, n), n)
  {
    if n > 0 {
      NormalRowsUpToPlaces(p, n - 1);
      AppendPlaces(p.abnormal, p.cells, NormalRowsUpTo(p, n - 1), NormalRowsUpTo(p, n), n);
    }
  }

  lemma PlacedAt(s: seq<bool>, cells: seq<seq<real>>, rows: seq<seq<real>>, n: nat, i: nat)
    requires n <= |s| && n <= |cells| && Placed(s, cells, rows, n)
    requires i < n && !s[i]
    ensures NormalCount(s, i) < |rows| && rows[NormalCount(s, i)] == cells[i]
  {
  }

  /** One more month: its row, when it is normal, goes after the rows of
      the normal months before it. */
  lemma AppendPlaces(s: seq<bool>, cells: seq<seq<real>>, before: seq<seq<real>>, r: seq<seq<real>>, n: nat)
    requires 0 < n <= |s| && n <= |cells|
    requires Placed(s, cells, before, n - 1)
    requires r == before + if s[n - 1] then [] else [cells[n - 1]]
    ensures Placed(s, cells, r, n)
  {
    var m := NormalCount(s, n - 1);
    assert |before| == m;
    assert NormalCount(s, n) == m + if s[n - 1] then 0 else 1;
    forall i | 0 <= i < n && !s[i]
      ensures NormalCount(s, i) < |r| && r[NormalCount(s, i)] == cells[i]
    {
      var k := NormalCount(s, i);
      if i < n - 1 {
        PlacedAt(s, cells, before, n - 1, i);
        assert r[k] == before[k];
      } else {
        assert k == m;
      }
    }
  }

  /** Column `j` of a block of pivot rows. */
  function Column(rows: seq<seq<real>>, j: nat): (r: seq<real>)
    requires forall k :: 0 <= k < |rows| ==> j < |rows[k]|
    ensures |r| == |rows|
    ensures forall k :: 0 <= k < |rows| ==> r[k] == rows[k][j]
  {
    seq(|rows|, k requires 0 <= k < |rows| => rows[k][j])
  }

  /** `normal.mean()`: the mean of every category over the normal months. */
  function Baseline(p: Profile): (b: seq<real>)
    requires WellFormed(p) && false in p.abnormal
    ensures |b| == |p.categories|
    ensures forall j :: 0 <= j < |b| ==> b[j] == Mean(Column(NormalRows(p), j))
  {
    var normal := NormalRows(p);
    seq(|p.categories|, j requires 0 <= j < |p.categories| => Mean(Column(normal, j)))
  }

  /** One entry of `diff`: a category and how far the month is above the
      baseline there. */
  datatype Deviation = Deviation(category: string, value: real)

  /** `row.drop("is_abnormal_month") - baseline` for month `i`. */
  function Deviations(p: Profile, i: nat): (d: seq<Deviation>)
    requires WellFormed(p) && false in p.abnormal && i < |p.months|
    ensures |d| == |p.categories|
    ensures forall j :: 0 <= j < |d| ==>
      d[j] == Deviation(p.categories[j], p.cells[i][j] - Baseline(p)[j])
  {
    var baseline := Baseline(p);
    seq(|p.categories|, j requires 0 <= j < |p.categories| =>
      Deviation(p.categories[j], p.cells[i][j] - baseline[j]))
  }

  function Descending(d: Deviation): real {
    -d.value
  }

  /** `diff.sort_values(ascending=False).head(3)`: the three largest
      deviations, largest first; nothing left out is larger than anything
      kept. */
  function TopDeviations(devs: seq<Deviation>): (top: seq<Deviation>)
    ensures |top| == if |devs| < 3 then |devs| else 3
    ensures multiset(top) <= multiset(devs)
    ensures forall a, b :: 0 <= a < b < |top| ==> top[a].value >= top[b].value
    ensures forall d :: d in multiset(devs) - multiset(top) ==>
      forall k :: 0 <= k < |top| ==> d.value <= top[k].value
  {
    var sorted := SortBy(devs, Descending);
    var n := if |devs| < 3 then |devs| else 3;
    var top := sorted[..n];
    SortedSplit(devs, sorted, n, top);
    top
  }

  /** Cutting a list sorted by descending value: the head is descending and
      nothing in the tail exceeds anything in the head. */
  lemma SortedSplit(devs: seq<Deviation>, sorted: seq<Deviation>, n: nat, top: seq<Deviation>)
    requires SortedBy(sorted, Descending) && multiset(sorted) == multiset(devs) && n <= |sorted|
    requires top == sorted[..n]
    ensures multiset(top) <= multiset(devs)
    ensures forall a, b :: 0 <= a < b < |top| ==> top[a].value >= top[b].value
    ensures forall d :: d in multiset(devs) - multiset(top) ==>
      forall k :: 0 <= k < |top| ==> d.value <= top[k].value
  {
    PrefixMultiset(sorted, n);
    forall a, b | 0 <= a < b < n
      ensures sorted[a].value >= sorted[b].value
    {
      assert Descending(sorted[a]) <= Descending(sorted[b]);
    }
    forall d | d in multiset(sorted[n..])
      ensures forall k :: 0 <= k < n ==> d.value <= sorted[k].value
    {
      HeadAboveRest(sorted, n, d);
    }
  }

  lemma HeadAboveRest(sorted: seq<Deviation>, n: nat, d: Deviation)
    requires SortedBy(sorted, Descending) && n <= |sorted| && d in multiset(sorted[n..])
    ensures forall k :: 0 <= k < n ==> d.value <= sorted[k].value
  {
    var m :| n <= m < |sorted| && sorted[m] == d;
    forall k | 0 <= k < n
      ensures d.value <= sorted[k].value
    {
      assert Descending(sorted[k]) <= Descending(sorted[m]);
    }
  }

  // ---------------------------------------------------------------------
  // Advice
  // ---------------------------------------------------------------------

  /** One advice line: the "stable" sentence, or an overspend of `excess`
      in `category` during `month`. */
  datatype Advice = Stable | Overspend(month: int, category: string, excess: real)

  /** The lines the inner loop appends: one per positive deviation, in
      order. */
  function PositiveAdvice(month: int, top: seq<Deviation>): (r: seq<Advice>)
    ensures |r| <= |top|
    ensures forall k :: 0 <= k < |r| ==>
      r[k].Overspend? && r[k].month == month && r[k].excess > 0.0 &&
      exists j :: 0 <= j < |top| && top[j] == Deviation(r[k].category, r[k].excess)
  {
    if top == [] then []
    else
      var last := top[|top| - 1];
      var init := top[..|top| - 1];
      assert forall j :: 0 <= j < |init| ==> init[j] == top[j];
      PositiveAdvice(month, init) +
      (if last.value > 0.0 then [Overspend(month, last.category, last.value)] else [])
  }
  /** Every positive deviation gets its line. */
  lemma {:induction false} PositiveAdviceComplete(month: int, top: seq<Deviation>)
    ensures forall j :: 0 <= j < |top| && top[j].value > 0.0 ==>
      Overspend(month, top[j].category, top[j].value) in PositiveAdvice(month, top)
    decreases |top|
  {
    if top != [] {
      var init := top[..|top| - 1];
      PositiveAdviceComplete(month, init);
      assert forall j :: 0 <= j < |init| ==> init[j] == top[j];
    }
  }

  lemma PositiveAdviceStep(month: int, top: seq<Deviation>, k: nat)
    requires k < |top|
    ensures PositiveAdvice(month, top[..k + 1]) == PositiveAdvice(month, top[..k]) +
      if top[k].value > 0.0 then [Overspend(month, top[k].category, top[k].value)] else []
  {
    assert top[..k + 1][..k] == top[..k];
  }


  ghost predicate DescendingExcess(r: seq<Advice>) {
    forall a, b :: 0 <= a < b < |r| && r[a].Overspend? && r[b].Overspend? ==> r[a].excess >= r[b].excess
  }

  lemma {:induction false} PositiveAdviceDescending(month: int, top: seq<Deviation>)
    requires forall a, b :: 0 <= a < b < |top| ==> top[a].value >= top[b].value
    ensures DescendingExcess(PositiveAdvice(month, top))
    decreases |top|
  {
    if top != [] {
      var last := top[|top| - 1];
      var init := top[..|top| - 1];
      PositiveAdviceDescending(month, init);
      var front := PositiveAdvice(month, init);
      if last.value > 0.0 {
        forall k | 0 <= k < |front|
          ensures front[k].excess >= last.value
        {
          var j :| 0 <= j < |init| && init[j] == Deviation(front[k].category, front[k].excess);
          assert top[j] == init[j];
        }
        assert PositiveAdvice(month, top) == front + [Overspend(month, last.category, last.value)];
        DescendingAppend(front, Overspend(month, last.category, last.value));
      } else {
        assert PositiveAdvice(month, top) == front;
      }
    }
  }

  lemma DescendingAppend(front: seq<Advice>, a: Advice)
    requires DescendingExcess(front) && a.Overspend?
    requires forall k :: 0 <= k < |front| ==> front[k].Overspend? && front[k].excess >= a.excess
    ensures DescendingExcess(front + [a])
  {
  }

  /** The lines of abnormal month `i`. */
  function MonthAdvice(p: Profile, i: nat): (r: seq<Advice>)
    requires WellFormed(p) && false in p.abnormal && i < |p.months|
    ensures |r| <= 3
  {
    PositiveAdvice(p.months[i], TopDeviations(Deviations(p, i)))
  }

  /** What each month contributes: its overspend lines when abnormal,
      nothing when normal. */
  function MonthBlocks(p: Profile): (b: seq<seq<Advice>>)
    requires WellFormed(p) && false in p.abnormal
    ensures |b| == |p.months|
  {
    seq(|p.months|, i requires 0 <= i < |p.months| =>
      if p.abnormal[i] then MonthAdvice(p, i) else [])
  }

  /** The blocks one after the other. */
  function Flatten<T>(blocks: seq<seq<T>>): seq<T> {
    if blocks == [] then []
    else Flatten(blocks[..|blocks| - 1]) + blocks[|blocks| - 1]
  }

  /** Each element of the flattened sequence comes from one block. */
  lemma {:induction false} FlattenSource<T>(blocks: seq<seq<T>>, k: nat) returns (i: nat, m: nat)
    requires k < |Flatten(blocks)|
    ensures i < |blocks| && m < |blocks[i]| && Flatten(blocks)[k] == blocks[i][m]
    decreases |blocks|
  {
    var init := blocks[..|blocks| - 1];
    if k < |Flatten(init)| {
      i, m := FlattenSource(init, k);
    } else {
      i, m := |blocks| - 1, k - |Flatten(init)|;
    }
  }

  /** Taking one more month adds that month's block. */
  lemma MonthBlocksStep(p: Profile, i: nat)
    requires WellFormed(p) && false in p.abnormal && i < |p.months|
    ensures Flatten(MonthBlocks(p)[..i + 1]) ==
      Flatten(MonthBlocks(p)[..i]) +
      (if p.abnormal[i] then PositiveAdvice(p.months[i], TopDeviations(Deviations(p, i))) else [])
  {
    var blocks := MonthBlocks(p);
    assert blocks[..i + 1][..i] == blocks[..i];
  }

  /** Every element of every block is in the flattened sequence. */
  lemma {:induction false} FlattenContains<T>(blocks: seq<seq<T>>, i: nat)
    requires i < |blocks|
    ensures forall x :: x in blocks[i] ==> x in Flatten(blocks)
    decreases |blocks|
  {
    var init := blocks[..|blocks| - 1];
    if i < |blocks| - 1 {
      FlattenContains(init, i);
      assert init[i] == blocks[i];
    }
  }

  /** `explain_monthly_anomalies`: the stable sentence when no month is
      abnormal; otherwise the overspend lines of every abnormal month, in
      month order. With no normal month the baseline is NaN, every
      deviation is NaN, no `value > 0` holds and nothing is said. */
  function Explain(p: Profile): seq<Advice>
    requires WellFormed(p)
  {
    if !(true in p.abnormal) then [Stable]
    else if !(false in p.abnormal) then []
    else Flatten(MonthBlocks(p))
  }

  // ---------------------------------------------------------------------
  // Properties of the advice
  // ---------------------------------------------------------------------

  /** The line states the deviation of month `i` in one of the pivot's
      categories. */
  ghost predicate ReportsCell(p: Profile, i: nat, a: Advice)
    requires WellFormed(p) && false in p.abnormal && i < |p.months|
  {
    a.Overspend? &&
    exists j :: 0 <= j < |p.categories| && a.category == p.categories[j] &&
      a.excess == p.cells[i][j] - Baseline(p)[j]
  }

  /** No deviation left out of `top` exceeds `v`. */
  ghost predicate NothingLeftOutIsLarger(devs: seq<Deviation>, top: seq<Deviation>, v: real) {
    forall d: Deviation :: d in multiset(devs) - multiset(top) ==> d.value <= v
  }

  /** What a line of month `i` says: a category with a positive deviation
      among the month's three largest, in descending order. */
  lemma MonthAdviceIsTopThree(p: Profile, i: nat)
    requires WellFormed(p) && false in p.abnormal && i < |p.months|
    ensures var r := MonthAdvice(p, i);
      |r| <= 3 && DescendingExcess(r) &&
      forall k :: 0 <= k < |r| ==>
        r[k].Overspend? && r[k].month == p.months[i] && r[k].excess > 0.0 &&
        ReportsCell(p, i, r[k]) &&
        NothingLeftOutIsLarger(Deviations(p, i), TopDeviations(Deviations(p, i)), r[k].excess)
  {
    var devs := Deviations(p, i);
    var top := TopDeviations(devs);
    var r := PositiveAdvice(p.months[i], top);
    PositiveAdviceDescending(p.months[i], top);
    PositiveAdviceFromTop(p.months[i], devs);
    forall k | 0 <= k < |r|
      ensures r[k].Overspend? && r[k].month == p.months[i] && r[k].excess > 0.0
      ensures ReportsCell(p, i, r[k]) && NothingLeftOutIsLarger(devs, top, r[k].excess)
    {
      DeviationIsCell(p, i, r[k]);
    }
  }

  /** A line of month `i` is one of the month's positive deviations. */
  lemma AdviceLineIsDeviation(p: Profile, i: nat, a: Advice)
    requires WellFormed(p) && false in p.abnormal && i < |p.months|
    requires a in MonthAdvice(p, i)
    ensures a.Overspend? && a.excess > 0.0
    ensures exists j :: 0 <= j < |Deviations(p, i)| && Deviations(p, i)[j] == Deviation(a.category, a.excess)
  {
    var devs := Deviations(p, i);
    var top := TopDeviations(devs);
    var r := PositiveAdvice(p.months[i], top);
    var k :| 0 <= k < |r| && r[k] == a;
    var t :| 0 <= t < |top| && top[t] == Deviation(a.category, a.excess);
    assert top[t] in multiset(devs);
  }

  lemma DeviationIsCell(p: Profile, i: nat, a: Advice)
    requires WellFormed(p) && false in p.abnormal && i < |p.months| && a.Overspend?
    requires exists j :: 0 <= j < |p.categories| && Deviations(p, i)[j] == Deviation(a.category, a.excess)
    ensures ReportsCell(p, i, a)
  {
    var j :| 0 <= j < |p.categories| && Deviations(p, i)[j] == Deviation(a.category, a.excess);
    assert a.category == p.categories[j];
  }

  /** Each line of a month comes from one of its deviations, and no
      deviation left out of the top three exceeds it. */
  lemma PositiveAdviceFromTop(month: int, devs: seq<Deviation>)
    ensures var r := PositiveAdvice(month, TopDeviations(devs));
      forall k :: 0 <= k < |r| ==>
        (exists j :: 0 <= j < |devs| && devs[j] == Deviation(r[k].category, r[k].excess)) &&
        NothingLeftOutIsLarger(devs, TopDeviations(devs), r[k].excess)
  {
    var top := TopDeviations(devs);
    var r := PositiveAdvice(month, top);
    forall k | 0 <= k < |r|
      ensures (exists j :: 0 <= j < |devs| && devs[j] == Deviation(r[k].category, r[k].excess)) &&
        NothingLeftOutIsLarger(devs, top, r[k].excess)
    {
      var t :| 0 <= t < |top| && top[t] == Deviation(r[k].category, r[k].excess);
      assert top[t] in multiset(devs);
    }
  }

  /** Every positive deviation among a month's three largest becomes a
      line. */
  lemma TopPositiveDeviationsAreReported(p: Profile, i: nat)
    requires WellFormed(p) && false in p.abnormal && i < |p.months|
    ensures forall d :: d in TopDeviations(Deviations(p, i)) && d.value > 0.0 ==>
      Overspend(p.months[i], d.category, d.value) in MonthAdvice(p, i)
  {
    var top := TopDeviations(Deviations(p, i));
    PositiveAdviceComplete(p.months[i], top);
    forall d | d in top && d.value > 0.0
      ensures Overspend(p.months[i], d.category, d.value) in MonthAdvice(p, i)
    {
      var j :| 0 <= j < |top| && top[j] == d;
    }
  }

  /** The stable sentence is said exactly when no month is abnormal, and
      then it is the only line. */
  lemma StableIffNoAbnormalMonth(p: Profile)
    requires WellFormed(p)
    ensures Stable in Explain(p) <==> !(true in p.abnormal)
    ensures !(true in p.abnormal) ==> Explain(p) == [Stable]
  {
    if true in p.abnormal && false in p.abnormal {
      BlockLinesAreOverspends(p);
    }
  }

  /** Every line of the flattened blocks is an overspend of an abnormal
      month. */
  lemma BlockLinesAreOverspends(p: Profile)
    requires WellFormed(p) && false in p.abnormal
    ensures forall k :: 0 <= k < |Flatten(MonthBlocks(p))| ==>
      Flatten(MonthBlocks(p))[k].Overspend? &&
      exists i :: 0 <= i < |p.months| && p.abnormal[i] && Flatten(MonthBlocks(p))[k].month == p.months[i]
  {
    var blocks := MonthBlocks(p);
    forall k | 0 <= k < |Flatten(blocks)|
      ensures Flatten(blocks)[k].Overspend? &&
        exists i :: 0 <= i < |p.months| && p.abnormal[i] && Flatten(blocks)[k].month == p.months[i]
    {
      var i, m := FlattenSource(blocks, k);
      MonthAdviceIsTopThree(p, i);
    }
  }

  /** When every month is abnormal nothing is said. */
  lemma AllMonthsAbnormalSaysNothing(p: Profile)
    requires WellFormed(p) && p.abnormal != [] && !(false in p.abnormal)
    ensures Explain(p) == []
  {
    assert p.abnormal[0];
  }

  /** Every line names an abnormal month, and the lines come in month
      order: the months of a profile are ascending, so the month of a line
      never exceeds the month of a later line. */
  lemma AdviceInMonthOrder(p: Profile)
    requires WellFormed(p)
    requires forall i, j :: 0 <= i < j < |p.months| ==> p.months[i] <= p.months[j]
    ensures forall k :: 0 <= k < |Explain(p)| && Explain(p)[k].Overspend? ==>
      exists i :: 0 <= i < |p.months| && p.abnormal[i] && Explain(p)[k].month == p.months[i]
    ensures forall a, b :: 0 <= a < b < |Explain(p)| && Explain(p)[a].Overspend? && Explain(p)[b].Overspend? ==>
      Explain(p)[a].month <= Explain(p)[b].month
  {
    if true in p.abnormal && false in p.abnormal {
      var blocks: seq<seq<Advice>> := MonthBlocks(p);
      forall i: nat, k: nat | i < |blocks| && k < |blocks[i]|
        ensures blocks[i][k].Overspend? && blocks[i][k].month == p.months[i]
      {
        MonthAdviceIsTopThree(p, i);
      }
      BlockLinesAreOverspends(p);
      FlattenOrdered(blocks, p.months);
    }
  }

  /** Overspend lines only, in non-decreasing month order. */
  ghost predicate MonthOrdered(r: seq<Advice>) {
    forall a, b :: 0 <= a < b < |r| ==>
      r[a].Overspend? && r[b].Overspend? && r[a].month <= r[b].month
  }

  ghost predicate OverspendsUpTo(r: seq<Advice>, m: int) {
    forall k :: 0 <= k < |r| ==> r[k].Overspend? && r[k].month <= m
  }

  lemma OrderedConcat(front: seq<Advice>, back: seq<Advice>, m: int)
    requires MonthOrdered(front) && OverspendsUpTo(front, m)
    requires forall k :: 0 <= k < |back| ==> back[k].Overspend? && back[k].month == m
    ensures MonthOrdered(front + back) && OverspendsUpTo(front + back, m)
  {
    var all := front + back;
    forall a, b | 0 <= a < b < |all|
      ensures all[a].Overspend? && all[b].Overspend? && all[a].month <= all[b].month
    {
      if b < |front| {
        assert all[a] == front[a] && all[b] == front[b];
      } else if a < |front| {
        assert all[a] == front[a] && all[b] == back[b - |front|];
      } else {
        assert all[a] == back[a - |front|] && all[b] == back[b - |front|];
      }
    }
  }

  /** Blocks of lines whose months ascend block by block flatten to lines
      in month order. */
  lemma {:induction false} FlattenOrdered(blocks: seq<seq<Advice>>, keys: seq<int>)
    requires |keys| == |blocks|
    requires forall i, j :: 0 <= i < j < |keys| ==> keys[i] <= keys[j]
    requires forall i, k :: 0 <= i < |blocks| && 0 <= k < |blocks[i]| ==>
      blocks[i][k].Overspend? && blocks[i][k].month == keys[i]
    ensures MonthOrdered(Flatten(blocks))
    ensures blocks != [] ==> OverspendsUpTo(Flatten(blocks), keys[|keys| - 1])
    decreases |blocks|
  {
    if blocks != [] {
      var n := |blocks|;
      var init := blocks[..n - 1];
      if n > 1 {
        FlattenOrdered(init, keys[..n - 1]);
        assert keys[n - 2] <= keys[n - 1];
      } else {
        assert Flatten(init) == [];
      }
      OrderedConcat(Flatten(init), blocks[n - 1], keys[n - 1]);
    }
  }

  // ---------------------------------------------------------------------
  // The model object
  // ---------------------------------------------------------------------

  class UserBehaviorModel {
    var df: seq<Row>

    constructor(df: seq<Row>)
      ensures this.df == df
    {
      this.df := df;
    }

    /** `explain_monthly_anomalies`: append the stable sentence and stop,
        or walk the abnormal months and append one line per positive
        deviation among the three largest. */
    method ExplainMonthlyAnomalies(profile: Profile) returns (advice: seq<Advice>)
      requires WellFormed(profile)
      ensures advice == Explain(profile)
    {
      advice := [];
      if !(true in profile.abnormal) {
        advice := advice + [Stable];
        return;
      }
      if !(false in profile.abnormal) {
        return;
      }
      for i := 0 to |profile.months|
        invariant advice == Flatten(MonthBlocks(profile)[..i])
      {
        MonthBlocksStep(profile, i);
        if profile.abnormal[i] {
          var top := TopDeviations(Deviations(profile, i));
          advice := AppendMonthAdvice(advice, profile.months[i], top);
        }
      }
      assert MonthBlocks(profile)[..|profile.months|] == MonthBlocks(profile);
    }

    /** The inner loop: one line per positive deviation, in order. */
    method AppendMonthAdvice(advice: seq<Advice>, month: int, top: seq<Deviation>) returns (r: seq<Advice>)
      ensures r == advice + PositiveAdvice(month, top)
    {
      r := advice;
      for k := 0 to |top|
        invariant r == advice + PositiveAdvice(month, top[..k])
      {
        PositiveAdviceStep(month, top, k);
        if top[k].value > 0.0 {
          r := r + [Overspend(month, top[k].category, top[k].value)];
        }
      }
      assert top[..|top|] == top;
    }

    /** `build`: the profile and the advice that explains exactly that
        profile. */
    method Build(isAbnormal: int -> bool) returns (profile: Profile, advice: seq<Advice>)
      requires Labelled(df)
      ensures profile == Pivot(df, isAbnormal)
      ensures advice == Explain(profile)
    {
      profile := Pivot(df, isAbnormal);
      advice := ExplainMonthlyAnomalies(profile);
    }
  }
}
