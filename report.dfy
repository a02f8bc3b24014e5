/**
 * The user report both pipelines format at the end (`_format_user_report`):
 * five sections in a fixed order (where the money goes, the recurring
 * payments, the unusual operations, the behaviour analysis, the savings
 * potential). The financial-intelligence pipeline returns one page per
 * section, each page its lines joined by newlines; the bank-statement
 * analyzer joins all lines of all sections into one string, with its own
 * section titles and the descriptions of unusual operations cut to 50
 * characters.
 *
 * The rendering of numbers and dates (`:,.0f`, `:.0f`, `:.1f`, `str` of a
 * float, `date()`, a month period) is a parameter, the `Formatter`.
 */
module Report {
  import opened Common
  import opened Table
  import opened Recurring
  import opened Behavior

  // ---------------------------------------------------------------------
  // Numbers and their rendering
  // ---------------------------------------------------------------------

  /** A float64 result: a number, or the `inf`/`nan` NumPy yields when it
      divides by zero. */
  datatype Float = Finite(value: real) | NonFinite

  function Divide(a: real, b: real): (r: Float)
    ensures r.NonFinite? <==> b == 0.0
    ensures r.Finite? ==> r.value * b == a
  {
    if b == 0.0 then NonFinite else Finite(a / b)
  }

  /** How the f-strings render values: with thousands separators and no
      decimals (`:,.0f`), without decimals (`:.0f`), with one decimal
      (`:.1f`), a float as `str` does, a date, a month period. */
  datatype Formatter = Formatter(
    grouped: Float -> string,
    whole: Float -> string,
    oneDecimal: Float -> string,
    amount: real -> string,
    date: Date -> string,
    period: int -> string)

  /** What differs between the two reports: the five section titles and
      the cut applied to the description of an unusual operation. */
  datatype Style = Style(headers: seq<string>, descriptionLimit: Option<nat>)

  /** The titles of the pages of the financial-intelligence report. */
  const PagesStyle: Style := Style([
    "<b>КУДА УХОДЯТ ДЕНЬГИ</b>\n",
    "<b>ВАШИ РЕГУЛЯРНЫЕ ПЛАТЕЖИ</b>\n",
    "<b>НЕОБЫЧНЫЕ ТРАТЫ</b>\n",
    "<b>АНАЛИЗ ФИНАНСОВОГО ПОВЕДЕНИЯ</b>\n",
    "<b>ПОТЕНЦИАЛ ЭКОНОМИИ</b>\n"], None)

  /** The titles of the sections of the bank-statement analyzer's text;
      every title after the first opens with an empty line. */
  const TextStyle: Style := Style([
    "\U{1F4CA} КУДА УХОДЯТ ДЕНЬГИ\n",
    "\n\U{1F501} ВАШИ РЕГУЛЯРНЫЕ ПЛАТЕЖИ\n",
    "\n\U{26A0}\U{FE0F} НЕОБЫЧНЫЕ ТРАТЫ\n",
    "\n\U{1F9E0} АНАЛИЗ ВАШЕГО ФИНАНСОВОГО ПОВЕДЕНИЯ\n",
    "\n\U{1F4B0} ПОТЕНЦИАЛ ЭКОНОМИИ\n"], Some(50))

  predicate FiveSections(style: Style) {
    |style.headers| == 5
  }

  const NoRecurring: string := "Регулярных платежей не найдено."
  const NoAnomalies: string := "Аномальных операций не обнаружено."
  const MaxAnomalies: nat := 10

  /** The "stable" sentence of the behaviour model. */
  const StableText: string := "Ваш стиль расходов стабилен — резких сбоев не обнаружено."

  /** The text of one advice line of the behaviour model. */
  function AdviceText(a: Advice, fmt: Formatter): string {
    match a
    case Stable => StableText
    case Overspend(month, category, excess) =>
      "В " + fmt.period(month) + " траты по категории '" + category + "' были выше нормы на " +
      fmt.whole(Finite(excess)) + " ₽. Это ключевая точка для оптимизации."
  }

  /** `f(x)` for every `x`, in order: what a loop appending one line per
      item adds. */
  function Lines<T>(xs: seq<T>, f: T -> string): (r: seq<string>)
    ensures |r| == |xs|
    ensures forall k :: 0 <= k < |xs| ==> r[k] == f(xs[k])
  {
    seq(|xs|, k requires 0 <= k < |xs| => f(xs[k]))
  }

  // ---------------------------------------------------------------------
  // Where the money goes
  // ---------------------------------------------------------------------

  /** The signed sum of the amounts filed under `category`. */
  function CategorySpent(df: seq<Row>, category: string): real
    requires Labelled(df)
  {
    if df == [] then 0.0
    else
      var last := df[|df| - 1];
      CategorySpent(df[..|df| - 1], category) + (if FinalCategory(last) == category then last.txn.amount else 0.0)
  }

  datatype CategoryTotal = CategoryTotal(category: string, value: real)

  function ByValueDescending(t: CategoryTotal): real {
    -t.value
  }

  /** `by_cat`: `groupby("final_category")["amount"].sum().abs()`, sorted
      by descending value. Each final category gets one entry, its value
      is the absolute sum of its amounts, and the values descend. */
  function SpendingByCategory(df: seq<Row>): (r: seq<CategoryTotal>)
    requires Labelled(df)
    ensures forall k :: 0 <= k < |r| ==>
      r[k].category in RowCategories(df) && r[k].value == Abs(CategorySpent(df, r[k].category))
    ensures forall i :: 0 <= i < |df| ==> exists k :: 0 <= k < |r| && r[k].category == FinalCategory(df[i])
    ensures forall a, b :: 0 <= a < b < |r| ==> r[a].category != r[b].category
    ensures forall a, b :: 0 <= a < b < |r| ==> r[a].value >= r[b].value
  {
    var categories := PivotCategories(df);
    var totals := seq(|categories|, k requires 0 <= k < |categories| =>
      CategoryTotal(categories[k], Abs(CategorySpent(df, categories[k]))));
    var r := SortBy(totals, ByValueDescending);
    SpendingSorted(df, categories, totals, r);
    r
  }

  lemma SpendingSorted(df: seq<Row>, categories: seq<string>, totals: seq<CategoryTotal>, r: seq<CategoryTotal>)
    requires Labelled(df) && categories == PivotCategories(df)
    requires |totals| == |categories|
    requires forall k :: 0 <= k < |totals| ==>
      totals[k] == CategoryTotal(categories[k], Abs(CategorySpent(df, categories[k])))
    requires multiset(r) == multiset(totals) && SortedBy(r, ByValueDescending)
    ensures forall k :: 0 <= k < |r| ==>
      r[k].category in RowCategories(df) && r[k].value == Abs(CategorySpent(df, r[k].category))
    ensures forall i :: 0 <= i < |df| ==> exists k :: 0 <= k < |r| && r[k].category == FinalCategory(df[i])
    ensures forall a, b :: 0 <= a < b < |r| ==> r[a].category != r[b].category
    ensures forall a, b :: 0 <= a < b < |r| ==> r[a].value >= r[b].value
  {
    forall k | 0 <= k < |r|
      ensures r[k].category in RowCategories(df) && r[k].value == Abs(CategorySpent(df, r[k].category))
    {
      assert r[k] in multiset(totals);
    }
    EveryCategoryListed(df, categories, totals, r);
    PermutationKeepsNoDuplicates(totals, r);
    forall a, b | 0 <= a < b < |r|
      ensures r[a].value >= r[b].value
    {
      assert ByValueDescending(r[a]) <= ByValueDescending(r[b]);
    }
  }

  /** Every final category of the table has its entry. */
  lemma EveryCategoryListed(df: seq<Row>, categories: seq<string>, totals: seq<CategoryTotal>, r: seq<CategoryTotal>)
    requires Labelled(df) && categories == PivotCategories(df)
    requires |totals| == |categories| && forall k :: 0 <= k < |totals| ==> totals[k].category == categories[k]
    requires multiset(r) == multiset(totals)
    ensures forall i :: 0 <= i < |df| ==> exists k :: 0 <= k < |r| && r[k].category == FinalCategory(df[i])
  {
    forall i | 0 <= i < |df|
      ensures exists k :: 0 <= k < |r| && r[k].category == FinalCategory(df[i])
    {
      assert RowCategories(df)[i] == FinalCategory(df[i]);
      var j :| 0 <= j < |categories| && categories[j] == FinalCategory(df[i]);
      assert totals[j] in multiset(r);
    }
  }

  function Values(totals: seq<CategoryTotal>): (r: seq<real>)
    ensures |r| == |totals| && forall k :: 0 <= k < |totals| ==> r[k] == totals[k].value
  {
    seq(|totals|, k requires 0 <= k < |totals| => totals[k].value)
  }

  /** `value / total * 100`. */
  function Share(value: real, total: real): (r: Float)
    ensures r.NonFinite? <==> total == 0.0
  {
    match Divide(value, total)
    case NonFinite => NonFinite
    case Finite(q) => Finite(q * 100.0)
  }

  function SpendingLine(t: CategoryTotal, total: real, fmt: Formatter): string {
    "- " + t.category + ": " + fmt.grouped(Finite(t.value)) + " ₽ (" + fmt.oneDecimal(Share(t.value, total)) + "%)"
  }

  function SpendingLineOf(total: real, fmt: Formatter): CategoryTotal -> string {
    t => SpendingLine(t, total, fmt)
  }

  function SpendingBlock(df: seq<Row>, style: Style, fmt: Formatter): (r: seq<string>)
    requires Labelled(df) && FiveSections(style)
    ensures r != [] && r[0] == style.headers[0]
  {
    var byCategory := SpendingByCategory(df);
    [style.headers[0]] + Lines(byCategory, SpendingLineOf(Sum(Values(byCategory)), fmt))
  }

  // ---------------------------------------------------------------------
  // Recurring payments
  // ---------------------------------------------------------------------

  function ByTotal(g: Group): real {
    g.total
  }

  /** One payment group: its description, the number of payments, the
      average and the total payment. */
  function RecurringLine(g: Group, fmt: Formatter): string {
    "- " + g.description + " → " + NatToString(g.count) + " раз, ≈ " +
    fmt.whole(Divide(Abs(g.total), g.count as real)) + " ₽, всего " + fmt.grouped(Finite(Abs(g.total))) + " ₽"
  }

  function RecurringLineOf(fmt: Formatter): Group -> string {
    g => RecurringLine(g, fmt)
  }

  /** The sentinel line, or one line per group by ascending total (the
      most expensive first, totals being negative). */
  function RecurringBody(groups: seq<Group>, fmt: Formatter): seq<string> {
    if |groups| == 0 then [NoRecurring]
    else Lines(SortBy(groups, ByTotal), RecurringLineOf(fmt))
  }

  function RecurringBlock(groups: seq<Group>, style: Style, fmt: Formatter): (r: seq<string>)
    requires FiveSections(style)
    ensures r != [] && r[0] == style.headers[1]
  {
    [style.headers[1]] + RecurringBody(groups, fmt)
  }

  // ---------------------------------------------------------------------
  // Unusual operations
  // ---------------------------------------------------------------------

  function ByAmount(r: Row): real {
    r.txn.amount
  }

  /** `anomalies.sort_values("amount").head(10)`: the ten smallest amounts
      (the largest debits), smallest first. */
  function ShownAnomalies(anomalies: seq<Row>): (shown: seq<Row>)
    ensures |shown| == if |anomalies| < MaxAnomalies then |anomalies| else MaxAnomalies
  {
    Take(SortBy(anomalies, ByAmount), MaxAnomalies)
  }

  /** The operations shown come from the anomalies, in ascending order of
      amount, and no operation left out has a smaller amount than one
      shown. */
  lemma ShownAreSmallest(anomalies: seq<Row>)
    ensures var shown := ShownAnomalies(anomalies);
      multiset(shown) <= multiset(anomalies) &&
      (forall a, b :: 0 <= a < b < |shown| ==> shown[a].txn.amount <= shown[b].txn.amount) &&
      (forall x :: x in multiset(anomalies) - multiset(shown) ==>
        forall k :: 0 <= k < |shown| ==> shown[k].txn.amount <= x.txn.amount)
  {
    var sorted := SortBy(anomalies, ByAmount);
    var n := if |anomalies| < MaxAnomalies then |anomalies| else MaxAnomalies;
    assert ShownAnomalies(anomalies) == sorted[..n];
    AscendingSplit(anomalies, sorted, n);
  }

  lemma AscendingSplit(anomalies: seq<Row>, sorted: seq<Row>, n: nat)
    requires SortedBy(sorted, ByAmount) && multiset(sorted) == multiset(anomalies) && n <= |sorted|
    ensures multiset(sorted[..n]) <= multiset(anomalies)
    ensures forall a, b :: 0 <= a < b < n ==> sorted[a].txn.amount <= sorted[b].txn.amount
    ensures forall x :: x in multiset(anomalies) - multiset(sorted[..n]) ==>
      forall k :: 0 <= k < n ==> sorted[k].txn.amount <= x.txn.amount
  {
    PrefixMultiset(sorted, n);
    forall a, b | 0 <= a < b < n
      ensures sorted[a].txn.amount <= sorted[b].txn.amount
    {
      assert ByAmount(sorted[a]) <= ByAmount(sorted[b]);
    }
    forall x | x in multiset(sorted[n..])
      ensures forall k :: 0 <= k < n ==> sorted[k].txn.amount <= x.txn.amount
    {
      PrefixBelowRest(sorted, n, x);
    }
  }

  lemma PrefixBelowRest(sorted: seq<Row>, n: nat, x: Row)
    requires SortedBy(sorted, ByAmount) && n <= |sorted| && x in multiset(sorted[n..])
    ensures forall k :: 0 <= k < n ==> sorted[k].txn.amount <= x.txn.amount
  {
    var m :| n <= m < |sorted| && sorted[m] == x;
    forall k | 0 <= k < n
      ensures sorted[k].txn.amount <= x.txn.amount
    {
      assert ByAmount(sorted[k]) <= ByAmount(sorted[m]);
    }
  }

  /** The description as shown: whole, or cut and followed by "…". */
  function Described(description: string, limit: Option<nat>): (r: string)
    ensures limit.None? ==> r == description
    ensures limit.Some? ==> 1 <= |r| <= limit.value + 1 && r[..|r| - 1] <= description && r[|r| - 1] == '…'
    ensures limit.Some? ==> |r| == 1 + if |description| <= limit.value then |description| else limit.value
  {
    match limit
    case None => description
    case Some(n) => Truncate(description, n) + "…"
  }

  function AnomalyLine(r: Row, limit: Option<nat>, fmt: Formatter): string {
    "- " + fmt.date(r.txn.date) + " | " + Described(r.txn.description, limit) + " → " + fmt.amount(r.txn.amount) + " ₽"
  }

  function AnomalyLineOf(limit: Option<nat>, fmt: Formatter): Row -> string {
    r => AnomalyLine(r, limit, fmt)
  }

  function AnomalyBody(anomalies: seq<Row>, limit: Option<nat>, fmt: Formatter): seq<string> {
    if |anomalies| == 0 then [NoAnomalies]
    else Lines(ShownAnomalies(anomalies), AnomalyLineOf(limit, fmt))
  }

  function AnomalyBlock(anomalies: seq<Row>, style: Style, fmt: Formatter): (r: seq<string>)
    requires FiveSections(style)
    ensures r != [] && r[0] == style.headers[2]
  {
    [style.headers[2]] + AnomalyBody(anomalies, style.descriptionLimit, fmt)
  }

  // ---------------------------------------------------------------------
  // Behaviour and savings
  // ---------------------------------------------------------------------

  function AdviceLine(a: Advice, fmt: Formatter): string {
    "- " + AdviceText(a, fmt)
  }

  function AdviceLineOf(fmt: Formatter): Advice -> string {
    a => AdviceLine(a, fmt)
  }

  function AdviceBlock(advice: seq<Advice>, style: Style, fmt: Formatter): (r: seq<string>)
    requires FiveSections(style)
    ensures r != [] && r[0] == style.headers[3]
  {
    [style.headers[3]] + Lines(advice, AdviceLineOf(fmt))
  }

  function SavingsLine(savings: real, fmt: Formatter): string {
    "Если оптимизировать выявленные привычки, можно сохранить около " + fmt.grouped(Finite(Abs(savings))) +
    " ₽ за этот период."
  }

  function SavingsBlock(savings: real, style: Style, fmt: Formatter): (r: seq<string>)
    requires FiveSections(style)
    ensures r != [] && r[0] == style.headers[4]
  {
    [style.headers[4], SavingsLine(savings, fmt)]
  }

  // ---------------------------------------------------------------------
  // The two reports
  // ---------------------------------------------------------------------

  /** What the report is made of: the final table, the recurring groups,
      the unusual operations, the savings estimate and the advice. */
  datatype Findings = Findings(
    df: seq<Row>,
    recurringGroups: seq<Group>,
    anomalies: seq<Row>,
    savings: real,
    advice: seq<Advice>)

  /** The five sections, each a title followed by its lines. */
  function Sections(f: Findings, style: Style, fmt: Formatter): (r: seq<seq<string>>)
    requires Labelled(f.df) && FiveSections(style)
    ensures |r| == 5
  {
    [SpendingBlock(f.df, style, fmt),
     RecurringBlock(f.recurringGroups, style, fmt),
     AnomalyBlock(f.anomalies, style, fmt),
     AdviceBlock(f.advice, style, fmt),
     SavingsBlock(f.savings, style, fmt)]
  }

  function JoinLines(block: seq<string>): string {
    Join(block, "\n")
  }

  /** The list of pages: one per section, its lines joined by newlines. */
  function Pages(f: Findings, style: Style, fmt: Formatter): seq<string>
    requires Labelled(f.df) && FiveSections(style)
  {
    Lines(Sections(f, style, fmt), JoinLines)
  }

  /** The single string: all lines of all sections joined by newlines. */
  function Text(f: Findings, style: Style, fmt: Formatter): string
    requires Labelled(f.df) && FiveSections(style)
  {
    Join(Flatten(Sections(f, style, fmt)), "\n")
  }

  // ---------------------------------------------------------------------
  // Properties
  // ---------------------------------------------------------------------

  /** Every section is its title followed by its lines. */
  lemma SectionTitles(f: Findings, style: Style, fmt: Formatter)
    requires Labelled(f.df) && FiveSections(style)
    ensures forall k :: 0 <= k < 5 ==>
      Sections(f, style, fmt)[k] != [] && Sections(f, style, fmt)[k][0] == style.headers[k]
  {
    TitledFive(SpendingBlock(f.df, style, fmt), RecurringBlock(f.recurringGroups, style, fmt),
      AnomalyBlock(f.anomalies, style, fmt), AdviceBlock(f.advice, style, fmt), SavingsBlock(f.savings, style, fmt),
      style.headers);
  }

  lemma TitledFive(a: seq<string>, b: seq<string>, c: seq<string>, d: seq<string>, e: seq<string>, headers: seq<string>)
    requires |headers| >= 5
    requires a != [] && a[0] == headers[0] && b != [] && b[0] == headers[1] && c != [] && c[0] == headers[2]
    requires d != [] && d[0] == headers[3] && e != [] && e[0] == headers[4]
    ensures forall k :: 0 <= k < 5 ==> [a, b, c, d, e][k] != [] && [a, b, c, d, e][k][0] == headers[k]
  {
  }

  /** The report has five pages in the fixed order: each page opens with
      its title, and the last one is the savings sentence. */
  lemma PagesInFixedOrder(f: Findings, style: Style, fmt: Formatter)
    requires Labelled(f.df) && FiveSections(style)
    ensures |Pages(f, style, fmt)| == 5
    ensures forall k :: 0 <= k < 5 ==> style.headers[k] <= Pages(f, style, fmt)[k]
    ensures Pages(f, style, fmt)[4] == style.headers[4] + "\n" + SavingsLine(f.savings, fmt)
  {
    var sections := Sections(f, style, fmt);
    SectionTitles(f, style, fmt);
    TitledPages(sections, style.headers);
    assert sections[4] == [style.headers[4], SavingsLine(f.savings, fmt)];
    PairPage(sections, 4);
  }

  /** Pages of titled blocks open with their titles. */
  lemma TitledPages(blocks: seq<seq<string>>, headers: seq<string>)
    requires |blocks| <= |headers|
    requires forall k :: 0 <= k < |blocks| ==> blocks[k] != [] && blocks[k][0] == headers[k]
    ensures forall k :: 0 <= k < |blocks| ==> headers[k] <= Lines(blocks, JoinLines)[k]
  {
    forall k | 0 <= k < |blocks|
      ensures headers[k] <= Lines(blocks, JoinLines)[k]
    {
      JoinStartsWithFirst(blocks[k], "\n");
    }
  }

  /** The page of a two-line block is its two lines around a newline. */
  lemma PairPage(blocks: seq<seq<string>>, k: nat)
    requires k < |blocks| && |blocks[k]| == 2
    ensures Lines(blocks, JoinLines)[k] == blocks[k][0] + "\n" + blocks[k][1]
  {
    var b := blocks[k];
    assert Lines(blocks, JoinLines)[k] == Join(b, "\n");
    assert b[..1] == [b[0]] && Join(b[..1], "\n") == b[0];
  }

  /** The single string is the pages joined by newlines: the two reports
      hold the same lines, apart from their titles and description cut. */
  lemma TextJoinsPages(f: Findings, style: Style, fmt: Formatter)
    requires Labelled(f.df) && FiveSections(style)
    ensures Text(f, style, fmt) == Join(Pages(f, style, fmt), "\n")
  {
    SectionTitles(f, style, fmt);
    JoinFlatten(Sections(f, style, fmt));
  }

  /** Joining all lines of non-empty blocks is joining the joined blocks. */
  lemma {:induction false} JoinFlatten(blocks: seq<seq<string>>)
    requires forall k :: 0 <= k < |blocks| ==> blocks[k] != []
    ensures JoinLines(Flatten(blocks)) == JoinLines(Lines(blocks, JoinLines))
    decreases |blocks|
  {
    if |blocks| > 0 {
      var init := blocks[..|blocks| - 1];
      var last := blocks[|blocks| - 1];
      JoinFlatten(init);
      var joined := Lines(blocks, JoinLines);
      assert joined[..|joined| - 1] == Lines(init, JoinLines);
      if |init| == 0 {
        assert Flatten(blocks) == last;
      } else {
        FlattenNonEmpty(init);
        JoinAppend(Flatten(init), last, "\n");
      }
    }
  }

  lemma {:induction false} FlattenNonEmpty(blocks: seq<seq<string>>)
    requires |blocks| > 0 && forall k :: 0 <= k < |blocks| ==> blocks[k] != []
    ensures Flatten(blocks) != []
  {
    assert |Flatten(blocks)| >= |blocks[|blocks| - 1]|;
  }

  /** The recurring section holds the sentinel exactly when there is no
      group; otherwise one line per group, the groups reordered by
      ascending total. */
  lemma RecurringSection(groups: seq<Group>, fmt: Formatter)
    ensures var body := RecurringBody(groups, fmt);
      (body[0] == NoRecurring <==> groups == []) &&
      (groups == [] ==> body == [NoRecurring]) &&
      (groups != [] ==> exists sorted ::
        multiset(sorted) == multiset(groups) && SortedBy(sorted, ByTotal) &&
        body == Lines(sorted, RecurringLineOf(fmt)))
  {
    if groups != [] {
      var sorted := SortBy(groups, ByTotal);
      assert RecurringLine(sorted[0], fmt)[0] == '-';
    }
  }

  /** The unusual-operations section holds the sentinel exactly when there
      is none; otherwise at most ten lines for the smallest amounts, in
      ascending order. */
  lemma AnomalySection(anomalies: seq<Row>, limit: Option<nat>, fmt: Formatter)
    ensures var body := AnomalyBody(anomalies, limit, fmt);
      (body[0] == NoAnomalies <==> anomalies == []) &&
      1 <= |body| <= MaxAnomalies &&
      (anomalies != [] ==> body == Lines(ShownAnomalies(anomalies), AnomalyLineOf(limit, fmt)))
  {
    if anomalies != [] {
      assert AnomalyLine(ShownAnomalies(anomalies)[0], limit, fmt)[0] == '-';
    }
  }

  /** The behaviour section is the title and one "- " line per advice, in
      the advice's order. */
  lemma AdviceSection(advice: seq<Advice>, style: Style, fmt: Formatter)
    requires FiveSections(style)
    ensures var block := AdviceBlock(advice, style, fmt);
      |block| == |advice| + 1 &&
      forall k :: 0 <= k < |advice| ==> block[k + 1] == "- " + AdviceText(advice[k], fmt)
  {
  }

  /** With no abnormal month the behaviour page is the stable sentence
      alone. */
  lemma StablePage(p: Profile, style: Style, fmt: Formatter)
    requires FiveSections(style) && WellFormed(p) && !(true in p.abnormal)
    ensures JoinLines(AdviceBlock(Explain(p), style, fmt)) == style.headers[3] + "\n" + ("- " + StableText)
  {
    StableIffNoAbnormalMonth(p);
    var advice := Explain(p);
    assert advice == [Stable];
    var block := AdviceBlock(advice, style, fmt);
    assert block == [style.headers[3], "- " + StableText];
    assert block[..1] == [style.headers[3]];
    assert Join(block[..1], "\n") == style.headers[3];
  }

  /** The shares of the spending section add up to 100% whenever anything
      was spent. */
  lemma SharesAddUpToHundred(values: seq<real>)
    requires Sum(values) != 0.0
    ensures Sum(ShareValues(values, Sum(values))) == 100.0
  {
    var total := Sum(values);
    SharesAreScaled(values, total);
    ScaledSum(values, 100.0 / total);
    TotalTimesInverse(total);
  }

  /** Each share is the value scaled by `100 / total`. */
  lemma SharesAreScaled(values: seq<real>, total: real)
    requires total != 0.0
    ensures ShareValues(values, total) == Scaled(values, 100.0 / total)
  {
    forall k | 0 <= k < |values|
      ensures ShareValues(values, total)[k] == Scaled(values, 100.0 / total)[k]
    {
      ShareIsScaled(values[k], total);
    }
  }

  /** The finite shares the spending lines render. */
  function ShareValues(values: seq<real>, total: real): (r: seq<real>)
    requires total != 0.0
    ensures |r| == |values|
    ensures forall k :: 0 <= k < |values| ==> Share(values[k], total) == Finite(r[k])
    ensures forall k :: 0 <= k < |values| ==> r[k] == values[k] / total * 100.0
  {
    seq(|values|, k requires 0 <= k < |values| => values[k] / total * 100.0)
  }

  function Scaled(values: seq<real>, c: real): (r: seq<real>)
    ensures |r| == |values| && forall k :: 0 <= k < |values| ==> r[k] == values[k] * c
  {
    seq(|values|, k requires 0 <= k < |values| => values[k] * c)
  }

  lemma {:induction false} ScaledSum(values: seq<real>, c: real)
    ensures Sum(Scaled(values, c)) == Sum(values) * c
    decreases |values|
  {
    if values != [] {
      var init := values[..|values| - 1];
      ScaledSum(init, c);
      forall k | 0 <= k < |init|
        ensures Scaled(values, c)[..|values| - 1][k] == Scaled(init, c)[k]
      {
        assert init[k] == values[k];
      }
      assert Scaled(values, c)[..|values| - 1] == Scaled(init, c);
    }
  }

  lemma ShareIsScaled(v: real, total: real)
    requires total != 0.0
    ensures v / total * 100.0 == v * (100.0 / total)
  {
  }

  lemma TotalTimesInverse(total: real)
    requires total != 0.0
    ensures total * (100.0 / total) == 100.0
  {
  }

  // ---------------------------------------------------------------------
  // Writing the report
  // ---------------------------------------------------------------------

  /** The loop `for x in xs: block.append(f(x))`. */
  method AppendLines<T>(block: seq<string>, xs: seq<T>, f: T -> string) returns (r: seq<string>)
    ensures r == block + Lines(xs, f)
  {
    r := block;
    for i := 0 to |xs|
      invariant r == block + Lines(xs[..i], f)
    {
      assert Lines(xs[..i + 1], f) == Lines(xs[..i], f) + [f(xs[i])];
      r := r + [f(xs[i])];
    }
    assert xs[..|xs|] == xs;
  }

  /** "Where the money goes": the title, then one line per category. */
  method WriteSpending(df: seq<Row>, style: Style, fmt: Formatter) returns (block: seq<string>)
    requires Labelled(df) && FiveSections(style)
    ensures block == SpendingBlock(df, style, fmt)
  {
    block := [style.headers[0]];
    var byCategory := SpendingByCategory(df);
    var total := Sum(Values(byCategory));
    block := AppendLines(block, byCategory, SpendingLineOf(total, fmt));
  }

  /** The recurring payments: the title, then the sentinel or one line per
      group by ascending total. */
  method WriteRecurring(groups: seq<Group>, style: Style, fmt: Formatter) returns (block: seq<string>)
    requires FiveSections(style)
    ensures block == RecurringBlock(groups, style, fmt)
  {
    block := [style.headers[1]];
    if |groups| == 0 {
      block := block + [NoRecurring];
    } else {
      block := AppendLines(block, SortBy(groups, ByTotal), RecurringLineOf(fmt));
    }
  }

  /** The unusual operations: the title, then the sentinel or the ten
      smallest amounts. */
  method WriteAnomalies(anomalies: seq<Row>, style: Style, fmt: Formatter) returns (block: seq<string>)
    requires FiveSections(style)
    ensures block == AnomalyBlock(anomalies, style, fmt)
  {
    block := [style.headers[2]];
    if |anomalies| == 0 {
      block := block + [NoAnomalies];
    } else {
      block := AppendLines(block, ShownAnomalies(anomalies), AnomalyLineOf(style.descriptionLimit, fmt));
    }
  }

  /** The behaviour analysis: the title, then one line per advice. */
  method WriteAdvice(advice: seq<Advice>, style: Style, fmt: Formatter) returns (block: seq<string>)
    requires FiveSections(style)
    ensures block == AdviceBlock(advice, style, fmt)
  {
    block := [style.headers[3]];
    block := AppendLines(block, advice, AdviceLineOf(fmt));
  }
}
