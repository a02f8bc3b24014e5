/**
 * The statement loader (`BankStatementLoader`): it finds the header row of
 * a messy spreadsheet, maps the bank's column names onto the fixed schema
 * `date | description | amount | category | mcc`, and drops the rows whose
 * date or amount does not parse.
 *
 * A sheet is its cells as text (`astype(str)`), row by row. Parsing a date
 * (day first), coercing an amount and extracting an MCC are the bank
 * library's business and come in as the functions of `Parsers`.
 */
module Loader {
  import opened Common
  import opened Table

  /** The header fragments `_load_bank_xlsx` looks for. */
  const RequiredKeywords: seq<string> := ["дата", "сум", "опис", "катег"]

  /** `max_scan`: how many leading rows may hold the header. */
  const MaxScan: nat := 200

  const HeaderNotFound: string := "Не удалось найти строку заголовков."

  /** Category given to every row of a statement without a category column. */
  const DefaultCategory: string := "Другое"

  // ---------------------------------------------------------------------
  // Header detection (`_find_header_row`)
  // ---------------------------------------------------------------------

  function LowerCells(row: seq<string>): (r: seq<string>)
    ensures |r| == |row|
    ensures forall j :: 0 <= j < |row| ==> r[j] == Lower(row[j])
  {
    seq(|row|, j requires 0 <= j < |row| => Lower(row[j]))
  }

  /** Some cell of the (already lower-cased) row contains the keyword. */
  predicate KeywordInRow(row: seq<string>, key: string) {
    exists j :: 0 <= j < |row| && Contains(row[j], Lower(key))
  }

  /** The score of a lower-cased row: how many of the required keywords
      occur in at least one of its cells. A keyword is counted once however
      many cells contain it. */
  function Score(row: seq<string>, required: seq<string>): (n: nat)
    ensures n <= |required|
    decreases |required|
  {
    if required == [] then 0
    else
      Score(row, required[..|required| - 1]) +
      (if KeywordInRow(row, required[|required| - 1]) then 1 else 0)
  }

  /** How many rows are scanned: `min(len(df_raw), max_scan)`. */
  function ScanLimit(raw: seq<seq<string>>, maxScan: nat): (n: nat)
    ensures n <= |raw| && n <= maxScan
    ensures n == |raw| || n == maxScan
  {
    if |raw| < maxScan then |raw| else maxScan
  }

  /** The scores of the first `n` rows. */
  function Scores(raw: seq<seq<string>>, required: seq<string>, n: nat): (s: seq<int>)
    requires n <= |raw|
    ensures |s| == n
    ensures forall i :: 0 <= i < n ==> s[i] == Score(LowerCells(raw[i]), required)
  {
    seq(n, i requires 0 <= i < n => Score(LowerCells(raw[i]), required))
  }

  /** The first index whose value reaches the threshold `t`. */
  function FirstAtLeast(s: seq<int>, t: int): (r: Option<nat>)
    ensures r.Some? ==> r.value < |s| && s[r.value] >= t
    ensures r.Some? ==> forall j :: 0 <= j < r.value ==> s[j] < t
    ensures r.None? ==> forall j :: 0 <= j < |s| ==> s[j] < t
    decreases |s|
  {
    if s == [] then None
    else
      match FirstAtLeast(s[..|s| - 1], t)
      case Some(i) => Some(i)
      case None => if s[|s| - 1] >= t then Some(|s| - 1) else None
  }

  /** The first index holding the largest score. This is `Common.ArgMax`
      on integer scores; it stays separate because the header scan's loop
      is proved against its unfolding on prefixes of an integer sequence. */
  function BestIndex(s: seq<int>): (i: nat)
    requires |s| > 0
    ensures i < |s|
    ensures forall j :: 0 <= j < |s| ==> s[j] <= s[i]
    ensures forall j :: 0 <= j < i ==> s[j] < s[i]
    decreases |s|
  {
    if |s| == 1 then 0
    else
      var b := BestIndex(s[..|s| - 1]);
      if s[|s| - 1] > s[b] then |s| - 1 else b
  }

  /** The header row `_find_header_row` settles on: the first scanned row
      matching all keywords but one; failing that, the earliest row with the
      best score, provided that score is positive. */
  function HeaderRow(raw: seq<seq<string>>, required: seq<string>, maxScan: nat): Result<nat> {
    HeaderOf(Scores(raw, required, ScanLimit(raw, maxScan)), |required| - 1)
  }

  /** The choice of `_find_header_row` on the row scores `s`, with the
      early-exit threshold `t`. */
  function HeaderOf(s: seq<int>, t: int): Result<nat> {
    match FirstAtLeast(s, t)
    case Some(i) => Ok(i)
    case None =>
      if s == [] || s[BestIndex(s)] <= 0 then Err(HeaderNotFound) else Ok(BestIndex(s))
  }

  /** The scoring of one row: for each keyword, scan the cells until one
      contains it. */
  method ScoreRow(row: seq<string>, required: seq<string>) returns (score: nat)
    ensures score == Score(row, required)
  {
    score := 0;
    var k := 0;
    while k < |required|
      invariant 0 <= k <= |required|
      invariant score == Score(row, required[..k])
    {
      var key := Lower(required[k]);
      var found := false;
      var j := 0;
      while j < |row| && !found
        invariant 0 <= j <= |row|
        invariant found <==> exists j' :: 0 <= j' < j && Contains(row[j'], key)
      {
        if Contains(row[j], key) {
          found := true;
        }
        j := j + 1;
      }
      assert found <==> KeywordInRow(row, required[k]);
      assert required[..k + 1][..k] == required[..k];
      if found {
        score := score + 1;
      }
      k := k + 1;
    }
    assert required[..k] == required;
  }

  method FindHeaderRow(raw: seq<seq<string>>, required: seq<string>, maxScan: nat)
    returns (r: Result<nat>)
    ensures r == HeaderRow(raw, required, maxScan)
  {
    var bestI, bestScore := 0, -1;
    var n := ScanLimit(raw, maxScan);
    var i := 0;
    while i < n
      invariant 0 <= i <= n
      invariant Scanned(Scores(raw, required, n)[..i], |required| - 1, bestI, bestScore)
    {
      var row := LowerCells(raw[i]);
      var score := ScoreRow(row, required);
      ScanStep(raw, required, maxScan, i, bestI, bestScore, score);
      if score >= |required| - 1 {
        return Ok(i);
      }
      if score > bestScore {
        bestScore := score;
        bestI := i;
      }
      i := i + 1;
    }
    HeaderRowAfterScan(raw, required, maxScan, bestI, bestScore);
    if bestScore <= 0 {
      return Err(HeaderNotFound);
    }
    return Ok(bestI);
  }

  /** What the loop of `FindHeaderRow` knows about the scores `s` scanned
      so far: none reached the threshold `t`, and `bestI` holds the earliest
      best score, `bestScore`, which starts at -1. */
  ghost predicate Scanned(s: seq<int>, t: int, bestI: nat, bestScore: int) {
    FirstAtLeast(s, t) == None &&
    (s == [] ==> bestI == 0 && bestScore == -1) &&
    (s != [] ==> bestI == BestIndex(s) && bestScore == s[bestI])
  }

  /** One more row scanned by `FindHeaderRow`: either it matches all
      keywords but one and is the header row, or the scan goes on with the
      best score updated. */
  lemma ScanStep(raw: seq<seq<string>>, required: seq<string>, maxScan: nat, i: nat, bestI: nat, bestScore: int, score: nat)
    requires i < ScanLimit(raw, maxScan) && score == Score(LowerCells(raw[i]), required)
    requires Scanned(Scores(raw, required, ScanLimit(raw, maxScan))[..i], |required| - 1, bestI, bestScore)
    ensures score >= |required| - 1 ==> HeaderRow(raw, required, maxScan) == Ok(i)
    ensures score < |required| - 1 ==>
      Scanned(Scores(raw, required, ScanLimit(raw, maxScan))[..i + 1], |required| - 1,
        if score > bestScore then i else bestI, if score > bestScore then score else bestScore)
  {
    ScanOne(Scores(raw, required, ScanLimit(raw, maxScan)), |required| - 1, i, bestI, bestScore, score);
  }

  /** One more score scanned: either it reaches the threshold and is the
      answer, or the scan goes on with the best score updated. */
  lemma ScanOne(s: seq<int>, need: int, i: nat, bestI: nat, bestScore: int, score: nat)
    requires i < |s| && s[i] == score
    requires Scanned(s[..i], need, bestI, bestScore)
    ensures score >= need ==> FirstAtLeast(s, need) == Some(i)
    ensures score < need ==>
      if score > bestScore then Scanned(s[..i + 1], need, i, score)
      else Scanned(s[..i + 1], need, bestI, bestScore)
  {
    var t := need;
    var p := s[..i + 1];
    assert p[..|p| - 1] == s[..i];
    assert p[|p| - 1] == s[i];
    if score < need {
      assert FirstAtLeast(p, t) == None;
      if i == 0 {
        assert BestIndex(p) == 0;
      } else {
        assert BestIndex(p) == if s[i] > s[bestI] then i else bestI;
      }
    } else {
      forall j | 0 <= j < i
        ensures s[j] < t
      {
        assert s[..i][j] == s[j];
      }
      FirstAtLeastAt(s, t, i);
    }
  }

  /** The scan ran to its end without an early exit. */
  lemma HeaderRowAfterScan(raw: seq<seq<string>>, required: seq<string>, maxScan: nat, bestI: nat, bestScore: int)
    requires Scanned(Scores(raw, required, ScanLimit(raw, maxScan))[..ScanLimit(raw, maxScan)],
      |required| - 1, bestI, bestScore)
    ensures HeaderRow(raw, required, maxScan) == if bestScore <= 0 then Err(HeaderNotFound) else Ok(bestI)
  {
    var s := Scores(raw, required, ScanLimit(raw, maxScan));
    assert s[..|s|] == s;
  }

  lemma HeaderRowIsScanned(raw: seq<seq<string>>, required: seq<string>, maxScan: nat)
    ensures HeaderRow(raw, required, maxScan).Ok? ==>
      HeaderRow(raw, required, maxScan).value < ScanLimit(raw, maxScan)
  {
  }

  /** Early exit: the first scanned row matching at least all keywords but
      one is returned, whatever the rows after it hold. */
  lemma HeaderRowEarlyExit(raw: seq<seq<string>>, required: seq<string>, maxScan: nat, i: nat)
    requires i < ScanLimit(raw, maxScan)
    requires Score(LowerCells(raw[i]), required) >= |required| - 1
    requires forall j :: 0 <= j < i ==> Score(LowerCells(raw[j]), required) < |required| - 1
    ensures HeaderRow(raw, required, maxScan) == Ok(i)
  {
    var s := Scores(raw, required, ScanLimit(raw, maxScan));
    ScoresBelow(raw, required, ScanLimit(raw, maxScan), i);
    FirstAtLeastAt(s, |required| - 1, i);
  }

  lemma ScoresBelow(raw: seq<seq<string>>, required: seq<string>, n: nat, i: nat)
    requires i <= n <= |raw|
    requires forall j :: 0 <= j < i ==> Score(LowerCells(raw[j]), required) < |required| - 1
    ensures forall j :: 0 <= j < i ==> Scores(raw, required, n)[j] < |required| - 1
  {
  }

  lemma FirstAtLeastAt(s: seq<int>, t: int, i: nat)
    requires i < |s| && s[i] >= t
    requires forall j :: 0 <= j < i ==> s[j] < t
    ensures FirstAtLeast(s, t) == Some(i)
  {
  }

  lemma FirstAtLeastNone(s: seq<int>, t: int)
    requires forall j :: 0 <= j < |s| ==> s[j] < t
    ensures FirstAtLeast(s, t) == None
  {
  }

  /** Without an early exit, the earliest row with the best score wins:
      ties never replace the row found first. */
  lemma HeaderRowEarliestBest(raw: seq<seq<string>>, required: seq<string>, maxScan: nat)
    requires forall j :: 0 <= j < ScanLimit(raw, maxScan) ==>
      Score(LowerCells(raw[j]), required) < |required| - 1
    ensures HeaderRow(raw, required, maxScan).Ok? ==>
      var b := HeaderRow(raw, required, maxScan).value;
      b < ScanLimit(raw, maxScan) &&
      Score(LowerCells(raw[b]), required) > 0 &&
      (forall j :: 0 <= j < ScanLimit(raw, maxScan) ==>
        Score(LowerCells(raw[j]), required) <= Score(LowerCells(raw[b]), required)) &&
      (forall j :: 0 <= j < b ==>
        Score(LowerCells(raw[j]), required) < Score(LowerCells(raw[b]), required))
  {
    var n := ScanLimit(raw, maxScan);
    var s := Scores(raw, required, n);
    var t := |required| - 1;
    forall j | 0 <= j < n
      ensures s[j] < t
    {
      assert Score(LowerCells(raw[j]), required) < |required| - 1;
    }
    FirstAtLeastNone(s, t);
  }

  /** With at least two keywords, detection fails exactly when every
      scanned row scores zero; an empty sheet is the degenerate case. */
  lemma HeaderRowFailsIffNothingMatches(raw: seq<seq<string>>, required: seq<string>, maxScan: nat)
    requires |required| >= 2
    ensures HeaderRow(raw, required, maxScan).Err? <==>
      forall j :: 0 <= j < ScanLimit(raw, maxScan) ==> Score(LowerCells(raw[j]), required) == 0
  {
    var n := ScanLimit(raw, maxScan);
    var s := Scores(raw, required, n);
    var t := |required| - 1;
    match FirstAtLeast(s, t)
    case Some(i) =>
      assert Score(LowerCells(raw[i]), required) > 0;
    case None =>
      if s != [] {
        var b := BestIndex(s);
        if s[b] <= 0 {
          forall j | 0 <= j < n
            ensures Score(LowerCells(raw[j]), required) == 0
          {
            assert s[j] <= s[b];
          }
        } else {
          assert Score(LowerCells(raw[b]), required) > 0;
        }
      }
  }

  /** With the statement keywords, a row matching all four fragments is
      found when no earlier row matches three of them. */
  lemma FullHeaderRowFound(raw: seq<seq<string>>, i: nat)
    requires i < |raw| && i < MaxScan
    requires Score(LowerCells(raw[i]), RequiredKeywords) == |RequiredKeywords|
    requires forall j :: 0 <= j < i ==> Score(LowerCells(raw[j]), RequiredKeywords) <= 2
    ensures HeaderRow(raw, RequiredKeywords, MaxScan) == Ok(i)
  {
    HeaderRowEarlyExit(raw, RequiredKeywords, MaxScan, i);
  }

  // ---------------------------------------------------------------------
  // Column mapping (`_normalize_columns`)
  // ---------------------------------------------------------------------

  datatype Target = DateColumn | DescriptionColumn | AmountColumn | CategoryColumn

  /** The schema name a detected column is renamed to. */
  function TargetName(t: Target): string {
    match t
    case DateColumn => "date"
    case DescriptionColumn => "description"
    case AmountColumn => "amount"
    case CategoryColumn => "category"
  }

  /** The target of a raw column name, by fragment of its lower-cased
      form, in the fixed priority date, description, amount, category. */
  function Classify(name: string): Option<Target> {
    var n := Lower(name);
    if Contains(n, "дата") then Some(DateColumn)
    else if Contains(n, "опис") || Contains(n, "назнач") then Some(DescriptionColumn)
    else if Contains(n, "сум") || Contains(n, "amount") then Some(AmountColumn)
    else if Contains(n, "катег") then Some(CategoryColumn)
    else None
  }

  /** `detected[t]`: the positions of the columns classified as `t`, in
      column order. */
  function Matching(columns: seq<string>, t: Target): (r: seq<nat>)
    ensures forall k :: 0 <= k < |r| ==> r[k] < |columns| && Classify(columns[r[k]]) == Some(t)
    ensures forall j :: 0 <= j < |columns| && Classify(columns[j]) == Some(t) ==> j in r
    ensures forall k, l :: 0 <= k < l < |r| ==> r[k] < r[l]
    decreases |columns|
  {
    if columns == [] then []
    else
      var init := columns[..|columns| - 1];
      assert forall j :: 0 <= j < |init| ==> init[j] == columns[j];
      Matching(init, t) +
      (if Classify(columns[|columns| - 1]) == Some(t) then [|columns| - 1] else [])
  }

  /** One more column scanned. */
  lemma MatchingStep(columns: seq<string>, j: nat, t: Target)
    requires j < |columns|
    ensures Matching(columns[..j + 1], t) ==
      Matching(columns[..j], t) + (if Classify(columns[j]) == Some(t) then [j] else [])
  {
    assert columns[..j + 1][..j] == columns[..j];
  }

  /** The first column detected for `t` (`detected[t][0]`). */
  function FirstMatch(columns: seq<string>, t: Target): (r: Option<nat>)
    ensures r.Some? ==> r.value < |columns| && Classify(columns[r.value]) == Some(t)
    ensures r.Some? ==> forall j :: 0 <= j < r.value ==> Classify(columns[j]) != Some(t)
    ensures r.None? ==> forall j :: 0 <= j < |columns| ==> Classify(columns[j]) != Some(t)
    decreases |columns|
  {
    if columns == [] then None
    else
      var init := columns[..|columns| - 1];
      assert forall j :: 0 <= j < |init| ==> init[j] == columns[j];
      match FirstMatch(init, t)
      case Some(i) => Some(i)
      case None => if Classify(columns[|columns| - 1]) == Some(t) then Some(|columns| - 1) else None
  }

  /** The name column `j` carries after `rename(columns=final_map)`: the
      first column detected for a target takes the target's name, every
      other column keeps its own. */
  function RenamedColumn(columns: seq<string>, j: nat): string
    requires j < |columns|
  {
    match Classify(columns[j])
    case None => columns[j]
    case Some(t) => if FirstMatch(columns, t) == Some(j) then TargetName(t) else columns[j]
  }

  function Renamed(columns: seq<string>): (names: seq<string>)
    ensures |names| == |columns|
    ensures forall j :: 0 <= j < |columns| ==> names[j] == RenamedColumn(columns, j)
  {
    seq(|columns|, j requires 0 <= j < |columns| => RenamedColumn(columns, j))
  }

  /** `detected[t][0]` is the first column classified as `t`. */
  lemma FirstMatchIsHeadOfMatching(columns: seq<string>, t: Target)
    ensures FirstMatch(columns, t) ==
      (if Matching(columns, t) == [] then None else Some(Matching(columns, t)[0]))
  {
    var m := Matching(columns, t);
    if m != [] {
      assert Classify(columns[m[0]]) == Some(t);
      var i := FirstMatch(columns, t).value;
      assert i in m;
      var k :| 0 <= k < |m| && m[k] == i;
      assert m[0] <= m[k];
    }
  }

  /** The first position holding `x`. */
  function IndexOf(names: seq<string>, x: string): (r: Option<nat>)
    ensures r.Some? ==> r.value < |names| && names[r.value] == x
    ensures r.Some? ==> forall j :: 0 <= j < r.value ==> names[j] != x
    ensures r.None? ==> x !in names
    decreases |names|
  {
    if names == [] then None
    else
      match IndexOf(names[..|names| - 1], x)
      case Some(i) => Some(i)
      case None =>
        assert forall y :: y in names ==> y in names[..|names| - 1] || y == names[|names| - 1];
        if names[|names| - 1] == x then Some(|names| - 1) else None
  }

  /** Where each schema column is read from; `category` may be absent. */
  datatype Selection = Selection(date: nat, description: nat, amount: nat, category: Option<nat>)

  /** `x` names at most one column. */
  predicate AtMostOnce(names: seq<string>, x: string) {
    forall i, j :: 0 <= i < j < |names| && names[i] == x ==> names[j] != x
  }

  /** `df[["date", "description", "amount", "category"]]` on the renamed
      header, and the coercions that follow it: a missing date,
      description or amount column is a `KeyError`; a schema name carried
      by two columns hands `to_datetime`, `to_numeric` or the MCC
      extraction a table instead of a column, which they reject. */
  function SelectFrom(names: seq<string>): (r: Result<Selection>)
    ensures r.Ok? <==>
      "date" in names && "description" in names && "amount" in names &&
      AtMostOnce(names, "date") && AtMostOnce(names, "description") &&
      AtMostOnce(names, "amount") && AtMostOnce(names, "category")
    ensures r.Ok? ==>
      r.value.date < |names| && names[r.value.date] == "date" &&
      r.value.description < |names| && names[r.value.description] == "description" &&
      r.value.amount < |names| && names[r.value.amount] == "amount"
    ensures r.Ok? ==>
      (r.value.category.Some? <==> "category" in names) &&
      (r.value.category.Some? ==> r.value.category.value < |names| && names[r.value.category.value] == "category")
  {
    var date, description, amount := IndexOf(names, "date"), IndexOf(names, "description"), IndexOf(names, "amount");
    if date.None? || description.None? || amount.None? then
      Err("KeyError: the statement lacks a date, description or amount column")
    else if !AtMostOnce(names, "date") || !AtMostOnce(names, "description") ||
            !AtMostOnce(names, "amount") || !AtMostOnce(names, "category") then
      Err("TypeError: a schema column appears twice after the renaming")
    else
      Ok(Selection(date.value, description.value, amount.value, IndexOf(names, "category")))
  }

  /** The selection made on the header as the rename leaves it. */
  function Select(columns: seq<string>): (r: Result<Selection>)
    ensures r.Ok? ==>
      r.value.date < |columns| && r.value.description < |columns| && r.value.amount < |columns| &&
      (r.value.category.Some? ==> r.value.category.value < |columns|)
  {
    SelectFrom(Renamed(columns))
  }

  /** The bank library's coercions, seen as partial functions of a cell. */
  datatype Parsers = Parsers(
    date: string -> Option<Date>,
    amount: string -> Option<real>,
    mcc: string -> Option<int>)

  /** One data row of the statement, coerced; `None` when its date or its
      amount does not parse (the row `dropna` removes). */
  function CoerceRow(row: seq<string>, sel: Selection, parsers: Parsers): Option<Transaction>
    requires sel.date < |row| && sel.description < |row| && sel.amount < |row|
    requires sel.category.Some? ==> sel.category.value < |row|
  {
    match (parsers.date(row[sel.date]), parsers.amount(row[sel.amount]))
    case (Some(d), Some(a)) =>
      var description := row[sel.description];
      var category := if sel.category.Some? then row[sel.category.value] else DefaultCategory;
      Some(Transaction(d, description, a, category, parsers.mcc(description)))
    case _ => None
  }

  ghost predicate Fits(rows: seq<seq<string>>, sel: Selection) {
    forall i :: 0 <= i < |rows| ==>
      sel.date < |rows[i]| && sel.description < |rows[i]| && sel.amount < |rows[i]| &&
      (sel.category.Some? ==> sel.category.value < |rows[i]|)
  }

  /** The coerced rows, in statement order, without those that fail to parse. */
  function Coerce(rows: seq<seq<string>>, sel: Selection, parsers: Parsers): (r: seq<Transaction>)
    requires Fits(rows, sel)
    ensures |r| <= |rows|
    ensures forall k :: 0 <= k < |r| ==>
      exists i :: 0 <= i < |rows| && CoerceRow(rows[i], sel, parsers) == Some(r[k])
    ensures forall i :: 0 <= i < |rows| && CoerceRow(rows[i], sel, parsers).Some? ==>
      CoerceRow(rows[i], sel, parsers).value in r
    decreases |rows|
  {
    if rows == [] then []
    else
      var init := rows[..|rows| - 1];
      assert forall i :: 0 <= i < |init| ==> init[i] == rows[i];
      Coerce(init, sel, parsers) +
      (match CoerceRow(rows[|rows| - 1], sel, parsers)
       case Some(t) => [t]
       case None => [])
  }

  /** Coercion commutes with concatenation: the surviving rows keep the
      statement's order and each occurrence. */
  lemma {:induction false} CoerceAppend(a: seq<seq<string>>, b: seq<seq<string>>, sel: Selection, parsers: Parsers)
    requires Fits(a, sel) && Fits(b, sel)
    ensures Fits(a + b, sel)
    ensures Coerce(a + b, sel, parsers) == Coerce(a, sel, parsers) + Coerce(b, sel, parsers)
    decreases |b|
  {
    FitsAppend(a, b, sel);
    if b == [] {
      assert a + b == a;
    } else {
      var ib, last := b[..|b| - 1], b[|b| - 1];
      FitsPrefix(b, sel);
      CoerceAppend(a, ib, sel, parsers);
      var ab := a + b;
      assert ab[..|ab| - 1] == a + ib && ab[|ab| - 1] == last;
      CoerceLast(b, sel, parsers);
      CoerceLast(ab, sel, parsers);
      Reassociate(Coerce(ab, sel, parsers), Coerce(a, sel, parsers), Coerce(ib, sel, parsers),
        CoercedRow(last, sel, parsers), Coerce(b, sel, parsers));
    }
  }

  /** The last row's contribution: its transaction, or nothing. */
  function CoercedRow(row: seq<string>, sel: Selection, parsers: Parsers): seq<Transaction>
    requires sel.date < |row| && sel.description < |row| && sel.amount < |row|
    requires sel.category.Some? ==> sel.category.value < |row|
  {
    match CoerceRow(row, sel, parsers)
    case Some(x) => [x]
    case None => []
  }

  lemma CoerceLast(rows: seq<seq<string>>, sel: Selection, parsers: Parsers)
    requires Fits(rows, sel) && rows != []
    ensures Fits(rows[..|rows| - 1], sel)
    ensures Coerce(rows, sel, parsers) == Coerce(rows[..|rows| - 1], sel, parsers) + CoercedRow(rows[|rows| - 1], sel, parsers)
  {
    FitsPrefix(rows, sel);
  }

  lemma FitsPrefix(rows: seq<seq<string>>, sel: Selection)
    requires Fits(rows, sel) && rows != []
    ensures Fits(rows[..|rows| - 1], sel)
  {
    var init := rows[..|rows| - 1];
    assert forall i :: 0 <= i < |init| ==> init[i] == rows[i];
  }

  lemma Reassociate<T>(whole: seq<T>, x: seq<T>, y: seq<T>, tail: seq<T>, full: seq<T>)
    requires whole == (x + y) + tail && full == y + tail
    ensures whole == x + full
  {
  }

  lemma FitsAppend(a: seq<seq<string>>, b: seq<seq<string>>, sel: Selection)
    requires Fits(a, sel) && Fits(b, sel)
    ensures Fits(a + b, sel)
  {
    forall i | 0 <= i < |a + b|
      ensures (a + b)[i] == if i < |a| then a[i] else b[i - |a|]
    {
    }
  }


  ghost predicate Rectangular(columns: seq<string>, rows: seq<seq<string>>) {
    forall i :: 0 <= i < |rows| ==> |rows[i]| == |columns|
  }

  /** The table `_normalize_columns` returns for a header and its data rows. */
  function Normalized(columns: seq<string>, rows: seq<seq<string>>, parsers: Parsers): Result<seq<Transaction>>
    requires Rectangular(columns, rows)
  {
    match Select(columns)
    case Err(e) => Err(e)
    case Ok(sel) => Ok(Coerce(rows, sel, parsers))
  }

  method NormalizeColumns(columns: seq<string>, rows: seq<seq<string>>, parsers: Parsers)
    returns (r: Result<seq<Transaction>>)
    requires Rectangular(columns, rows)
    ensures r == Normalized(columns, rows, parsers)
  {
    var detected := DetectColumns(columns);
    var names := RenameColumns(columns, detected);
    var sel := SelectFrom(names);
    if sel.Err? {
      return Err(sel.error);
    }
    return Ok(Coerce(rows, sel.value, parsers));
  }

  /** The `detected` map: for every target, the positions of the columns
      classified as it, left to right. */
  method DetectColumns(columns: seq<string>) returns (detected: map<Target, seq<nat>>)
    ensures forall t: Target :: t in detected && detected[t] == Matching(columns, t)
  {
    detected := map[DateColumn := [], DescriptionColumn := [], AmountColumn := [], CategoryColumn := []];
    assert columns[..0] == [];
    forall t: Target
      ensures t in detected && detected[t] == Matching(columns[..0], t)
    {
      match t
      case DateColumn =>
      case DescriptionColumn =>
      case AmountColumn =>
      case CategoryColumn =>
    }
    for j := 0 to |columns|
      invariant forall t: Target :: t in detected && detected[t] == Matching(columns[..j], t)
    {
      forall t: Target
        ensures Matching(columns[..j + 1], t) ==
          Matching(columns[..j], t) + (if Classify(columns[j]) == Some(t) then [j] else [])
      {
        MatchingStep(columns, j, t);
      }
      match Classify(columns[j])
      case Some(t) =>
        detected := detected[t := detected[t] + [j]];
      case None =>
    }
    assert columns[..|columns|] == columns;
  }

  /** The rename: the first column detected for a target takes the
      target's name, every other column keeps its own. */
  method RenameColumns(columns: seq<string>, detected: map<Target, seq<nat>>) returns (names: seq<string>)
    requires forall t: Target :: t in detected && detected[t] == Matching(columns, t)
    ensures names == Renamed(columns)
  {
    names := seq(|columns|, j requires 0 <= j < |columns| =>
      match Classify(columns[j])
      case None => columns[j]
      case Some(t) => if detected[t] != [] && detected[t][0] == j then TargetName(t) else columns[j]);
    forall j | 0 <= j < |columns|
      ensures names[j] == RenamedColumn(columns, j)
    {
      match Classify(columns[j])
      case None =>
      case Some(t) => FirstMatchIsHeadOfMatching(columns, t);
    }
  }

  /** A raw column that already carries a schema name would clash with a
      renamed one; bank exports use the language-specific headers. */
  ghost predicate NoSchemaNames(columns: seq<string>) {
    forall j :: 0 <= j < |columns| ==>
      columns[j] != "date" && columns[j] != "description" &&
      columns[j] != "amount" && columns[j] != "category"
  }

  /** With no raw schema names, a schema name after the rename marks
      exactly the first column detected for its target. */
  lemma RenamedFindsFirstMatch(columns: seq<string>, t: Target)
    requires NoSchemaNames(columns)
    ensures forall j :: 0 <= j < |columns| ==>
      (Renamed(columns)[j] == TargetName(t) <==> FirstMatch(columns, t) == Some(j))
    ensures IndexOf(Renamed(columns), TargetName(t)) == FirstMatch(columns, t)
  {
    var names := Renamed(columns);
    forall j | 0 <= j < |columns|
      ensures names[j] == TargetName(t) <==> FirstMatch(columns, t) == Some(j)
    {
      RenamedMarksFirstMatch(columns, t, j);
    }
  }

  lemma RenamedMarksFirstMatch(columns: seq<string>, t: Target, j: nat)
    requires NoSchemaNames(columns) && j < |columns|
    ensures RenamedColumn(columns, j) == TargetName(t) <==> FirstMatch(columns, t) == Some(j)
  {
    match Classify(columns[j])
    case None =>
    case Some(u) =>
      if FirstMatch(columns, u) == Some(j) && u != t {
        assert TargetName(u) != TargetName(t);
      }
  }

  /** The first column detected for a target always carries the target's
      name after the rename. */
  lemma FirstMatchRenamed(columns: seq<string>, t: Target)
    requires FirstMatch(columns, t).Some?
    ensures Renamed(columns)[FirstMatch(columns, t).value] == TargetName(t)
  {
  }

  /** Whatever the header, an accepted selection reads every field from the
      first column detected for it, when one is detected. */
  lemma SelectPrefersDetectedColumns(columns: seq<string>)
    ensures Select(columns).Ok? ==>
      (FirstMatch(columns, DateColumn).Some? ==> Some(Select(columns).value.date) == FirstMatch(columns, DateColumn)) &&
      (FirstMatch(columns, DescriptionColumn).Some? ==> Some(Select(columns).value.description) == FirstMatch(columns, DescriptionColumn)) &&
      (FirstMatch(columns, AmountColumn).Some? ==> Some(Select(columns).value.amount) == FirstMatch(columns, AmountColumn)) &&
      (FirstMatch(columns, CategoryColumn).Some? ==> Select(columns).value.category == FirstMatch(columns, CategoryColumn))
  {
    var names := Renamed(columns);
    if Select(columns).Ok? {
      var sel := Select(columns).value;
      if FirstMatch(columns, DateColumn).Some? {
        FirstMatchRenamed(columns, DateColumn);
        KeptOnce(names, "date", sel.date, FirstMatch(columns, DateColumn).value);
      }
      if FirstMatch(columns, DescriptionColumn).Some? {
        FirstMatchRenamed(columns, DescriptionColumn);
        KeptOnce(names, "description", sel.description, FirstMatch(columns, DescriptionColumn).value);
      }
      if FirstMatch(columns, AmountColumn).Some? {
        FirstMatchRenamed(columns, AmountColumn);
        KeptOnce(names, "amount", sel.amount, FirstMatch(columns, AmountColumn).value);
      }
      if FirstMatch(columns, CategoryColumn).Some? {
        FirstMatchRenamed(columns, CategoryColumn);
        KeptOnce(names, "category", sel.category.value, FirstMatch(columns, CategoryColumn).value);
      }
    }
  }

  lemma KeptOnce(names: seq<string>, x: string, i: nat, j: nat)
    requires AtMostOnce(names, x)
    requires i < |names| && j < |names| && names[i] == x && names[j] == x
    ensures i == j
  {
  }

  /** With no raw schema names, a target's name is carried by its first
      detected column alone, and by some column exactly when one is
      detected. */
  lemma SchemaNameOnce(columns: seq<string>, t: Target)
    requires NoSchemaNames(columns)
    ensures AtMostOnce(Renamed(columns), TargetName(t))
    ensures TargetName(t) in Renamed(columns) <==> FirstMatch(columns, t).Some?
  {
    RenamedFindsFirstMatch(columns, t);
    var names := Renamed(columns);
    if FirstMatch(columns, t).Some? {
      assert names[FirstMatch(columns, t).value] == TargetName(t);
    }
  }

  /** The schema guarantee of the loader on a bank header: the statement is
      accepted exactly when a date, a description and an amount column are
      detected; each field is then read from the FIRST column detected for
      it, and the category from the first category column when there is
      one. */
  lemma SelectReadsFirstDetectedColumns(columns: seq<string>)
    requires NoSchemaNames(columns)
    ensures Select(columns).Ok? <==>
      FirstMatch(columns, DateColumn).Some? && FirstMatch(columns, DescriptionColumn).Some? &&
      FirstMatch(columns, AmountColumn).Some?
    ensures Select(columns).Ok? ==>
      Some(Select(columns).value.date) == FirstMatch(columns, DateColumn) &&
      Some(Select(columns).value.description) == FirstMatch(columns, DescriptionColumn) &&
      Some(Select(columns).value.amount) == FirstMatch(columns, AmountColumn) &&
      Select(columns).value.category == FirstMatch(columns, CategoryColumn)
  {
    SchemaNameOnce(columns, DateColumn);
    SchemaNameOnce(columns, DescriptionColumn);
    SchemaNameOnce(columns, AmountColumn);
    SchemaNameOnce(columns, CategoryColumn);
    RenamedFindsFirstMatch(columns, DateColumn);
    RenamedFindsFirstMatch(columns, DescriptionColumn);
    RenamedFindsFirstMatch(columns, AmountColumn);
    RenamedFindsFirstMatch(columns, CategoryColumn);
  }

  /** A raw `amount` header beside a detected amount column leaves two
      columns named `amount`, and the statement is rejected. */
  lemma SecondAmountHeaderRejected()
    ensures Select(["Дата операции", "Описание", "Сумма", "amount"]).Err?
  {
    var columns := ["Дата операции", "Описание", "Сумма", "amount"];
    ClassifyBankHeaders();
    assert FirstMatch(columns, AmountColumn) == Some(2);
    var names := Renamed(columns);
    assert names[2] == "amount" && names[3] == "amount";
  }

  /** How the headers of a typical export are classified. */
  lemma ClassifyBankHeaders()
    ensures Classify("Дата операции") == Some(DateColumn)
    ensures Classify("Описание") == Some(DescriptionColumn)
    ensures Classify("Сумма") == Some(AmountColumn)
    ensures Classify("amount") == Some(AmountColumn)
  {
    ClassifyDateHeader();
    ClassifyDescriptionHeader();
    ClassifySumHeader();
    ClassifyAmountHeader();
  }

  lemma ClassifyDateHeader()
    ensures Classify("Дата операции") == Some(DateColumn)
  {
    var n := Lower("Дата операции");
    assert n[..4] == "дата";
    assert OccursAt(n, "дата", 0);
  }

  lemma ClassifyDescriptionHeader()
    ensures Classify("Описание") == Some(DescriptionColumn)
  {
    var n := Lower("Описание");
    assert n == "описание";
    Lacks(n, "дата");
    assert OccursAt(n, "опис", 0);
  }

  lemma ClassifySumHeader()
    ensures Classify("Сумма") == Some(AmountColumn)
  {
    var n := Lower("Сумма");
    assert n == "сумма";
    Lacks(n, "дата");
    Lacks(n, "опис");
    Lacks(n, "назнач");
    assert OccursAt(n, "сум", 0);
  }

  lemma ClassifyAmountHeader()
    ensures Classify("amount") == Some(AmountColumn)
  {
    var n := Lower("amount");
    assert n == "amount";
    Lacks(n, "дата");
    Lacks(n, "опис");
    Lacks(n, "назнач");
    assert OccursAt(n, "amount", 0);
  }

  /** A fragment whose first letter does not occur in a name is not in it. */
  lemma Lacks(s: string, p: string)
    requires p != [] && p[0] !in s
    ensures !Contains(s, p)
  {
    forall i | 0 <= i <= |s|
      ensures !OccursAt(s, p, i)
    {
      if i + |p| <= |s| {
        assert s[i..i + |p|][0] == s[i];
      }
    }
  }

  /** Without a category column every surviving row is filed under the
      default category. */
  lemma MissingCategoryDefaults(rows: seq<seq<string>>, sel: Selection, parsers: Parsers)
    requires Fits(rows, sel)
    requires sel.category.None?
    ensures forall k :: 0 <= k < |Coerce(rows, sel, parsers)| ==>
      Coerce(rows, sel, parsers)[k].category == DefaultCategory
  {
    var r := Coerce(rows, sel, parsers);
    forall k | 0 <= k < |r|
      ensures r[k].category == DefaultCategory
    {
      var i :| 0 <= i < |rows| && CoerceRow(rows[i], sel, parsers) == Some(r[k]);
    }
  }

  /** The loader's `run`: detect the header among the first 200 rows, take
      that row as column names and the rows below it as data, normalize. */
  method LoadStatement(raw: seq<seq<string>>, parsers: Parsers) returns (r: Result<seq<Transaction>>)
    requires forall i :: 0 <= i < |raw| ==> |raw[i]| == |raw[0]|
    ensures r == Load(raw, parsers)
  {
    var header := FindHeaderRow(raw, RequiredKeywords, MaxScan);
    if header.Err? {
      return Err(header.error);
    }
    var h := header.value;
    r := NormalizeColumns(raw[h], raw[h + 1..], parsers);
  }

  function Load(raw: seq<seq<string>>, parsers: Parsers): Result<seq<Transaction>>
    requires forall i :: 0 <= i < |raw| ==> |raw[i]| == |raw[0]|
  {
    match HeaderRow(raw, RequiredKeywords, MaxScan)
    case Err(e) => Err(e)
    case Ok(h) =>
      HeaderRowIsScanned(raw, RequiredKeywords, MaxScan);
      Normalized(raw[h], raw[h + 1..], parsers)
  }
}
