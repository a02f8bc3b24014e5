/**
 * The recurring-payment detector (`RecurringPaymentDetector`, and its twin
 * `SearchForRegularExpenses`): real expenses are grouped by a merchant key
 * built from the cleaned description and the MCC, groups of fewer than
 * three payments are dropped, and a group is kept when its payments cover
 * at least three months, at least half of the months of their span, and
 * their amounts are stable.
 *
 * The time features, their scaling and the DBSCAN cluster label are
 * computed by the source for diagnosis only and never filter a group; they
 * are not part of this model.
 */
module Recurring {
  import opened Common
  import opened Table

  // ---------------------------------------------------------------------
  // Real expenses (`_filter_real_expenses`)
  // ---------------------------------------------------------------------

  /** A debit that is not a money movement. */
  predicate IsRealExpense(r: Row)
    requires r.labels.Some?
  {
    !IsMoney(r) && r.txn.amount < 0.0
  }

  function RealExpenses(df: seq<Row>): (r: seq<Row>)
    requires Labelled(df)
    ensures Labelled(r) && |r| <= |df|
    ensures forall k :: 0 <= k < |r| ==> IsRealExpense(r[k]) && r[k] in df
    decreases |df|
  {
    if df == [] then []
    else
      var init, last := df[..|df| - 1], df[|df| - 1];
      assert forall i :: 0 <= i < |init| ==> init[i] == df[i];
      RealExpenses(init) + (if IsRealExpense(last) then [last] else [])
  }

  /** No real expense is dropped. */
  lemma {:induction false} RealExpensesComplete(df: seq<Row>)
    requires Labelled(df)
    ensures forall i :: 0 <= i < |df| && IsRealExpense(df[i]) ==> df[i] in RealExpenses(df)
    decreases |df|
  {
    if df != [] {
      var init := df[..|df| - 1];
      RealExpensesComplete(init);
      assert forall i :: 0 <= i < |init| ==> init[i] == df[i];
    }
  }

  /** Filtering commutes with concatenation: the real expenses keep the
      rows' order and each occurrence of a row. */
  lemma {:induction false} RealExpensesAppend(a: seq<Row>, b: seq<Row>)
    requires Labelled(a) && Labelled(b)
    ensures RealExpenses(a + b) == RealExpenses(a) + RealExpenses(b)
    decreases |b|
  {
    if b == [] {
      assert a + b == a;
    } else {
      var ib := b[..|b| - 1];
      RealExpensesAppend(a, ib);
      assert (a + b)[..|a + b| - 1] == a + ib;
    }
  }

  // ---------------------------------------------------------------------
  // Description cleaning (`_normalize_description`)
  // ---------------------------------------------------------------------

  /** The length of the run of characters satisfying `p` that starts `s`. */
  function LeadingRun(s: string, p: char -> bool): (n: nat)
    ensures n <= |s|
    ensures forall i :: 0 <= i < n ==> p(s[i])
    ensures n < |s| ==> !p(s[n])
    decreases |s|
  {
    if s == [] || !p(s[0]) then 0
    else
      var n := LeadingRun(s[1..], p);
      assert forall i :: 1 <= i < n + 1 ==> s[i] == s[1..][i - 1];
      n + 1
  }

  /** The suffix left after the run of leading characters satisfying `p`. */
  function DropWhile(s: string, p: char -> bool): string {
    s[LeadingRun(s, p)..]
  }

  /** The length of the run of characters satisfying `p` that ends `s`. */
  function TrailingRun(s: string, p: char -> bool): (n: nat)
    ensures n <= |s|
    ensures forall i :: |s| - n <= i < |s| ==> p(s[i])
    ensures n < |s| ==> !p(s[|s| - n - 1])
    decreases |s|
  {
    if s == [] || !p(s[|s| - 1]) then 0
    else TrailingRun(s[..|s| - 1], p) + 1
  }

  /** `s` without the characters satisfying `p`; the others keep their
      order. */
  function Erase(s: string, p: char -> bool): (r: string)
    ensures |r| <= |s|
    ensures forall i :: 0 <= i < |r| ==> !p(r[i])
    decreases |s|
  {
    if s == [] then []
    else (if p(s[0]) then [] else [s[0]]) + Erase(s[1..], p)
  }

  predicate IsSpace(c: char) {
    c == ' '
  }

  /** `re.sub(pattern, " ", s)` for a pattern matching the maximal runs of
      characters satisfying `p`: every such run becomes one space, every
      other character stays where it is. */
  function ReplaceRuns(s: string, p: char -> bool): (r: string)
    ensures r == [] <==> s == []
    ensures r != [] ==> r[0] == if p(s[0]) then ' ' else s[0]
    decreases |s|
  {
    if s == [] then []
    else if p(s[0]) then " " + ReplaceRuns(DropWhile(s, p), p)
    else [s[0]] + ReplaceRuns(s[1..], p)
  }

  /** Replacing runs brings in no character but the space. */
  lemma {:induction false} ReplaceRunsDrawsFrom(s: string, p: char -> bool)
    ensures var r := ReplaceRuns(s, p);
      forall i :: 0 <= i < |r| ==> r[i] == ' ' || (r[i] in s && !p(r[i]))
    decreases |s|
  {
    if s != [] {
      var rest := if p(s[0]) then DropWhile(s, p) else s[1..];
      ReplaceRunsDrawsFrom(rest, p);
      var r := ReplaceRuns(s, p);
      forall i | 0 < i < |r|
        ensures r[i] == ' ' || (r[i] in s && !p(r[i]))
      {
        assert r[i] == ReplaceRuns(rest, p)[i - 1];
        assert forall c :: c in rest ==> c in s;
      }
    }
  }

  lemma EraseCons(c: char, s: string, p: char -> bool)
    ensures Erase([c] + s, p) == (if p(c) then [] else [c]) + Erase(s, p)
  {
    assert ([c] + s)[1..] == s;
  }

  /** Erasing a leading run of `p`-characters. */
  lemma {:induction false} EraseSkipsRun(s: string, k: nat, p: char -> bool)
    requires k <= |s| && forall i :: 0 <= i < k ==> p(s[i])
    ensures Erase(s, p) == Erase(s[k..], p)
    decreases k
  {
    if k > 0 {
      EraseSkipsRun(s[1..], k - 1, p);
      assert s[1..][k - 1..] == s[k..];
    }
  }

  /** Erasing characters `s` does not hold changes nothing. */
  lemma {:induction false} EraseNothing(s: string, p: char -> bool)
    requires forall i :: 0 <= i < |s| ==> !p(s[i])
    ensures Erase(s, p) == s
    decreases |s|
  {
    if s != [] {
      EraseNothing(s[1..], p);
    }
  }

  /** Two tests that agree on the characters of `s` erase the same ones. */
  lemma {:induction false} EraseAgreeing(s: string, p: char -> bool, q: char -> bool)
    requires forall i :: 0 <= i < |s| ==> (p(s[i]) <==> q(s[i]))
    ensures Erase(s, p) == Erase(s, q)
    decreases |s|
  {
    if s != [] {
      EraseAgreeing(s[1..], p, q);
    }
  }

  /** Replacing runs keeps every character that is neither in a run nor a
      space, in order. */
  lemma {:induction false} ReplaceRunsKeepsOthers(s: string, p: char -> bool)
    ensures Erase(ReplaceRuns(s, p), IsSpace) == Erase(Erase(s, p), IsSpace)
    decreases |s|
  {
    if s != [] {
      if p(s[0]) {
        var rest := DropWhile(s, p);
        ReplaceRunsKeepsOthers(rest, p);
        EraseSkipsRun(s, |s| - |rest|, p);
        EraseCons(' ', ReplaceRuns(rest, p), IsSpace);
      } else {
        ReplaceRunsKeepsOthers(s[1..], p);
        EraseCons(s[0], ReplaceRuns(s[1..], p), IsSpace);
        EraseCons(s[0], s[1..], p);
        EraseCons(s[0], Erase(s[1..], p), IsSpace);
        assert [s[0]] + s[1..] == s;
      }
    }
  }

  /** Replacing the runs of whitespace leaves no whitespace but lone
      spaces. */
  lemma {:induction false} ReplaceWhitespaceSingleSpaced(s: string)
    ensures SingleSpaced(ReplaceRuns(s, IsWhitespace))
    decreases |s|
  {
    if s != [] {
      var rest := if IsWhitespace(s[0]) then DropWhile(s, IsWhitespace) else s[1..];
      ReplaceWhitespaceSingleSpaced(rest);
      var x := if IsWhitespace(s[0]) then ' ' else s[0];
      ConsSingleSpaced(x, ReplaceRuns(rest, IsWhitespace));
    }
  }

  /** A text whose only `p`-characters are lone spaces is left alone. */
  lemma {:induction false} ReplaceRunsFixes(s: string, p: char -> bool)
    requires forall i :: 0 <= i < |s| && p(s[i]) ==> s[i] == ' '
    requires forall i :: 0 <= i < |s| - 1 && p(s[i]) ==> !p(s[i + 1])
    ensures ReplaceRuns(s, p) == s
    decreases |s|
  {
    if s != [] {
      if p(s[0]) {
        assert DropWhile(s, p) == s[1..] by {
          if |s| > 1 {
            assert !p(s[1]);
          }
        }
      }
      ReplaceRunsFixes(s[1..], p);
    }
  }

  /** `re.sub(r"\d+", " ", s)`: every maximal run of digits becomes one
      space; every other character stays, in order. */
  function ReplaceDigitRuns(s: string): (r: string)
    ensures forall i :: 0 <= i < |r| ==> r[i] == ' ' || (r[i] in s && !IsDigit(r[i]))
    ensures Erase(r, IsSpace) == Erase(Erase(s, IsDigit), IsSpace)
  {
    ReplaceRunsDrawsFrom(s, IsDigit);
    ReplaceRunsKeepsOthers(s, IsDigit);
    ReplaceRuns(s, IsDigit)
  }

  /** `re.sub(r"[^\w\s]", " ", s)`: every character that is neither a word
      character nor whitespace becomes a space. */
  function ReplaceNonWord(s: string): (r: string)
    ensures |r| == |s|
    ensures forall i :: 0 <= i < |s| ==> r[i] == if IsWordChar(s[i]) || IsWhitespace(s[i]) then s[i] else ' '
  {
    seq(|s|, i requires 0 <= i < |s| => if IsWordChar(s[i]) || IsWhitespace(s[i]) then s[i] else ' ')
  }

  /** No whitespace character other than a lone space. */
  ghost predicate SingleSpaced(s: string) {
    (forall i :: 0 <= i < |s| && IsWhitespace(s[i]) ==> s[i] == ' ') &&
    (forall i :: 0 <= i < |s| - 1 && s[i] == ' ' ==> s[i + 1] != ' ')
  }

  /** `re.sub(r"\s+", " ", s)`: every maximal run of whitespace becomes one
      space; every other character stays, in order. */
  function CollapseWhitespace(s: string): (r: string)
    ensures SingleSpaced(r)
    ensures r != [] ==> s != [] && (r[0] == ' ' <==> IsWhitespace(s[0]))
    ensures r == [] <==> s == []
    ensures forall i :: 0 <= i < |r| ==> r[i] == ' ' || (r[i] in s && !IsWhitespace(r[i]))
    ensures Erase(r, IsWhitespace) == Erase(s, IsWhitespace)
  {
    var r := ReplaceRuns(s, IsWhitespace);
    ReplaceRunsDrawsFrom(s, IsWhitespace);
    ReplaceWhitespaceSingleSpaced(s);
    ReplaceRunsKeepsOthers(s, IsWhitespace);
    EraseAgreeing(r, IsWhitespace, IsSpace);
    EraseNothing(Erase(s, IsWhitespace), IsSpace);
    r
  }

  lemma ConsSingleSpaced(x: char, rest: string)
    requires SingleSpaced(rest) && (IsWhitespace(x) ==> x == ' ')
    requires x == ' ' && rest != [] ==> rest[0] != ' '
    ensures SingleSpaced([x] + rest)
  {
    var r := [x] + rest;
    assert forall i :: 1 <= i < |r| ==> r[i] == rest[i - 1];
  }

  /** `str.strip()`: the whitespace at both ends is removed. */
  function Strip(s: string): (r: string)
    ensures r != [] ==> !IsWhitespace(r[0]) && !IsWhitespace(r[|r| - 1])
    ensures (forall i :: 0 <= i < |s| ==> IsWhitespace(s[i])) ==> r == []
  {
    var left := DropWhile(s, IsWhitespace);
    var n := TrailingRun(left, IsWhitespace);
    left[..|left| - n]
  }

  /** `strip` removes whitespace at both ends and nothing else: the result
      is the slice of the text between a leading and a trailing run of
      whitespace. */
  lemma StripCutsOuterWhitespace(s: string)
    ensures var a := |s| - |DropWhile(s, IsWhitespace)|;
      var b := a + |Strip(s)|;
      b <= |s| && Strip(s) == s[a..b] &&
      (forall i :: 0 <= i < a ==> IsWhitespace(s[i])) &&
      (forall i :: b <= i < |s| ==> IsWhitespace(s[i]))
  {
    var left := DropWhile(s, IsWhitespace);
    var n := TrailingRun(left, IsWhitespace);
    RunAtEnd(s, IsWhitespace, |s| - |left|, n);
    PrefixOfSuffix(s, |s| - |left|, |left| - n);
  }

  /** A run at the end of a suffix is a run at the end of the text. */
  lemma RunAtEnd(s: string, p: char -> bool, a: nat, n: nat)
    requires a <= |s| && n <= |s| - a
    requires forall i :: |s| - a - n <= i < |s| - a ==> p(s[a..][i])
    ensures forall i :: |s| - n <= i < |s| ==> p(s[i])
  {
    forall i | |s| - n <= i < |s|
      ensures p(s[i])
    {
      assert s[i] == s[a..][i - a];
    }
  }

  lemma PrefixOfSuffix(s: string, a: nat, k: nat)
    requires a + k <= |s|
    ensures s[a..][..k] == s[a..a + k]
  {
  }

  /** A character a cleaned description may hold besides the space. */
  predicate CleanChar(c: char) {
    IsWordChar(c) && !IsDigit(c) && LowerChar(c) == c
  }

  /** A cleaned description: lower-case letters, the underscore, and single
      spaces between words, without digits and without a leading or
      trailing space. */
  ghost predicate IsNormal(s: string) {
    (forall i :: 0 <= i < |s| ==> s[i] == ' ' || CleanChar(s[i])) &&
    SingleSpaced(s) &&
    (s != [] ==> s[0] != ' ' && s[|s| - 1] != ' ')
  }

  /** `_normalize_description`: lower-case, digit runs to a space, other
      non-word characters to a space, whitespace runs to one space, trim. */
  function NormalizeDescription(text: string): (r: string)
    ensures IsNormal(r)
  {
    var collapsed := CollapseWhitespace(ReplaceNonWord(ReplaceDigitRuns(Lower(text))));
    CleaningSteps(text);
    StripKeepsSingleSpaced(collapsed);
    Strip(collapsed)
  }

  /** After the first four steps only spaces and clean characters remain,
      singly spaced. */
  lemma CleaningSteps(text: string)
    ensures var c := CollapseWhitespace(ReplaceNonWord(ReplaceDigitRuns(Lower(text))));
      SingleSpaced(c) && forall i :: 0 <= i < |c| ==> c[i] == ' ' || (CleanChar(c[i]) && !IsWhitespace(c[i]))
  {
    var lowered := Lower(text);
    forall i | 0 <= i < |lowered|
      ensures LowerChar(lowered[i]) == lowered[i]
    {
      LowerCharIdempotent(text[i]);
    }
    var noDigits := ReplaceDigitRuns(lowered);
    assert forall i :: 0 <= i < |noDigits| ==>
      noDigits[i] == ' ' || (LowerChar(noDigits[i]) == noDigits[i] && !IsDigit(noDigits[i]));
    var wordsOnly := ReplaceNonWord(noDigits);
    assert forall i :: 0 <= i < |wordsOnly| ==> IsWhitespace(wordsOnly[i]) || CleanChar(wordsOnly[i]);
    CollapseKeeps(wordsOnly, CleanChar);
  }

  /** Collapsing whitespace brings in no other character than the space:
      every other character it keeps satisfies what all non-whitespace
      characters of `s` satisfy. */
  lemma CollapseKeeps(s: string, p: char -> bool)
    requires forall i :: 0 <= i < |s| ==> IsWhitespace(s[i]) || p(s[i])
    ensures forall i :: 0 <= i < |CollapseWhitespace(s)| ==>
      CollapseWhitespace(s)[i] == ' ' || p(CollapseWhitespace(s)[i])
  {
    var r := CollapseWhitespace(s);
    forall i | 0 <= i < |r| && r[i] != ' '
      ensures p(r[i])
    {
      var j :| 0 <= j < |s| && s[j] == r[i];
    }
  }

  lemma StripKeepsSingleSpaced(s: string)
    requires SingleSpaced(s)
    requires forall i :: 0 <= i < |s| ==> s[i] == ' ' || CleanChar(s[i])
    ensures IsNormal(Strip(s))
  {
    var r := Strip(s);
    var a := |s| - |DropWhile(s, IsWhitespace)|;
    StripCutsOuterWhitespace(s);
    TrimmedSliceNormal(s, a, a + |r|, r);
  }

  lemma TrimmedSliceNormal(s: string, a: nat, b: nat, r: string)
    requires a <= b <= |s| && SingleSpaced(s) && r == s[a..b]
    requires forall i :: 0 <= i < |s| ==> s[i] == ' ' || CleanChar(s[i])
    requires r != [] ==> !IsWhitespace(r[0]) && !IsWhitespace(r[|r| - 1])
    ensures IsNormal(r)
  {
    TrimmedSlice(s, a, b, CleanChar);
  }

  /** A slice of a singly spaced text of spaces and `p`-characters that
      neither starts nor ends with a space is such a text too. */
  lemma TrimmedSlice(s: string, a: nat, b: nat, p: char -> bool)
    requires a <= b <= |s| && SingleSpaced(s)
    requires forall i :: 0 <= i < |s| ==> s[i] == ' ' || p(s[i])
    requires s[a..b] != [] ==> s[a..b][0] != ' ' && s[a..b][b - a - 1] != ' '
    ensures SingleSpaced(s[a..b])
    ensures forall i :: 0 <= i < b - a ==> s[a..b][i] == ' ' || p(s[a..b][i])
  {
    SliceKeepsSingleSpaced(s, a, b);
    SliceKeeps(s, a, b, p);
  }

  lemma SliceKeeps(s: string, a: nat, b: nat, p: char -> bool)
    requires a <= b <= |s| && forall i :: 0 <= i < |s| ==> s[i] == ' ' || p(s[i])
    ensures forall i :: 0 <= i < b - a ==> s[a..b][i] == ' ' || p(s[a..b][i])
  {
    forall i | 0 <= i < b - a
      ensures s[a..b][i] == ' ' || p(s[a..b][i])
    {
      assert s[a..b][i] == s[a + i];
    }
  }

  lemma SliceKeepsSingleSpaced(s: string, a: nat, b: nat)
    requires a <= b <= |s| && SingleSpaced(s)
    ensures SingleSpaced(s[a..b])
  {
    var r := s[a..b];
    forall i | 0 <= i < |r| && IsWhitespace(r[i])
      ensures r[i] == ' '
    {
      assert r[i] == s[a + i];
    }
    forall i | 0 <= i < |r| - 1 && r[i] == ' '
      ensures r[i + 1] != ' '
    {
      assert r[i] == s[a + i] && r[i + 1] == s[a + i + 1];
    }
  }


  /** A cleaned description is its own cleaning. */
  lemma NormalizeFixesNormal(s: string)
    requires IsNormal(s)
    ensures NormalizeDescription(s) == s
  {
    NormalKeptByFirstSteps(s);
    ReplaceRunsFixes(s, IsDigit);
    ReplaceRunsFixes(s, IsWhitespace);
    StripOfTrimmed(s);
  }

  /** Lower-casing and replacing non-word characters leave a cleaned
      description alone. */
  lemma NormalKeptByFirstSteps(s: string)
    requires IsNormal(s)
    ensures Lower(s) == s && ReplaceNonWord(s) == s
    ensures forall i :: 0 <= i < |s| ==> !IsDigit(s[i])
    ensures SingleSpaced(s)
  {
    forall i | 0 <= i < |s|
      ensures Lower(s)[i] == s[i] && ReplaceNonWord(s)[i] == s[i]
    {
      assert s[i] == ' ' || CleanChar(s[i]);
    }
  }

  /** `strip` leaves a string without a leading or trailing space alone
      when its only whitespace is the space. */
  lemma StripOfTrimmed(s: string)
    requires SingleSpaced(s) && (s != [] ==> s[0] != ' ' && s[|s| - 1] != ' ')
    ensures Strip(s) == s
  {
    if s != [] {
      assert DropWhile(s, IsWhitespace) == s;
      assert TrailingRun(s, IsWhitespace) == 0;
    }
  }

  // Separators inside a description. Digits, transaction numbers, phones
  // and punctuation must not split one merchant into several keys.

  predicate AllOf(s: string, p: char -> bool) {
    forall i :: 0 <= i < |s| ==> p(s[i])
  }

  lemma {:induction false} DropWhileAppend(s: string, t: string, p: char -> bool)
    requires (s != [] && !p(s[|s| - 1])) || t == [] || !p(t[0])
    ensures DropWhile(s + t, p) == DropWhile(s, p) + t
    decreases |s|
  {
    if s == [] {
      assert s + t == t;
    } else if p(s[0]) {
      assert (s + t)[1..] == s[1..] + t;
      DropWhileAppend(s[1..], t, p);
    }
  }

  /** A leading run of `p`-characters is dropped together with the
      `p`-characters that follow it. */
  lemma {:induction false} DropWhileSkipsRun(m: string, y: string, p: char -> bool)
    requires AllOf(m, p)
    ensures DropWhile(m + y, p) == DropWhile(y, p)
    decreases |m|
  {
    if m == [] {
      assert m + y == y;
    } else {
      assert (m + y)[1..] == m[1..] + y;
      DropWhileSkipsRun(m[1..], y, p);
    }
  }

  /** Replacing runs distributes over a concatenation that does not cut a
      run in two. */
  lemma {:induction false} ReplaceRunsAppend(s: string, t: string, p: char -> bool)
    requires s == [] || !p(s[|s| - 1]) || t == [] || !p(t[0])
    ensures ReplaceRuns(s + t, p) == ReplaceRuns(s, p) + ReplaceRuns(t, p)
    decreases |s|
  {
    if s == [] {
      assert s + t == t;
    } else if p(s[0]) {
      var rest := DropWhile(s, p);
      DropWhileAppend(s, t, p);
      if rest != [] {
        assert rest[|rest| - 1] == s[|s| - 1];
      }
      ReplaceRunsAppend(rest, t, p);
      assert (s + t)[0] == s[0];
      Reassociate(" ", ReplaceRuns(rest, p), ReplaceRuns(t, p));
    } else {
      var tail := s[1..];
      assert (s + t)[1..] == tail + t;
      if |s| > 1 {
        assert tail[|s| - 2] == s[|s| - 1];
      }
      ReplaceRunsAppend(tail, t, p);
      assert (s + t)[0] == s[0];
      Reassociate([s[0]], ReplaceRuns(tail, p), ReplaceRuns(t, p));
    }
  }

  lemma Reassociate(a: string, b: string, c: string)
    ensures a + (b + c) == (a + b) + c
  {
  }

  /** A character outside the runs is kept, and what follows is replaced
      on its own. */
  lemma ReplaceRunsCons(c: char, s: string, p: char -> bool)
    requires !p(c)
    ensures ReplaceRuns([c] + s, p) == [c] + ReplaceRuns(s, p)
  {
    assert ([c] + s)[1..] == s;
  }

  /** A text made only of `p`-characters is replaced by one space, or by
      nothing when it is empty. */
  lemma ReplaceWholeRun(s: string, p: char -> bool)
    requires AllOf(s, p)
    ensures ReplaceRuns(s, p) == if s == [] then [] else " "
  {
    if s != [] {
      assert DropWhile(s, p) == [];
    }
  }

  /** The run of `p`-characters ending `s` becomes at most one space. */
  lemma SplitTrailingRun(s: string, p: char -> bool)
    ensures var k := |s| - TrailingRun(s, p);
      ReplaceRuns(s, p) == ReplaceRuns(s[..k], p) + (if k == |s| then [] else " ")
  {
    var k := |s| - TrailingRun(s, p);
    CutBeforeRun(s, k, [], p);
    ReplaceRunsAppend(s[..k], s[k..], p);
    ReplaceWholeRun(s[k..], p);
  }

  /** The run of `p`-characters starting `s` becomes at most one space. */
  lemma SplitLeadingRun(s: string, p: char -> bool)
    ensures var k := |s| - |DropWhile(s, p)|;
      ReplaceRuns(s, p) == (if k == 0 then [] else " ") + ReplaceRuns(DropWhile(s, p), p)
  {
  }

  /** `x` cut before the run of `p`-characters that ends it, the run
      continued by `u`. */
  lemma CutBeforeRun(x: string, k: nat, u: string, p: char -> bool)
    requires k <= |x| && forall i :: k <= i < |x| ==> p(x[i])
    requires AllOf(u, p)
    ensures x == x[..k] + x[k..] && AllOf(x[k..] + u, p)
    ensures k > 0 ==> x[..k][k - 1] == x[k - 1]
  {
    var m := x[k..] + u;
    forall i | 0 <= i < |m|
      ensures p(m[i])
    {
      if i < |x| - k {
        assert m[i] == x[k + i];
      } else {
        assert m[i] == u[i - (|x| - k)];
      }
    }
  }

  lemma Regroup(x: string, k: nat, u: string, y: string)
    requires k <= |x|
    ensures x + u + y == x[..k] + ((x[k..] + u) + y)
  {
    assert x == x[..k] + x[k..];
  }

  /** A run of `p`-characters, however long, becomes a single space
      together with the `p`-characters on either side of it. */
  lemma ReplaceRunsAbsorb(x: string, u: string, y: string, p: char -> bool)
    requires u != [] && AllOf(u, p)
    ensures ReplaceRuns(x + u + y, p) ==
      ReplaceRuns(x[..|x| - TrailingRun(x, p)], p) + " " + ReplaceRuns(DropWhile(y, p), p)
  {
    AbsorbAt(x, |x| - TrailingRun(x, p), u, y, p);
  }

  /** `ReplaceRunsAbsorb` with the cut point `k` before the trailing run of
      `x` given explicitly. */
  lemma AbsorbAt(x: string, k: nat, u: string, y: string, p: char -> bool)
    requires k <= |x| && forall i :: k <= i < |x| ==> p(x[i])
    requires k > 0 ==> !p(x[k - 1])
    requires u != [] && AllOf(u, p)
    ensures ReplaceRuns(x + u + y, p) == ReplaceRuns(x[..k], p) + " " + ReplaceRuns(DropWhile(y, p), p)
  {
    var a0, m := x[..k], x[k..] + u;
    var rest := m + y;
    CutBeforeRun(x, k, u, p);
    Regroup(x, k, u, y);
    assert a0 == [] || !p(a0[|a0| - 1]);
    RunHead(m, y, p);
    ReplaceRunsAppend(a0, rest, p);
    JoinAfterSpace(ReplaceRuns(x + u + y, p), ReplaceRuns(a0, p), ReplaceRuns(rest, p), ReplaceRuns(DropWhile(y, p), p));
  }

  lemma JoinAfterSpace(whole: string, left: string, rest: string, tail: string)
    requires whole == left + rest && rest == " " + tail
    ensures whole == left + " " + tail
  {
  }

  /** A text opening with a non-empty run of `p`-characters is replaced by
      one space and the replacement of what follows the run. */
  lemma RunHead(m: string, y: string, p: char -> bool)
    requires m != [] && AllOf(m, p)
    ensures ReplaceRuns(m + y, p) == " " + ReplaceRuns(DropWhile(y, p), p)
  {
    DropWhileSkipsRun(m, y, p);
    assert (m + y)[0] == m[0];
  }

  /** A run of whitespace of any length collapses like a single space. */
  lemma CollapseAbsorbs(x: string, u: string, y: string)
    requires u != [] && AllOf(u, IsWhitespace)
    ensures CollapseWhitespace(x + u + y) == CollapseWhitespace(x + " " + y)
  {
    ReplaceRunsAbsorb(x, u, y, IsWhitespace);
    ReplaceRunsAbsorb(x, " ", y, IsWhitespace);
    CollapseIsReplaceRuns(x + u + y);
    CollapseIsReplaceRuns(x + " " + y);
  }

  lemma CollapseIsReplaceRuns(s: string)
    ensures CollapseWhitespace(s) == ReplaceRuns(s, IsWhitespace)
  {
  }

  lemma LowerAround(a: string, m: string, b: string)
    ensures Lower(a + m + b) == Lower(a) + Lower(m) + Lower(b)
  {
    var s := a + m + b;
    forall i | 0 <= i < |s|
      ensures Lower(s)[i] == (Lower(a) + Lower(m) + Lower(b))[i]
    {
      if i < |a| {
      } else if i < |a| + |m| {
        assert s[i] == m[i - |a|];
      } else {
        assert s[i] == b[i - |a| - |m|];
      }
    }
  }

  lemma ReplaceNonWordAround(a: string, m: string, b: string)
    ensures ReplaceNonWord(a + m + b) == ReplaceNonWord(a) + ReplaceNonWord(m) + ReplaceNonWord(b)
  {
    var s := a + m + b;
    forall i | 0 <= i < |s|
      ensures ReplaceNonWord(s)[i] == (ReplaceNonWord(a) + ReplaceNonWord(m) + ReplaceNonWord(b))[i]
    {
      if i < |a| {
      } else if i < |a| + |m| {
        assert s[i] == m[i - |a|];
      } else {
        assert s[i] == b[i - |a| - |m|];
      }
    }
  }

  /** The digit step on a text with a space in it: the digits next to the
      space become spaces beside it. */
  lemma DigitStepAroundSpace(a: string, b: string) returns (gap: string)
    ensures ReplaceRuns(a + " " + b, IsDigit) ==
      ReplaceRuns(a[..|a| - TrailingRun(a, IsDigit)], IsDigit) + gap + ReplaceRuns(DropWhile(b, IsDigit), IsDigit)
    ensures gap != [] && AllOf(gap, IsSpace)
  {
    var k := |a| - TrailingRun(a, IsDigit);
    var j := |b| - |DropWhile(b, IsDigit)|;
    var left: string := if k == |a| then [] else " ";
    var right: string := if j == 0 then [] else " ";
    SpaceSplitsRuns(a, b, IsDigit);
    SplitTrailingRun(a, IsDigit);
    SplitLeadingRun(b, IsDigit);
    gap := left + " " + right;
    AssembleGap(ReplaceRuns(a + " " + b, IsDigit), ReplaceRuns(a, IsDigit), ReplaceRuns(b, IsDigit),
      ReplaceRuns(a[..k], IsDigit), left, right, ReplaceRuns(DropWhile(b, IsDigit), IsDigit));
  }

  /** A space outside the runs separates the replacements on either side. */
  lemma SpaceSplitsRuns(a: string, b: string, p: char -> bool)
    requires !p(' ')
    ensures ReplaceRuns(a + " " + b, p) == ReplaceRuns(a, p) + " " + ReplaceRuns(b, p)
  {
    assert a + " " + b == a + ([' '] + b);
    ReplaceRunsAppend(a, [' '] + b, p);
    ReplaceRunsCons(' ', b, p);
  }

  lemma AssembleGap(whole: string, ra: string, rb: string, ra0: string, left: string, right: string, rb1: string)
    requires whole == ra + " " + rb && ra == ra0 + left && rb == right + rb1
    requires left == [] || left == " "
    requires right == [] || right == " "
    ensures whole == ra0 + (left + " " + right) + rb1
    ensures AllOf(left + " " + right, IsSpace)
  {
    assert (ra0 + left) + " " + (right + rb1) == ra0 + (left + " " + right) + rb1;
  }

  /** After the digit step, the rest of the cleaning reads a gap of spaces
      like a single one. */
  lemma CleanAroundGap(x: string, gap: string, y: string)
    requires gap != [] && AllOf(gap, IsSpace)
    ensures CollapseWhitespace(ReplaceNonWord(x + gap + y)) == CollapseWhitespace(ReplaceNonWord(x + " " + y))
  {
    ReplaceNonWordAround(x, gap, y);
    ReplaceNonWordAround(x, " ", y);
    assert ReplaceNonWord(gap) == gap;
    assert ReplaceNonWord(" ") == " ";
    assert AllOf(gap, IsWhitespace);
    CollapseAbsorbs(ReplaceNonWord(x), gap, ReplaceNonWord(y));
  }

  /** Digits never split a merchant: a number inside a description (a
      transaction number, a phone) reads as one separator, whatever its
      length and whatever digits surround it. */
  lemma NormalizeIgnoresDigitRuns(a: string, d: string, b: string)
    requires d != [] && AllOf(d, IsDigit)
    ensures NormalizeDescription(a + d + b) == NormalizeDescription(a + " " + b)
  {
    LowerAround(a, d, b);
    LowerAround(a, " ", b);
    assert Lower(d) == d;
    assert Lower(" ") == " ";
    var la, lb := Lower(a), Lower(b);
    var a0 := la[..|la| - TrailingRun(la, IsDigit)];
    var b1 := DropWhile(lb, IsDigit);
    ReplaceRunsAbsorb(la, d, lb, IsDigit);
    var gap := DigitStepAroundSpace(la, lb);
    CleanAroundGap(ReplaceRuns(a0, IsDigit), gap, ReplaceRuns(b1, IsDigit));
  }

  /** Punctuation never splits a merchant either: a character that is
      neither a word character nor whitespace reads as a space. */
  lemma NormalizeIgnoresPunctuation(a: string, c: char, b: string)
    requires !IsWordChar(c) && !IsWhitespace(c)
    ensures NormalizeDescription(a + [c] + b) == NormalizeDescription(a + " " + b)
  {
    LowerAround(a, [c], b);
    LowerAround(a, " ", b);
    var la, lb := Lower(a), Lower(b);
    var lc := LowerChar(c);
    assert Lower([c]) == [lc];
    assert Lower(" ") == " ";
    var ra, rb := ReplaceRuns(la, IsDigit), ReplaceRuns(lb, IsDigit);
    DigitStepAroundChar(la, lc, lb);
    DigitStepAroundChar(la, ' ', lb);
    ReplaceNonWordAround(ra, [lc], rb);
    ReplaceNonWordAround(ra, " ", rb);
    assert ReplaceNonWord([lc]) == " " == ReplaceNonWord(" ");
  }

  /** A character outside the runs stays between the replaced texts on
      either side of it. */
  lemma DigitStepAroundChar(a: string, c: char, b: string)
    requires !IsDigit(c)
    ensures ReplaceDigitRuns(a + [c] + b) == ReplaceRuns(a, IsDigit) + [c] + ReplaceRuns(b, IsDigit)
  {
    assert a + [c] + b == a + ([c] + b);
    ReplaceRunsAppend(a, [c] + b, IsDigit);
    ReplaceRunsCons(c, b, IsDigit);
  }

  /** Cleaning twice is cleaning once. */
  lemma NormalizeIdempotent(text: string)
    ensures NormalizeDescription(NormalizeDescription(text)) == NormalizeDescription(text)
  {
    NormalizeFixesNormal(NormalizeDescription(text));
  }

  // ---------------------------------------------------------------------
  // Merchant key (`_build_merchant_id`)
  // ---------------------------------------------------------------------

  /** The MCC as text, or nothing when it is missing. */
  function MccText(mcc: Option<int>, show: int -> string): string {
    if mcc.Some? then show(mcc.value) else ""
  }

  function MerchantId(t: Transaction, show: int -> string): string {
    NormalizeDescription(t.description) + ['|'] + MccText(t.mcc, show)
  }

  /** Two transactions share a merchant key exactly when their cleaned
      descriptions and their MCC texts agree: the separator cannot occur in
      a cleaned description. */
  lemma MerchantIdSeparates(t: Transaction, u: Transaction, show: int -> string)
    ensures MerchantId(t, show) == MerchantId(u, show) <==>
      NormalizeDescription(t.description) == NormalizeDescription(u.description) &&
      MccText(t.mcc, show) == MccText(u.mcc, show)
  {
    var a, b := NormalizeDescription(t.description), NormalizeDescription(u.description);
    CleanedHasNoSeparator(t.description);
    CleanedHasNoSeparator(u.description);
    SplitAtSeparator(a, b, MccText(t.mcc, show), MccText(u.mcc, show), '|');
  }

  lemma CleanedHasNoSeparator(text: string)
    ensures forall i :: 0 <= i < |NormalizeDescription(text)| ==> NormalizeDescription(text)[i] != '|'
  {
    assert !CleanChar('|');
    Avoids(NormalizeDescription(text), CleanChar, '|');
  }

  /** A text of spaces and characters satisfying `p` holds no other
      character. */
  lemma Avoids(s: string, p: char -> bool, c: char)
    requires forall i :: 0 <= i < |s| ==> s[i] == ' ' || p(s[i])
    requires c != ' ' && !p(c)
    ensures forall i :: 0 <= i < |s| ==> s[i] != c
  {
  }

  /** Joining two texts with a separator that the first cannot hold can be
      undone. */
  lemma SplitAtSeparator(a: string, b: string, c: string, d: string, sep: char)
    requires forall i :: 0 <= i < |a| ==> a[i] != sep
    requires forall i :: 0 <= i < |b| ==> b[i] != sep
    ensures a + [sep] + c == b + [sep] + d <==> a == b && c == d
  {
    var x, y := a + [sep] + c, b + [sep] + d;
    if x == y {
      assert x[|a|] == sep && y[|b|] == sep;
      assert forall i :: 0 <= i < |a| ==> x[i] != sep;
      assert forall i :: 0 <= i < |b| ==> y[i] != sep;
      assert |a| == |b|;
      assert a == x[..|a|] && b == y[..|b|];
      assert c == x[|a| + 1..] && d == y[|b| + 1..];
    }
  }

  // ---------------------------------------------------------------------
  // Grouping by merchant
  // ---------------------------------------------------------------------

  /** One row of the aggregated table. */
  datatype Group = Group(
    merchantId: string,
    description: string,
    dates: seq<Date>,
    amounts: seq<real>,
    count: nat,
    total: real)

  /** How the twins differ: the bank-statement analyzer cuts the group
      description to 60 characters, the financial-intelligence detector
      keeps it whole. `show` renders an MCC as text. */
  datatype Settings = Settings(show: int -> string, descriptionLimit: Option<nat>)

  const FinancialIntelligenceLimit: Option<nat> := None
  const BankStatementLimit: Option<nat> := Some(60)

  /** The rows of `df` whose key is `key`, in row order. */
  function Members(df: seq<Row>, key: string, keyOf: Transaction -> string): (r: seq<Row>)
    ensures |r| <= |df|
    ensures forall k :: 0 <= k < |r| ==> r[k] in df && keyOf(r[k].txn) == key
    ensures forall i :: 0 <= i < |df| && keyOf(df[i].txn) == key ==> df[i] in r
    decreases |df|
  {
    if df == [] then []
    else
      var init, last := df[..|df| - 1], df[|df| - 1];
      assert forall i :: 0 <= i < |init| ==> init[i] == df[i];
      Members(init, key, keyOf) + (if keyOf(last.txn) == key then [last] else [])
  }

  /** The first member of a group is the first row carrying its key. */
  lemma {:induction false} MembersStartAtFirstOccurrence(df: seq<Row>, key: string, keyOf: Transaction -> string, i: nat)
    requires i < |df| && keyOf(df[i].txn) == key
    requires forall j :: 0 <= j < i ==> keyOf(df[j].txn) != key
    ensures Members(df, key, keyOf) != [] && Members(df, key, keyOf)[0] == df[i]
    decreases |df|
  {
    var init := df[..|df| - 1];
    if i < |df| - 1 {
      MembersStartAtFirstOccurrence(init, key, keyOf, i);
    } else {
      assert forall j :: 0 <= j < |init| ==> keyOf(init[j].txn) != key;
    }
  }

  function Dates(rows: seq<Row>): (r: seq<Date>)
    ensures |r| == |rows| && forall k :: 0 <= k < |rows| ==> r[k] == rows[k].txn.date
  {
    seq(|rows|, k requires 0 <= k < |rows| => rows[k].txn.date)
  }

  function Amounts(rows: seq<Row>): (r: seq<real>)
    ensures |r| == |rows| && forall k :: 0 <= k < |rows| ==> r[k] == rows[k].txn.amount
  {
    seq(|rows|, k requires 0 <= k < |rows| => rows[k].txn.amount)
  }

  /** The aggregate of one merchant: the first payment's description (cut
      to the limit), the dates and amounts in row order, their number and
      their sum. */
  function Aggregate(key: string, rows: seq<Row>, limit: Option<nat>): Group
    requires rows != []
  {
    var description := rows[0].txn.description;
    Group(key, if limit.Some? then Truncate(description, limit.value) else description,
      Dates(rows), Amounts(rows), |rows|, Sum(Amounts(rows)))
  }

  function Keys(df: seq<Row>, keyOf: Transaction -> string): (r: seq<string>)
    ensures |r| == |df| && forall i :: 0 <= i < |df| ==> r[i] == keyOf(df[i].txn)
  {
    seq(|df|, i requires 0 <= i < |df| => keyOf(df[i].txn))
  }

  /** The keys of the groups, in order of first appearance. */
  function GroupKeys(df: seq<Row>, keyOf: Transaction -> string): (keys: seq<string>)
    ensures NoDuplicates(keys)
    ensures forall k :: 0 <= k < |keys| ==> Members(df, keys[k], keyOf) != []
    ensures forall i :: 0 <= i < |df| ==> keyOf(df[i].txn) in keys
  {
    var keys := Distinct(Keys(df, keyOf));
    forall k | 0 <= k < |keys|
      ensures Members(df, keys[k], keyOf) != []
    {
      var i :| 0 <= i < |df| && Keys(df, keyOf)[i] == keys[k];
      assert df[i] in Members(df, keys[k], keyOf);
    }
    forall i | 0 <= i < |df|
      ensures keyOf(df[i].txn) in keys
    {
      assert Keys(df, keyOf)[i] in keys;
    }
    keys
  }

  /** `groupby(key).agg(...)`: one aggregate per key, in order of first
      appearance. */
  function GroupBy(df: seq<Row>, keyOf: Transaction -> string, limit: Option<nat>): (r: seq<Group>)
    ensures |r| == |GroupKeys(df, keyOf)|
    ensures forall k :: 0 <= k < |r| ==>
      r[k] == Aggregate(GroupKeys(df, keyOf)[k], Members(df, GroupKeys(df, keyOf)[k], keyOf), limit)
  {
    var keys := GroupKeys(df, keyOf);
    seq(|keys|, k requires 0 <= k < |keys| => Aggregate(keys[k], Members(df, keys[k], keyOf), limit))
  }

  /** Grouping partitions the rows by key: group keys are pairwise
      different and every row has the group of its key. */
  lemma GroupByPartitions(df: seq<Row>, keyOf: Transaction -> string, limit: Option<nat>)
    ensures var r := GroupBy(df, keyOf, limit);
      (forall k, l :: 0 <= k < l < |r| ==> r[k].merchantId != r[l].merchantId) &&
      (forall i :: 0 <= i < |df| ==> exists k :: 0 <= k < |r| && r[k].merchantId == keyOf(df[i].txn))
  {
    var r := GroupBy(df, keyOf, limit);
    var keys := GroupKeys(df, keyOf);
    assert forall k :: 0 <= k < |r| ==> r[k].merchantId == keys[k];
    forall i | 0 <= i < |df|
      ensures exists k :: 0 <= k < |r| && r[k].merchantId == keyOf(df[i].txn)
    {
      var k :| 0 <= k < |keys| && keys[k] == keyOf(df[i].txn);
      assert r[k].merchantId == keyOf(df[i].txn);
    }
  }

  /** Filtering by key commutes with concatenation, so the members keep the
      rows' order and each row with the key appears once per occurrence. */
  lemma {:induction false} MembersAppend(a: seq<Row>, b: seq<Row>, key: string, keyOf: Transaction -> string)
    ensures Members(a + b, key, keyOf) == Members(a, key, keyOf) + Members(b, key, keyOf)
    decreases |b|
  {
    if b == [] {
      assert a + b == a;
    } else {
      var ib := b[..|b| - 1];
      MembersAppend(a, ib, key, keyOf);
      assert (a + b)[..|a + b| - 1] == a + ib;
    }
  }

  /** The number of rows in the groups of `keys`. */
  function MemberCount(df: seq<Row>, keys: seq<string>, keyOf: Transaction -> string): nat
    decreases |keys|
  {
    if keys == [] then 0
    else MemberCount(df, keys[..|keys| - 1], keyOf) + |Members(df, keys[|keys| - 1], keyOf)|
  }

  /** The sum of the amounts in the groups of `keys`. */
  function MemberTotal(df: seq<Row>, keys: seq<string>, keyOf: Transaction -> string): real
    decreases |keys|
  {
    if keys == [] then 0.0
    else MemberTotal(df, keys[..|keys| - 1], keyOf) + Sum(Amounts(Members(df, keys[|keys| - 1], keyOf)))
  }

  lemma {:induction false} MemberCountOfNoRows(keys: seq<string>, keyOf: Transaction -> string)
    ensures MemberCount([], keys, keyOf) == 0 && MemberTotal([], keys, keyOf) == 0.0
    decreases |keys|
  {
    if keys != [] {
      MemberCountOfNoRows(keys[..|keys| - 1], keyOf);
    }
  }

  /** One more row adds itself to the group of its key, and to no other. */
  lemma {:induction false} MemberCountStep(df: seq<Row>, keys: seq<string>, keyOf: Transaction -> string)
    requires df != [] && NoDuplicates(keys)
    ensures var init, last := df[..|df| - 1], df[|df| - 1];
      MemberCount(df, keys, keyOf) == MemberCount(init, keys, keyOf) + (if keyOf(last.txn) in keys then 1 else 0) &&
      MemberTotal(df, keys, keyOf) == MemberTotal(init, keys, keyOf) + (if keyOf(last.txn) in keys then last.txn.amount else 0.0)
    decreases |keys|
  {
    if keys != [] {
      var init, last := df[..|df| - 1], df[|df| - 1];
      var front, k := keys[..|keys| - 1], keys[|keys| - 1];
      MemberCountStep(df, front, keyOf);
      var before := Members(init, k, keyOf);
      if keyOf(last.txn) == k {
        assert Members(df, k, keyOf) == before + [last];
        assert Amounts(before + [last]) == Amounts(before) + [last.txn.amount];
        SumAppend(Amounts(before), last.txn.amount);
        assert k !in front;
      } else {
        assert Members(df, k, keyOf) == before;
      }
      assert keyOf(last.txn) in keys <==> keyOf(last.txn) in front || keyOf(last.txn) == k;
    }
  }

  /** Groups over pairwise different keys that cover every row count each
      row exactly once. */
  lemma {:induction false} MemberCountCoversRows(df: seq<Row>, keys: seq<string>, keyOf: Transaction -> string)
    requires NoDuplicates(keys)
    requires forall i :: 0 <= i < |df| ==> keyOf(df[i].txn) in keys
    ensures MemberCount(df, keys, keyOf) == |df|
    ensures MemberTotal(df, keys, keyOf) == Sum(Amounts(df))
    decreases |df|
  {
    if df == [] {
      MemberCountOfNoRows(keys, keyOf);
    } else {
      var init, last := df[..|df| - 1], df[|df| - 1];
      assert forall i :: 0 <= i < |init| ==> init[i] == df[i];
      MemberCountCoversRows(init, keys, keyOf);
      MemberCountStep(df, keys, keyOf);
      assert keyOf(last.txn) in keys;
      AmountsOfLast(df);
    }
  }

  lemma AmountsOfLast(df: seq<Row>)
    requires df != []
    ensures Sum(Amounts(df)) == Sum(Amounts(df[..|df| - 1])) + df[|df| - 1].txn.amount
  {
    var init, x := df[..|df| - 1], df[|df| - 1].txn.amount;
    assert Amounts(df) == Amounts(init) + [x];
    SumAppend(Amounts(init), x);
  }

  /** The sum of the groups' payment counts. */
  function CountSum(groups: seq<Group>): nat
    decreases |groups|
  {
    if groups == [] then 0 else CountSum(groups[..|groups| - 1]) + groups[|groups| - 1].count
  }

  /** The sum of the groups' totals. */
  function TotalSum(groups: seq<Group>): real
    decreases |groups|
  {
    if groups == [] then 0.0 else TotalSum(groups[..|groups| - 1]) + groups[|groups| - 1].total
  }

  /** Groups aggregated from the members of `keys`, one per key. */
  ghost predicate AggregatesOf(groups: seq<Group>, df: seq<Row>, keys: seq<string>, keyOf: Transaction -> string) {
    |groups| == |keys| &&
    forall k :: 0 <= k < |groups| ==>
      groups[k].count == |Members(df, keys[k], keyOf)| && groups[k].total == Sum(Amounts(Members(df, keys[k], keyOf)))
  }

  lemma {:induction false} GroupSumsAreMemberSums(groups: seq<Group>, df: seq<Row>, keys: seq<string>, keyOf: Transaction -> string)
    requires AggregatesOf(groups, df, keys, keyOf)
    ensures CountSum(groups) == MemberCount(df, keys, keyOf)
    ensures TotalSum(groups) == MemberTotal(df, keys, keyOf)
    decreases |groups|
  {
    if groups != [] {
      var n := |groups|;
      GroupSumsAreMemberSums(groups[..n - 1], df, keys[..n - 1], keyOf);
    }
  }

  /** `count` and `total` of the aggregated table account for every row
      once: the counts add up to the number of rows and the totals to the
      sum of their amounts. */
  lemma GroupByCountsEveryRowOnce(df: seq<Row>, keyOf: Transaction -> string, limit: Option<nat>)
    ensures CountSum(GroupBy(df, keyOf, limit)) == |df|
    ensures TotalSum(GroupBy(df, keyOf, limit)) == Sum(Amounts(df))
  {
    var groups, keys := GroupBy(df, keyOf, limit), GroupKeys(df, keyOf);
    assert AggregatesOf(groups, df, keys, keyOf);
    GroupSumsAreMemberSums(groups, df, keys, keyOf);
    MemberCountCoversRows(df, keys, keyOf);
  }

  /** `_build_merchant_id` as the grouping key. */
  function MerchantKey(show: int -> string): Transaction -> string {
    t => MerchantId(t, show)
  }

  // ---------------------------------------------------------------------
  // The recurrence rule (`is_recurring`)
  // ---------------------------------------------------------------------

  function Months(dates: seq<Date>): (r: seq<int>)
    ensures |r| == |dates| && forall k :: 0 <= k < |dates| ==> r[k] == MonthOf(dates[k])
  {
    seq(|dates|, k requires 0 <= k < |dates| => MonthOf(dates[k]))
  }

  function MaxOf(s: seq<int>): (m: int)
    requires s != []
    ensures m in s && forall k :: 0 <= k < |s| ==> s[k] <= m
  {
    if |s| == 1 then s[0]
    else
      var m := MaxOf(s[..|s| - 1]);
      assert s[..|s| - 1] <= s;
      if s[|s| - 1] > m then s[|s| - 1] else m
  }

  function MinOf(s: seq<int>): (m: int)
    requires s != []
    ensures m in s && forall k :: 0 <= k < |s| ==> m <= s[k]
  {
    if |s| == 1 then s[0]
    else
      var m := MinOf(s[..|s| - 1]);
      assert s[..|s| - 1] <= s;
      if s[|s| - 1] < m then s[|s| - 1] else m
  }

  /** `months.nunique()`. */
  function DistinctMonths(dates: seq<Date>): nat {
    |Distinct(Months(dates))|
  }

  /** `(months.max() - months.min()).n + 1`: the months from the first to
      the last payment, both included. */
  function MonthSpan(dates: seq<Date>): (n: int)
    requires dates != []
    ensures n >= 1
  {
    MaxOf(Months(dates)) - MinOf(Months(dates)) + 1
  }

  /** `is_recurring`, with `coverage >= 0.5` stated on integers and the
      stability test `abs(std / mean) < 0.7` stated without a square root
      (see `StabilityWithoutSquareRoot`). */
  predicate IsRecurring(g: Group)
    requires g.dates != [] && g.amounts != []
  {
    DistinctMonths(g.dates) >= 3 &&
    2 * DistinctMonths(g.dates) >= MonthSpan(g.dates) &&
    Variance(g.amounts) < 0.49 * Square(Mean(g.amounts))
  }

  /** The stability test on the standard deviation and on the variance
      agree whenever the mean is not zero; with a zero mean the source
      divides by zero, NumPy gives infinity or NaN, the test fails, and so
      does the variance form. */
  lemma StabilityWithoutSquareRoot(amounts: seq<real>, std: real)
    requires amounts != [] && std >= 0.0 && std * std == Variance(amounts)
    ensures Mean(amounts) != 0.0 ==>
      (Abs(std / Mean(amounts)) < 0.7 <==> Variance(amounts) < 0.49 * Square(Mean(amounts)))
    ensures Mean(amounts) == 0.0 ==> !(Variance(amounts) < 0.49 * Square(Mean(amounts)))
  {
    StabilityOnReals(std, Variance(amounts), Mean(amounts));
  }

  /** The same equivalence for any standard deviation `std`, variance `v`
      and mean `m`. */
  lemma StabilityOnReals(std: real, v: real, m: real)
    requires std >= 0.0 && std * std == v
    ensures m != 0.0 ==> (Abs(std / m) < 0.7 <==> v < 0.49 * Square(m))
    ensures m == 0.0 ==> !(v < 0.49 * Square(m))
  {
    if m != 0.0 {
      var a := Abs(m);
      DivideByAbs(std, m);
      DivideLess(std, a, 0.7);
      SquareMonotone(std, 0.7 * a);
      ScaledAbsSquare(a, m);
    } else {
      assert Square(m) == 0.0;
    }
  }

  lemma DivideByAbs(s: real, m: real)
    requires s >= 0.0 && m != 0.0
    ensures Abs(s / m) == s / Abs(m)
  {
  }

  lemma DivideLess(s: real, a: real, k: real)
    requires a > 0.0
    ensures s / a < k <==> s < k * a
  {
  }

  lemma ScaledAbsSquare(a: real, m: real)
    requires a == Abs(m)
    ensures (0.7 * a) * (0.7 * a) == 0.49 * Square(m)
  {
  }

  lemma SquareMonotone(x: real, y: real)
    requires x >= 0.0 && y >= 0.0
    ensures x < y <==> x * x < y * y
  {
    if x < y {
      SquareStrict(x, y);
    } else if y < x {
      SquareStrict(y, x);
    }
  }

  lemma SquareStrict(x: real, y: real)
    requires 0.0 <= x < y
    ensures x * x < y * y
  {
    MultiplyPositive(y - x, y + x);
    assert (y - x) * (y + x) == y * y - x * x;
  }

  lemma MultiplyPositive(a: real, b: real)
    requires a > 0.0 && b > 0.0
    ensures a * b > 0.0
  {
  }

  // ---------------------------------------------------------------------
  // Detection
  // ---------------------------------------------------------------------

  /** A group with at least three payments. */
  predicate Frequent(g: Group) {
    g.count >= 3 && |g.dates| == g.count && |g.amounts| == g.count
  }

  predicate Recurring(g: Group) {
    Frequent(g) && IsRecurring(g)
  }

  function FrequentGroups(groups: seq<Group>): (r: seq<Group>)
    ensures forall k :: 0 <= k < |r| ==> Frequent(r[k]) && r[k] in groups
    ensures forall g :: g in groups && Frequent(g) ==> g in r
  {
    if groups == [] then []
    else
      var init := groups[..|groups| - 1];
      assert forall g :: g in groups ==> g in init || g == groups[|groups| - 1];
      FrequentGroups(init) + (if Frequent(groups[|groups| - 1]) then [groups[|groups| - 1]] else [])
  }

  function RecurringGroups(groups: seq<Group>): (r: seq<Group>)
    ensures forall k :: 0 <= k < |r| ==> Recurring(r[k]) && r[k] in groups
    ensures forall g :: g in groups && Recurring(g) ==> g in r
  {
    if groups == [] then []
    else
      var init := groups[..|groups| - 1];
      assert forall g :: g in groups ==> g in init || g == groups[|groups| - 1];
      RecurringGroups(init) + (if Recurring(groups[|groups| - 1]) then [groups[|groups| - 1]] else [])
  }

  /** The merchant groups of the real expenses. */
  function ExpenseGroups(df: seq<Row>, settings: Settings): seq<Group>
    requires Labelled(df)
  {
    GroupBy(RealExpenses(df), MerchantKey(settings.show), settings.descriptionLimit)
  }

  /** The merchant groups of the real expenses hold every real expense
      once: their counts add up to the number of real expenses and their
      totals to the sum of those amounts. */
  lemma ExpenseGroupsCountRealExpenses(df: seq<Row>, settings: Settings)
    requires Labelled(df)
    ensures CountSum(ExpenseGroups(df, settings)) == |RealExpenses(df)|
    ensures TotalSum(ExpenseGroups(df, settings)) == Sum(Amounts(RealExpenses(df)))
  {
    GroupByCountsEveryRowOnce(RealExpenses(df), MerchantKey(settings.show), settings.descriptionLimit);
  }

  /** What pandas raises when the merchant key is computed on a table with
      no row: `apply` then returns a copy of the table, and a table cannot
      be stored in the single `merchant_id` column. */
  const NoExpenseError := "ValueError: Cannot set a DataFrame with multiple columns to the single column merchant_id"

  /** No row of the table is a real expense. */
  ghost predicate NoRealExpense(df: seq<Row>)
    requires Labelled(df)
  {
    forall i :: 0 <= i < |df| ==> !IsRealExpense(df[i])
  }

  /** A table without a debit has no real expense. */
  lemma CreditsAreNoExpense(df: seq<Row>)
    requires Labelled(df)
    requires forall i :: 0 <= i < |df| ==> df[i].txn.amount >= 0.0
    ensures NoRealExpense(df)
  {
  }

  /** `_detect_recurring_payments`: group the real expenses by merchant,
      drop groups of fewer than three payments, keep the recurring ones.
      Without a real expense the merchant-key step fails before the
      grouping, so the later early return on no frequent group is never
      reached for such a table. */
  function DetectRecurringPayments(df: seq<Row>, settings: Settings): (r: Result<seq<Group>>)
    requires Labelled(df)
    ensures r.Err? <==> NoRealExpense(df)
    ensures r.Err? ==> r.error == NoExpenseError
  {
    RealExpensesComplete(df);
    if RealExpenses(df) == [] then Err(NoExpenseError)
    else Ok(RecurringGroups(FrequentGroups(ExpenseGroups(df, settings))))
  }

  /** Every group is made of real expenses, so its total is negative. */
  lemma ExpenseGroupTotalsNegative(df: seq<Row>, settings: Settings)
    requires Labelled(df)
    ensures forall g :: g in ExpenseGroups(df, settings) ==> g.total < 0.0
  {
    var expenses := RealExpenses(df);
    var keyOf := MerchantKey(settings.show);
    var groups := ExpenseGroups(df, settings);
    forall g | g in groups
      ensures g.total < 0.0
    {
      var k :| 0 <= k < |groups| && groups[k] == g;
      var rows := Members(expenses, GroupKeys(expenses, keyOf)[k], keyOf);
      assert g == Aggregate(GroupKeys(expenses, keyOf)[k], rows, settings.descriptionLimit);
      forall i | 0 <= i < |rows|
        ensures Amounts(rows)[i] < 0.0
      {
        assert rows[i] in expenses;
      }
      SumOfNegatives(Amounts(rows));
    }
  }

  /** What the detector returns is exactly the recurring groups: every
      returned group has at least three payments in at least three distinct
      months, covers at least half of its month span, and has a negative
      total; every recurring merchant group of the expenses is returned. */
  lemma DetectedGroupsAreRecurring(df: seq<Row>, settings: Settings)
    requires Labelled(df)
    ensures DetectRecurringPayments(df, settings).Ok? ==>
      forall g :: g in DetectRecurringPayments(df, settings).value ==>
        g in ExpenseGroups(df, settings) &&
        g.count >= 3 && DistinctMonths(g.dates) >= 3 &&
        2 * DistinctMonths(g.dates) >= MonthSpan(g.dates) && g.total < 0.0
    ensures DetectRecurringPayments(df, settings).Ok? ==>
      forall g :: g in ExpenseGroups(df, settings) && Recurring(g) ==>
        g in DetectRecurringPayments(df, settings).value
  {
    ExpenseGroupTotalsNegative(df, settings);
  }

  /** The minimal subscription: the same amount paid in three consecutive
      months is recurring. */
  lemma ThreeMonthlyPaymentsRecur(key: string)
    ensures Recurring(Group(key, key, [Date(2024, 1, 5), Date(2024, 2, 5), Date(2024, 3, 5)],
      [-299.0, -299.0, -299.0], 3, -897.0))
  {
    var dates := [Date(2024, 1, 5), Date(2024, 2, 5), Date(2024, 3, 5)];
    assert Months(dates) == [24288, 24289, 24290];
    DistinctOfThree(24288, 24289, 24290);
    assert MonthSpan(dates) == 3;
    EqualAmountsAreStable();
  }

  lemma EqualAmountsAreStable()
    ensures Mean([-299.0, -299.0, -299.0]) == -299.0
    ensures Variance([-299.0, -299.0, -299.0]) == 0.0
    ensures Square(-299.0) == 89401.0
  {
    var amounts := [-299.0, -299.0, -299.0];
    assert amounts[..2] == [-299.0, -299.0] && amounts[..2][..1] == [-299.0] && [-299.0][..0] == [];
    assert Sum([-299.0]) == -299.0;
    assert Sum([-299.0, -299.0]) == -598.0;
    assert Sum(amounts) == -897.0;
    assert SquaredDeviations([-299.0], -299.0) == 0.0;
    assert SquaredDeviations([-299.0, -299.0], -299.0) == 0.0;
    assert SquaredDeviations(amounts, -299.0) == 0.0;
  }

  /** Three payments in January, February and December of one year cover
      three months of a twelve-month span: not recurring. */
  lemma SparsePaymentsDoNotRecur(key: string, amount: real)
    requires amount < 0.0
    ensures !Recurring(Group(key, key, [Date(2024, 1, 5), Date(2024, 2, 5), Date(2024, 12, 5)],
      [amount, amount, amount], 3, 3.0 * amount))
  {
    var dates := [Date(2024, 1, 5), Date(2024, 2, 5), Date(2024, 12, 5)];
    var months := Months(dates);
    assert months == [24288, 24289, 24299];
    DistinctOfThree(24288, 24289, 24299);
    SpanOfThree(24288, 24289, 24299);
    assert DistinctMonths(dates) == 3 && MonthSpan(dates) == 12;
  }

  lemma SpanOfThree(x: int, y: int, z: int)
    requires x < y < z
    ensures MaxOf([x, y, z]) == z && MinOf([x, y, z]) == x
  {
    assert [x, y, z][..2] == [x, y];
  }

  lemma DistinctOfThree(x: int, y: int, z: int)
    requires x < y < z
    ensures Distinct([x, y, z]) == [x, y, z]
  {
    assert [x, y, z][..2] == [x, y];
    assert [x, y][..1] == [x];
    assert Distinct([x]) == [x];
    assert Distinct([x, y]) == [x, y];
  }
  // ---------------------------------------------------------------------
  // Independence from the later columns
  // ---------------------------------------------------------------------

  /** Two tables holding the same transactions in the same order. */
  ghost predicate SameTransactions(a: seq<Row>, b: seq<Row>) {
    |a| == |b| && forall i :: 0 <= i < |a| ==> a[i].txn == b[i].txn
  }

  lemma {:induction false} RealExpensesOfSameTransactions(a: seq<Row>, b: seq<Row>)
    requires Labelled(a) && Labelled(b) && SameTransactions(a, b)
    requires forall i :: 0 <= i < |a| ==> IsMoney(a[i]) == IsMoney(b[i])
    ensures SameTransactions(RealExpenses(a), RealExpenses(b))
    decreases |a|
  {
    if a != [] {
      var ia, ib := a[..|a| - 1], b[..|b| - 1];
      RealExpensesOfSameTransactions(ia, ib);
      var la, lb := a[|a| - 1], b[|b| - 1];
      assert RealExpenses(a) == RealExpenses(ia) + (if IsRealExpense(la) then [la] else []);
      assert RealExpenses(b) == RealExpenses(ib) + (if IsRealExpense(lb) then [lb] else []);
      SameTransactionsAppend(RealExpenses(ia), RealExpenses(ib),
        if IsRealExpense(la) then [la] else [], if IsRealExpense(lb) then [lb] else []);
    }
  }

  lemma {:induction false} MembersOfSameTransactions(a: seq<Row>, b: seq<Row>, key: string, keyOf: Transaction -> string)
    requires SameTransactions(a, b)
    ensures SameTransactions(Members(a, key, keyOf), Members(b, key, keyOf))
    decreases |a|
  {
    if a != [] {
      var ia, ib := a[..|a| - 1], b[..|b| - 1];
      MembersOfSameTransactions(ia, ib, key, keyOf);
      var la, lb := a[|a| - 1], b[|b| - 1];
      assert Members(a, key, keyOf) == Members(ia, key, keyOf) + (if keyOf(la.txn) == key then [la] else []);
      assert Members(b, key, keyOf) == Members(ib, key, keyOf) + (if keyOf(lb.txn) == key then [lb] else []);
      SameTransactionsAppend(Members(ia, key, keyOf), Members(ib, key, keyOf),
        if keyOf(la.txn) == key then [la] else [], if keyOf(lb.txn) == key then [lb] else []);
    }
  }

  lemma SameTransactionsAppend(a: seq<Row>, b: seq<Row>, c: seq<Row>, d: seq<Row>)
    requires SameTransactions(a, b) && SameTransactions(c, d)
    ensures SameTransactions(a + c, b + d)
  {
  }

  /** Grouping reads the transaction columns only. */
  lemma GroupByOfSameTransactions(a: seq<Row>, b: seq<Row>, keyOf: Transaction -> string, limit: Option<nat>)
    requires SameTransactions(a, b)
    ensures GroupBy(a, keyOf, limit) == GroupBy(b, keyOf, limit)
  {
    assert Keys(a, keyOf) == Keys(b, keyOf);
    var keys := GroupKeys(a, keyOf);
    assert keys == GroupKeys(b, keyOf);
    var ga, gb := GroupBy(a, keyOf, limit), GroupBy(b, keyOf, limit);
    forall k | 0 <= k < |keys|
      ensures ga[k] == gb[k]
    {
      MembersOfSameTransactions(a, b, keys[k], keyOf);
      AggregateOfSameTransactions(keys[k], Members(a, keys[k], keyOf), Members(b, keys[k], keyOf), limit);
    }
  }

  lemma AggregateOfSameTransactions(key: string, ra: seq<Row>, rb: seq<Row>, limit: Option<nat>)
    requires ra != [] && SameTransactions(ra, rb)
    ensures Aggregate(key, ra, limit) == Aggregate(key, rb, limit)
  {
    assert Dates(ra) == Dates(rb) && Amounts(ra) == Amounts(rb);
  }

  /** The detector reads the transaction columns and the money-movement
      flag only: the anomaly column added later in the pipeline, or any
      other label, cannot change its result. */
  lemma DetectionIgnoresOtherColumns(a: seq<Row>, b: seq<Row>, settings: Settings)
    requires Labelled(a) && Labelled(b) && SameTransactions(a, b)
    requires forall i :: 0 <= i < |a| ==> IsMoney(a[i]) == IsMoney(b[i])
    ensures DetectRecurringPayments(a, settings) == DetectRecurringPayments(b, settings)
  {
    RealExpensesOfSameTransactions(a, b);
    GroupByOfSameTransactions(RealExpenses(a), RealExpenses(b), MerchantKey(settings.show), settings.descriptionLimit);
  }

  class RecurringPaymentDetector {
    var df: seq<Row>

    constructor(df: seq<Row>)
      ensures this.df == df
    {
      this.df := df;
    }

    /** `run`: the recurring groups of the stage's table. */
    method Run(settings: Settings) returns (groups: Result<seq<Group>>)
      requires Labelled(df)
      ensures groups == DetectRecurringPayments(df, settings)
      ensures groups.Err? <==> NoRealExpense(df)
      ensures groups.Ok? ==> forall g :: g in groups.value ==> g.count >= 3 && g.total < 0.0
    {
      DetectedGroupsAreRecurring(df, settings);
      groups := DetectRecurringPayments(df, settings);
    }
  }
}
