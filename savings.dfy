/**
 * The savings estimate (`EstimateSavings`): half of every positive excess
 * of an abnormal month over the normal baseline, plus 60% of what the
 * recurring payments cost, rounded to cents.
 */
module Savings {
  import opened Common
  import opened Behavior
  import opened Recurring

  /** `round(x, 2)` on exact reals: the nearest multiple of 0.01, halves
      going to the even number of cents. */
  function Round2(x: real): (r: real)
    ensures -0.005 <= r - x <= 0.005
    ensures x >= 0.0 ==> r >= 0.0
  {
    var scaled := x * 100.0;
    var n := scaled.Floor;
    var fraction := scaled - n as real;
    var cents :=
      if fraction > 0.5 then n + 1
      else if fraction < 0.5 then n
      else if n % 2 == 0 then n
      else n + 1;
    cents as real / 100.0
  }

  /** The rounded value is a whole number of cents, and on a tie the
      number of cents is even. */
  lemma Round2WholeCents(x: real)
    ensures var r := Round2(x);
      (r * 100.0).Floor as real == r * 100.0 &&
      ((r - x == 0.005 || x - r == 0.005) ==> (r * 100.0).Floor % 2 == 0)
  {
  }

  /** What the inner loop adds for one abnormal month: half of every
      positive deviation. */
  function MonthExcess(devs: seq<Deviation>): (r: real)
    ensures r >= 0.0
  {
    if devs == [] then 0.0
    else
      var last := devs[|devs| - 1];
      MonthExcess(devs[..|devs| - 1]) + (if last.value > 0.0 then last.value * 0.5 else 0.0)
  }

  lemma MonthExcessStep(devs: seq<Deviation>, j: nat)
    requires j < |devs|
    ensures MonthExcess(devs[..j + 1]) ==
      MonthExcess(devs[..j]) + if devs[j].value > 0.0 then devs[j].value * 0.5 else 0.0
  {
    assert devs[..j + 1][..j] == devs[..j];
  }

  /** What the outer loop has added after the first `n` months. */
  function ExcessUpTo(p: Profile, n: nat): (r: real)
    requires WellFormed(p) && false in p.abnormal && n <= |p.months|
    ensures r >= 0.0
  {
    if n == 0 then 0.0
    else ExcessUpTo(p, n - 1) + (if p.abnormal[n - 1] then MonthExcess(Deviations(p, n - 1)) else 0.0)
  }

  function Totals(groups: seq<Group>): (r: seq<real>)
    ensures |r| == |groups|
    ensures forall k :: 0 <= k < |groups| ==> r[k] == groups[k].total
  {
    seq(|groups|, k requires 0 <= k < |groups| => groups[k].total)
  }

  /** The estimate before rounding: zero unless there are both normal and
      abnormal months; otherwise the excess part, plus 60% of the absolute
      sum of the recurring totals when there is a recurring group. */
  function RawSavings(p: Profile, groups: seq<Group>): (r: real)
    requires WellFormed(p)
    ensures r >= 0.0
  {
    if !(false in p.abnormal) || !(true in p.abnormal) then 0.0
    else
      ExcessUpTo(p, |p.months|) +
      (if |groups| > 0 then Abs(Sum(Totals(groups))) * 0.6 else 0.0)
  }

  /** `_estimate_savings`: the early `0.0`, or the rounded estimate. */
  function SavingsOf(p: Profile, groups: seq<Group>): (r: real)
    requires WellFormed(p)
    ensures r >= 0.0
    ensures -0.005 <= r - RawSavings(p, groups) <= 0.005
    ensures !(false in p.abnormal) || !(true in p.abnormal) ==> r == 0.0
  {
    if !(false in p.abnormal) || !(true in p.abnormal) then 0.0
    else Round2(RawSavings(p, groups))
  }

  // ---------------------------------------------------------------------
  // Properties
  // ---------------------------------------------------------------------

  /** A recurring group can only add to the estimate. */
  lemma RecurringOnlyAdds(p: Profile, groups: seq<Group>)
    requires WellFormed(p)
    ensures RawSavings(p, groups) >= RawSavings(p, [])
    ensures false in p.abnormal && true in p.abnormal && groups != [] ==>
      RawSavings(p, groups) - RawSavings(p, []) == Abs(Sum(Totals(groups))) * 0.6
  {
  }

  /** One positive deviation contributes half of itself to its month. */
  lemma {:induction false} MonthExcessCovers(devs: seq<Deviation>, j: nat)
    requires j < |devs| && devs[j].value > 0.0
    ensures MonthExcess(devs) >= devs[j].value * 0.5
    decreases |devs|
  {
    if j < |devs| - 1 {
      var init := devs[..|devs| - 1];
      assert init[j] == devs[j];
      MonthExcessCovers(init, j);
    }
  }

  /** No positive deviation, nothing to save in that month. */
  lemma {:induction false} MonthExcessZero(devs: seq<Deviation>)
    requires forall j :: 0 <= j < |devs| ==> devs[j].value <= 0.0
    ensures MonthExcess(devs) == 0.0
    decreases |devs|
  {
    if devs != [] {
      MonthExcessZero(devs[..|devs| - 1]);
    }
  }

  /** A month's part of the excess is counted in the total. */
  lemma {:induction false} ExcessUpToCovers(p: Profile, n: nat, i: nat)
    requires WellFormed(p) && false in p.abnormal && i < n <= |p.months| && p.abnormal[i]
    ensures ExcessUpTo(p, n) >= MonthExcess(Deviations(p, i))
    decreases n
  {
    if i < n - 1 {
      ExcessUpToCovers(p, n - 1, i);
    }
  }

  /** No abnormal month with a positive deviation, no excess at all. */
  lemma {:induction false} ExcessUpToZero(p: Profile, n: nat)
    requires WellFormed(p) && false in p.abnormal && n <= |p.months|
    requires forall i :: 0 <= i < n && p.abnormal[i] ==> MonthExcess(Deviations(p, i)) == 0.0
    ensures ExcessUpTo(p, n) == 0.0
  {
    if n > 0 {
      ExcessUpToZero(p, n - 1);
    }
  }

  /** An abnormal month without advice lines has no positive deviation:
      its largest deviation is among the top three and is not positive. */
  lemma SilentMonthHasNoExcess(p: Profile, i: nat)
    requires WellFormed(p) && false in p.abnormal && i < |p.months|
    requires MonthAdvice(p, i) == []
    ensures MonthExcess(Deviations(p, i)) == 0.0
  {
    var devs := Deviations(p, i);
    var top := TopDeviations(devs);
    TopPositiveDeviationsAreReported(p, i);
    forall j | 0 <= j < |devs|
      ensures devs[j].value <= 0.0
    {
      assert top[0] in top;
      if devs[j] !in multiset(devs) - multiset(top) {
        assert devs[j] in multiset(top);
        assert devs[j] in top;
      }
    }
    MonthExcessZero(devs);
  }

  /** The savings excess and the advice agree: every overspend line is
      backed by at least half its excess in the estimate, and when the
      advice names no overspend the estimate is the recurring part
      alone. */
  lemma SavingsBackAdvice(p: Profile, groups: seq<Group>)
    requires WellFormed(p) && false in p.abnormal && true in p.abnormal
    ensures forall a :: a in Explain(p) && a.Overspend? ==> RawSavings(p, groups) >= a.excess * 0.5
    ensures (forall a :: a in Explain(p) ==> !a.Overspend?) ==>
      RawSavings(p, groups) == (if |groups| > 0 then Abs(Sum(Totals(groups))) * 0.6 else 0.0)
  {
    SavingsCoverEachLine(p, groups);
    SavingsWithoutLines(p, groups);
  }

  lemma SavingsCoverEachLine(p: Profile, groups: seq<Group>)
    requires WellFormed(p) && false in p.abnormal && true in p.abnormal
    ensures forall a :: a in Explain(p) && a.Overspend? ==> RawSavings(p, groups) >= a.excess * 0.5
  {
    forall a | a in Explain(p) && a.Overspend?
      ensures RawSavings(p, groups) >= a.excess * 0.5
    {
      SavingsCoverLine(p, groups, a);
    }
  }

  lemma SavingsCoverLine(p: Profile, groups: seq<Group>, a: Advice)
    requires WellFormed(p) && false in p.abnormal && true in p.abnormal
    requires a in Explain(p) && a.Overspend?
    ensures RawSavings(p, groups) >= a.excess * 0.5
  {
    var blocks := MonthBlocks(p);
    var k :| 0 <= k < |Flatten(blocks)| && Flatten(blocks)[k] == a;
    var i, m := FlattenSource(blocks, k);
    assert blocks[i] == if p.abnormal[i] then MonthAdvice(p, i) else [];
    assert p.abnormal[i] && a in MonthAdvice(p, i);
    CoveredLine(p, i, a);
    ExcessUpToCovers(p, |p.months|, i);
    RawSavingsCoversExcess(p, groups);
  }

  lemma RawSavingsCoversExcess(p: Profile, groups: seq<Group>)
    requires WellFormed(p) && false in p.abnormal && true in p.abnormal
    ensures RawSavings(p, groups) >= ExcessUpTo(p, |p.months|)
  {
    var recurring := if |groups| > 0 then Abs(Sum(Totals(groups))) * 0.6 else 0.0;
    assert recurring >= 0.0;
    assert RawSavings(p, groups) == ExcessUpTo(p, |p.months|) + recurring;
  }

  lemma SavingsWithoutLines(p: Profile, groups: seq<Group>)
    requires WellFormed(p) && false in p.abnormal && true in p.abnormal
    ensures (forall a :: a in Explain(p) ==> !a.Overspend?) ==>
      RawSavings(p, groups) == (if |groups| > 0 then Abs(Sum(Totals(groups))) * 0.6 else 0.0)
  {
    if forall a :: a in Explain(p) ==> !a.Overspend? {
      forall i | 0 <= i < |p.months| && p.abnormal[i]
        ensures MonthExcess(Deviations(p, i)) == 0.0
      {
        if MonthAdvice(p, i) == [] {
          SilentMonthHasNoExcess(p, i);
        } else {
          LoudMonth(p, i);
          assert false;
        }
      }
      ExcessUpToZero(p, |p.months|);
    }
  }

  /** A month with a line puts an overspend into the advice. */
  lemma LoudMonth(p: Profile, i: nat)
    requires WellFormed(p) && false in p.abnormal && true in p.abnormal
    requires i < |p.months| && p.abnormal[i] && MonthAdvice(p, i) != []
    ensures exists a :: a in Explain(p) && a.Overspend?
  {
    MonthAdviceIsTopThree(p, i);
    FlattenContains(MonthBlocks(p), i);
    assert MonthAdvice(p, i)[0] in MonthBlocks(p)[i];
  }

  /** A line of month `i` is backed by half its excess in that month. */
  lemma CoveredLine(p: Profile, i: nat, a: Advice)
    requires WellFormed(p) && false in p.abnormal && i < |p.months|
    requires a in MonthAdvice(p, i)
    ensures a.Overspend? && MonthExcess(Deviations(p, i)) >= a.excess * 0.5
  {
    var devs := Deviations(p, i);
    AdviceLineIsDeviation(p, i, a);
    var j :| 0 <= j < |devs| && devs[j] == Deviation(a.category, a.excess);
    MonthExcessCovers(devs, j);
  }

  class EstimateSavings {
    var recurringGroups: seq<Group>
    var profile: Profile

    constructor(recurringGroups: seq<Group>, profile: Profile)
      ensures this.recurringGroups == recurringGroups && this.profile == profile
    {
      this.recurringGroups := recurringGroups;
      this.profile := profile;
    }

    /** `estimate`. */
    method Estimate() returns (savings: real)
      requires WellFormed(profile)
      ensures savings == SavingsOf(profile, recurringGroups)
    {
      savings := EstimateOf(recurringGroups, profile);
    }

    /** `_estimate_savings`: the guard, the accumulation over abnormal
        months and their deviations, the recurring part, the rounding. */
    method EstimateOf(groups: seq<Group>, p: Profile) returns (savings: real)
      requires WellFormed(p)
      ensures savings == SavingsOf(p, groups)
    {
      savings := 0.0;
      if !(false in p.abnormal) || !(true in p.abnormal) {
        return 0.0;
      }
      for i := 0 to |p.months|
        invariant savings == ExcessUpTo(p, i)
      {
        if p.abnormal[i] {
          var diff := Deviations(p, i);
          for j := 0 to |diff|
            invariant savings == ExcessUpTo(p, i) + MonthExcess(diff[..j])
          {
            MonthExcessStep(diff, j);
            if diff[j].value > 0.0 {
              savings := savings + diff[j].value * 0.5;
            }
          }
          assert diff[..|diff|] == diff;
        }
      }
      if |groups| > 0 {
        savings := savings + Abs(Sum(Totals(groups))) * 0.6;
      }
      savings := Round2(savings);
    }
  }
}
