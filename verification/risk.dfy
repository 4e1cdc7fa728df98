/** Views derived from the forecast without changing it: the days below the
    risk threshold and their onset (app.py lines 92 and 195-200), and the ten
    largest net-outflow days (app.py lines 94-101). */
module RiskAnalysis {
  import opened Basics
  import opened Sorting
  import opened Forecasting

  /** Number of rows kept by the big-expense table (`head(10)`). */
  const TopCount: nat := 10

  /** The forecast rows whose balance is below the threshold (the mask
      `balance < threshold`), in forecast order. */
  function RiskDays(f: seq<ForecastDay>, threshold: real): (r: seq<ForecastDay>)
    ensures |r| <= |f|
    ensures forall d :: d in r <==> d in f && d.balance < threshold
    ensures forall d :: multiset(r)[d] == if d.balance < threshold then multiset(f)[d] else 0
    ensures Subsequence(r, f)
  {
    Filter((d: ForecastDay) => d.balance < threshold, f)
  }

  /** Picking risk days out of a chronological forecast keeps them chronological. */
  lemma RiskDaysChronological(f: seq<ForecastDay>, threshold: real)
    requires Chronological(f)
    ensures Chronological(RiskDays(f, threshold))
  {
    SubsequenceChronological(RiskDays(f, threshold), f);
  }

  /** Deleting rows from a chronological table leaves it chronological. */
  lemma {:induction false} SubsequenceChronological(r: seq<ForecastDay>, f: seq<ForecastDay>)
    requires Subsequence(r, f) && Chronological(f)
    ensures Chronological(r)
    decreases |f|
  {
    if |r| > 0 {
      if r[0] == f[0] {
        SubsequenceChronological(r[1..], f[1..]);
        SubsequenceMembers(r[1..], f[1..]);
        forall k | 0 < k < |r|
          ensures r[0].date < r[k].date
        {
          assert r[k] == r[1..][k - 1];
          assert r[1..][k - 1] in r[1..];
          var j :| 0 <= j < |f[1..]| && f[1..][j] == r[k];
          assert f[1 + j] == r[k];
        }
      } else {
        SubsequenceChronological(r, f[1..]);
      }
    }
  }

  /** The headline alert: the first risk day, if there is one. */
  function Onset(f: seq<ForecastDay>, threshold: real): (r: Option<ForecastDay>)
    ensures r.Some? <==> exists k :: 0 <= k < |f| && f[k].balance < threshold
    ensures r.Some? ==> r.value in f && r.value.balance < threshold
  {
    var r := RiskDays(f, threshold);
    if |r| == 0 then None else Some(r[0])
  }

  /** No onset exactly when the balance never drops below the threshold; an
      onset is a risk day of the forecast, and on a chronological forecast no
      earlier day is below the threshold. */
  lemma {:induction false} OnsetIsEarliestRiskDay(f: seq<ForecastDay>, threshold: real)
    ensures Onset(f, threshold).None? <==> forall k :: 0 <= k < |f| ==> f[k].balance >= threshold
    ensures Onset(f, threshold).Some? ==>
              Onset(f, threshold).value in f && Onset(f, threshold).value.balance < threshold
    ensures Onset(f, threshold).Some? && Chronological(f) ==>
              forall d :: d in f && d.date < Onset(f, threshold).value.date ==> d.balance >= threshold
  {
    var r := RiskDays(f, threshold);
    if |r| == 0 {
      assert forall k :: 0 <= k < |f| ==> f[k] !in r;
    } else {
      assert r[0] in r;
      if Chronological(f) {
        RiskDaysChronological(f, threshold);
        forall d | d in f && d.date < r[0].date
          ensures d.balance >= threshold
        {
          assert forall k :: 0 <= k < |r| ==> r[0].date <= r[k].date;
          assert d !in r;
        }
      }
    }
  }

  /** The forecast rows with a net outflow (the mask `daily_net < 0`), in
      forecast order, each as often as it occurs in the forecast. */
  function ExpenseDays(f: seq<ForecastDay>): (r: seq<ForecastDay>)
    ensures forall d :: d in r <==> d in f && d.dailyNet < 0.0
    ensures forall d :: multiset(r)[d] == if d.dailyNet < 0.0 then multiset(f)[d] else 0
    ensures Subsequence(r, f)
  {
    Filter((d: ForecastDay) => d.dailyNet < 0.0, f)
  }

  /** `a` drains at least as much cash as `b`. */
  predicate OutflowAtLeast(a: ForecastDay, b: ForecastDay)
  {
    Abs(a.dailyNet) >= Abs(b.dailyNet)
  }

  /** Ranking of expense days: the larger absolute outflow first. */
  function OutflowRank(d: ForecastDay): Rank
  {
    Rank(-Abs(d.dailyNet), 0.0)
  }

  /** Rank order by outflow is descending absolute outflow, both within the
      kept rows and from every kept row to every row left out. */
  lemma OutflowOrder(candidates: seq<ForecastDay>, r: seq<ForecastDay>)
    requires SortedBy(OutflowRank, r)
    requires forall y, x :: y in r && x in multiset(candidates) - multiset(r) ==>
               RankLe(OutflowRank(y), OutflowRank(x))
    ensures forall i, j :: 0 <= i < j < |r| ==> OutflowAtLeast(r[i], r[j])
    ensures forall e, d :: e in r && d in multiset(candidates) - multiset(r) ==> OutflowAtLeast(e, d)
  {
    forall i, j | 0 <= i < j < |r|
      ensures OutflowAtLeast(r[i], r[j])
    {
      assert RankLe(OutflowRank(r[i]), OutflowRank(r[j]));
    }
    forall e, d | e in r && d in multiset(candidates) - multiset(r)
      ensures OutflowAtLeast(e, d)
    {
      assert RankLe(OutflowRank(e), OutflowRank(d));
    }
  }

  /** The big-expense table: the expense days ranked by absolute outflow, first ten. */
  function TopExpenseDays(f: seq<ForecastDay>): (r: seq<ForecastDay>)
    ensures |r| <= TopCount
    ensures |ExpenseDays(f)| < TopCount ==> |r| == |ExpenseDays(f)|
    ensures |ExpenseDays(f)| >= TopCount ==> |r| == TopCount
    ensures forall d :: d in r ==> d in f && d.dailyNet < 0.0
    ensures forall i, j :: 0 <= i < j < |r| ==> OutflowAtLeast(r[i], r[j])
  {
    var candidates := ExpenseDays(f);
    var r := TopK(OutflowRank, candidates, TopCount);
    OutflowOrder(candidates, r);
    r
  }

  /** The table takes each expense day at most as often as it occurs, and
      no expense day it leaves out drains more cash than any day it keeps. */
  lemma TopExpenseDaysComplete(f: seq<ForecastDay>)
    ensures multiset(TopExpenseDays(f)) <= multiset(ExpenseDays(f))
    ensures forall e, d :: e in TopExpenseDays(f) && d in multiset(ExpenseDays(f)) - multiset(TopExpenseDays(f)) ==>
              OutflowAtLeast(e, d)
  {
    OutflowOrder(ExpenseDays(f), TopExpenseDays(f));
  }
}
