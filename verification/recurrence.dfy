/** Recurring-expense detection (app.py lines 103-167): expense rows are
    grouped by vendor; a vendor with at least three payments whose mean gap
    between consecutive dates lies in [5, 45] days becomes a row with a
    frequency label, its mean amount, its last payment and the predicted next
    one. Rows are ordered by predicted date, larger amounts first on a tie. */
module Recurrence {
  import opened Basics
  import opened Sorting
  import opened Grouping
  import opened Ledger

  /** Fewest payments a vendor needs before a pattern is looked for. */
  const MinPayments: nat := 3
  /** The recognised window for the mean gap, in days. */
  const MinMeanGap: real := 5.0
  const MaxMeanGap: real := 45.0

  /** One row of the recurring-expense table. */
  datatype RecurringExpense = RecurringExpense(
    vendor: string,
    avgGapDays: real,
    frequency: string,
    avgAmount: real,
    lastPayment: int,
    nextExpected: int)

  /** The grouping key: the vendor of an expense row. Income rows and rows
      without a vendor belong to no group. */
  function ExpenseVendor(t: Transaction): (v: Option<string>)
    ensures v.Some? <==> SpellsExpense(t.kind) && t.counterparty.Some?
    ensures v.Some? ==> v == t.counterparty
  {
    if IsExpense(t) then t.counterparty else None
  }

  /** The expense rows paid to `v`, in ledger order. */
  function VendorExpenses(txs: seq<Transaction>, v: string): seq<Transaction>
  {
    Group(txs, ExpenseVendor, v)
  }

  /** A vendor's history holds each of its expense rows exactly as often as
      the ledger does, and nothing else. */
  lemma VendorExpensesCount(txs: seq<Transaction>, v: string, x: Transaction)
    ensures multiset(VendorExpenses(txs, v))[x] ==
              if SpellsExpense(x.kind) && x.counterparty == Some(v) then multiset(txs)[x] else 0
  {
    GroupCount(txs, ExpenseVendor, v, x);
  }

  /** The amounts of the rows (unsigned, as in the ledger). */
  function Amounts(g: seq<Transaction>): (a: seq<real>)
    ensures |a| == |g|
  {
    seq(|g|, i requires 0 <= i < |g| => g[i].amount)
  }

  /** Differences between consecutive dates. */
  function Gaps(dates: seq<int>): (g: seq<int>)
    requires |dates| > 0
    ensures |g| == |dates| - 1
  {
    seq(|dates| - 1, i requires 0 <= i < |dates| - 1 => dates[i + 1] - dates[i])
  }

  /** Consecutive gaps telescope: together they span first to last date. */
  lemma {:induction false} GapsTelescope(dates: seq<int>)
    requires |dates| > 0
    ensures SumInt(Gaps(dates)) == dates[|dates| - 1] - dates[0]
  {
    var n := |dates|;
    if n > 1 {
      var init := dates[..n - 1];
      GapsTelescope(init);
      assert Gaps(dates)[..n - 2] == Gaps(init);
    }
  }

  /** Python's `round` on a float: nearest integer, ties to the even one. */
  function RoundHalfEven(x: real): (n: int)
    ensures x - 0.5 <= n as real <= x + 0.5
    ensures (n as real == x - 0.5 || n as real == x + 0.5) ==> n % 2 == 0
  {
    var f := x.Floor;
    var frac := x - f as real;
    if frac < 0.5 then f
    else if frac > 0.5 then f + 1
    else if f % 2 == 0 then f
    else f + 1
  }

  /** Exactly one integer is nearest to `x` with ties broken to even. */
  lemma RoundHalfEvenUnique(x: real, m: int)
    requires x - 0.5 <= m as real <= x + 0.5
    requires (m as real == x - 0.5 || m as real == x + 0.5) ==> m % 2 == 0
    ensures m == RoundHalfEven(x)
  {
  }

  /** The frequency label of a mean gap; gaps between the named bands, for
      instance 9.5 or 22 days, fall back to "Recurring". */
  function FrequencyLabel(meanGap: real): (name: string)
    ensures name in {"Weekly-ish", "Bi-weekly-ish", "Monthly-ish", "Recurring"}
    ensures name == "Weekly-ish" <==> 5.0 <= meanGap <= 9.0
    ensures name == "Bi-weekly-ish" <==> 10.0 <= meanGap <= 20.0
    ensures name == "Monthly-ish" <==> 25.0 <= meanGap <= 35.0
  {
    if 5.0 <= meanGap <= 9.0 then "Weekly-ish"
    else if 10.0 <= meanGap <= 20.0 then "Bi-weekly-ish"
    else if 25.0 <= meanGap <= 35.0 then "Monthly-ish"
    else "Recurring"
  }

  /** Within the recognised window, the generic label covers exactly the
      three stretches between the named bands. */
  lemma FallbackBands(meanGap: real)
    requires MinMeanGap <= meanGap <= MaxMeanGap
    ensures FrequencyLabel(meanGap) == "Recurring"
            <==> (9.0 < meanGap < 10.0 || 20.0 < meanGap < 25.0 || 35.0 < meanGap)
  {
  }

  function DateRank(d: int): Rank
  {
    Rank(d as real, 0.0)
  }

  /** The per-vendor step of the source: skip short histories, sort the
      dates, average the gaps, skip means outside the window, label. */
  function Summarize(txs: seq<Transaction>, v: string): (r: Option<RecurringExpense>)
    ensures r.Some? ==> r.value.vendor == v && |VendorExpenses(txs, v)| >= MinPayments
    ensures r.Some? ==> r.value.lastPayment in Dates(VendorExpenses(txs, v))
    ensures r.Some? ==> r.value.lastPayment + 5 <= r.value.nextExpected
  {
    var group := VendorExpenses(txs, v);
    if |group| < MinPayments then None
    else
      var dates := InsertionSort(DateRank, Dates(group));
      var meanGap := MeanInt(Gaps(dates));
      if meanGap < MinMeanGap || meanGap > MaxMeanGap then None
      else
        var last := dates[|dates| - 1];
        assert last in multiset(Dates(group)) by { assert last in multiset(dates); }
        Some(RecurringExpense(v, meanGap, FrequencyLabel(meanGap), Mean(Amounts(group)),
                              last, last + RoundHalfEven(meanGap)))
  }

  /** Mean gap of a payment history read off its date range alone. */
  function SpanGap(g: seq<Transaction>): real
    requires |g| >= 2
  {
    (MaxOf(Dates(g)) - MinOf(Dates(g))) as real / (|g| - 1) as real
  }

  /** Reference reading of the gating rule: at least three expense rows and
      a mean gap, over date-sorted rows, within [5, 45] days. */
  predicate IsRecurringVendor(txs: seq<Transaction>, v: string)
  {
    var g := VendorExpenses(txs, v);
    |g| >= MinPayments && MinMeanGap <= SpanGap(g) <= MaxMeanGap
  }

  /** Sorting a non-empty list of dates puts the earliest first and the latest last. */
  lemma SortedEnds(ds: seq<int>)
    requires |ds| > 0
    ensures InsertionSort(DateRank, ds)[0] == MinOf(ds)
    ensures InsertionSort(DateRank, ds)[|ds| - 1] == MaxOf(ds)
  {
    var s := InsertionSort(DateRank, ds);
    assert s[0] in multiset(ds) && s[|s| - 1] in multiset(ds);
    assert MinOf(ds) in multiset(s) && MaxOf(ds) in multiset(s);
    var i :| 0 <= i < |s| && s[i] == MinOf(ds);
    var j :| 0 <= j < |s| && s[j] == MaxOf(ds);
    assert RankLe(DateRank(s[0]), DateRank(s[i]));
    assert RankLe(DateRank(s[j]), DateRank(s[|s| - 1]));
  }

  /** Over a payment history sorted by date, the mean gap is the date span
      over the number of gaps and the last date is the latest payment. */
  lemma SortedHistory(g: seq<Transaction>)
    requires |g| >= 2
    ensures MeanInt(Gaps(InsertionSort(DateRank, Dates(g)))) == SpanGap(g)
    ensures InsertionSort(DateRank, Dates(g))[|g| - 1] == MaxOf(Dates(g))
  {
    var ds := Dates(g);
    var dates := InsertionSort(DateRank, ds);
    SortedEnds(ds);
    MeanGapIsSpan(g, dates);
  }

  /** When `dates` runs from the earliest to the latest date of `g`, its mean
      consecutive gap is the date span of `g` over the number of gaps. */
  lemma MeanGapIsSpan(g: seq<Transaction>, dates: seq<int>)
    requires |g| >= 2 && |dates| == |g|
    requires dates[0] == MinOf(Dates(g)) && dates[|dates| - 1] == MaxOf(Dates(g))
    ensures MeanInt(Gaps(dates)) == SpanGap(g)
  {
    GapsTelescope(dates);
  }

  /** A vendor row is produced exactly for the vendors the gating rule admits;
      its mean gap is the date range over the number of gaps, its last payment
      the latest date, and the next date the last one plus the rounded mean gap. */
  lemma {:induction false} SummarizeSpec(txs: seq<Transaction>, v: string)
    ensures Summarize(txs, v).Some? <==> IsRecurringVendor(txs, v)
    ensures Summarize(txs, v).Some? ==>
              var e := Summarize(txs, v).value;
              var g := VendorExpenses(txs, v);
              && |g| >= MinPayments
              && e.vendor == v
              && e.avgGapDays == SpanGap(g)
              && MinMeanGap <= e.avgGapDays <= MaxMeanGap
              && e.lastPayment == MaxOf(Dates(g))
              && e.nextExpected == e.lastPayment + RoundHalfEven(e.avgGapDays)
              && e.frequency == FrequencyLabel(e.avgGapDays)
              && e.avgAmount == Mean(Amounts(g))
  {
    var g := VendorExpenses(txs, v);
    if |g| >= MinPayments {
      SortedHistory(g);
    }
  }

  function VendorOf(e: RecurringExpense): string
  {
    e.vendor
  }

  /** The loop over vendor groups: the rows the per-vendor step `summary`
      yields for the vendors in `vs`, in `vs` order. */
  function Candidates(summary: string -> Option<RecurringExpense>, vs: seq<string>): (rows: seq<RecurringExpense>)
    requires forall v :: summary(v).Some? ==> summary(v).value.vendor == v
    ensures forall e :: e in rows ==> e.vendor in vs && summary(e.vendor) == Some(e)
    ensures forall v :: v in vs && summary(v).Some? ==> summary(v).value in rows
    ensures NoDuplicates(vs) ==> DistinctKeys(VendorOf, rows)
  {
    if |vs| == 0 then []
    else
      var rest := Candidates(summary, vs[1..]);
      assert forall v :: v in vs <==> v == vs[0] || v in vs[1..];
      match summary(vs[0])
      case None => rest
      case Some(e) =>
        assert NoDuplicates(vs) ==> vs[0] !in vs[1..];
        assert forall k :: 0 <= k < |rest| ==> rest[k] in rest;
        [e] + rest
  }

  /** Order of the output table: earlier predicted date first, and on the
      same date the larger mean amount first. */
  predicate DueBefore(a: RecurringExpense, b: RecurringExpense)
  {
    a.nextExpected < b.nextExpected || (a.nextExpected == b.nextExpected && a.avgAmount >= b.avgAmount)
  }

  function ScheduleRank(e: RecurringExpense): Rank
  {
    Rank(e.nextExpected as real, -e.avgAmount)
  }

  /** The final `sort_values(["next_expected_date", "avg_amount"], ascending=[True, False])`. */
  function Schedule(found: seq<RecurringExpense>): (rows: seq<RecurringExpense>)
    ensures forall e :: e in rows <==> e in found
    ensures forall i, j :: 0 <= i < j < |rows| ==> DueBefore(rows[i], rows[j])
    ensures DistinctKeys(VendorOf, found) ==> DistinctKeys(VendorOf, rows)
  {
    var rows := InsertionSort(ScheduleRank, found);
    PermutationMembers(found, rows);
    assert DistinctKeys(VendorOf, found) ==> DistinctKeys(VendorOf, rows) by {
      if DistinctKeys(VendorOf, found) {
        PermutationKeepsKeysDistinct(VendorOf, found, rows);
      }
    }
    rows
  }

  /** The per-vendor step of a given ledger, as a function of the vendor. */
  function SummaryOf(txs: seq<Transaction>): (summary: string -> Option<RecurringExpense>)
    ensures forall v :: summary(v) == Summarize(txs, v)
    ensures forall v :: summary(v).Some? ==> summary(v).value.vendor == v
  {
    v => Summarize(txs, v)
  }

  /** Only vendors with expense rows can be admitted, so looping over the
      group keys misses none. */
  lemma AdmittedVendorsAreKeys(txs: seq<Transaction>)
    ensures forall v :: Summarize(txs, v).Some? ==> v in Keys(txs, ExpenseVendor)
  {
    forall v | Summarize(txs, v).Some?
      ensures v in Keys(txs, ExpenseVendor)
    {
      assert |VendorExpenses(txs, v)| >= MinPayments;
    }
  }

  /** The rows the loop over vendor groups collects, before ordering. */
  function Collected(txs: seq<Transaction>): (found: seq<RecurringExpense>)
    ensures forall e :: e in found ==> Summarize(txs, e.vendor) == Some(e)
    ensures forall v :: Summarize(txs, v).Some? ==> Summarize(txs, v).value in found
    ensures DistinctKeys(VendorOf, found)
  {
    AdmittedVendorsAreKeys(txs);
    Candidates(SummaryOf(txs), Keys(txs, ExpenseVendor))
  }

  /** The recurring-expense table: one row per vendor the per-vendor step
      admits, no vendor twice, in schedule order. */
  function DetectRecurring(txs: seq<Transaction>): (rows: seq<RecurringExpense>)
    ensures forall e :: e in rows ==> Summarize(txs, e.vendor) == Some(e)
    ensures forall v :: Summarize(txs, v).Some? ==> Summarize(txs, v).value in rows
    ensures forall i, j :: 0 <= i < j < |rows| ==> rows[i].vendor != rows[j].vendor
    ensures forall i, j :: 0 <= i < j < |rows| ==> DueBefore(rows[i], rows[j])
  {
    var rows := Schedule(Collected(txs));
    assert DistinctKeys(VendorOf, rows);
    rows
  }

  /** A vendor has a row exactly when the gating rule admits it (at least
      three expense rows, mean gap within [5, 45]); its row carries the mean
      gap as date range over gap count, the latest date as last payment, the
      next date as last payment plus the rounded mean gap, the band label and
      the mean unsigned amount. */
  lemma {:induction false} RecurringRowFor(txs: seq<Transaction>, v: string)
    ensures IsRecurringVendor(txs, v) <==> exists e :: e in DetectRecurring(txs) && e.vendor == v
    ensures forall e :: e in DetectRecurring(txs) && e.vendor == v ==>
              var g := VendorExpenses(txs, v);
              && |g| >= MinPayments
              && e.avgGapDays == SpanGap(g)
              && MinMeanGap <= e.avgGapDays <= MaxMeanGap
              && e.lastPayment == MaxOf(Dates(g))
              && e.nextExpected == e.lastPayment + RoundHalfEven(e.avgGapDays)
              && e.frequency == FrequencyLabel(e.avgGapDays)
              && e.avgAmount == Mean(Amounts(g))
  {
    var rows := DetectRecurring(txs);
    SummarizeSpec(txs, v);
    if IsRecurringVendor(txs, v) {
      assert Summarize(txs, v).value in rows;
    }
  }
}
