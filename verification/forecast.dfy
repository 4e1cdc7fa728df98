/** The 90-day cash forecast (app.py lines 81-89): a contiguous run of days
    starting at the earliest transaction date, the net signed amount of each
    day (zero when nothing happened), and the running balance seeded with the
    caller's starting balance. */
module Forecasting {
  import opened Basics
  import opened Ledger

  /** Number of forecast days: the start date and the 89 days after it. */
  const Horizon: nat := 90

  /** One row of the forecast table. */
  datatype ForecastDay = ForecastDay(date: int, dailyNet: real, balance: real)

  /** Sum of the signed amounts of the rows dated exactly `day`: the
      window of that one day. */
  function NetOn(txs: seq<Transaction>, day: int): (net: real)
    ensures net == WindowNet(txs, day, day + 1)
  {
    if |txs| == 0 then 0.0
    else
      var last := txs[|txs| - 1];
      NetOn(txs[..|txs| - 1], day) + (if last.date == day then SignedAmount(last) else 0.0)
  }

  /** Sum of the signed amounts of the rows dated in [lo, hi). */
  function WindowNet(txs: seq<Transaction>, lo: int, hi: int): real
  {
    if |txs| == 0 then 0.0
    else
      var last := txs[|txs| - 1];
      WindowNet(txs[..|txs| - 1], lo, hi) + (if lo <= last.date < hi then SignedAmount(last) else 0.0)
  }

  /** A day on which nothing happened nets to zero. */
  lemma {:induction false} QuietDayNetsZero(txs: seq<Transaction>, day: int)
    requires forall i :: 0 <= i < |txs| ==> txs[i].date != day
    ensures NetOn(txs, day) == 0.0
  {
    if |txs| > 0 {
      QuietDayNetsZero(txs[..|txs| - 1], day);
    }
  }

  /** Extending a window by one day adds exactly that day's net. */
  lemma {:induction false} WindowGrows(txs: seq<Transaction>, lo: int, hi: int)
    requires lo <= hi
    ensures WindowNet(txs, lo, hi + 1) == WindowNet(txs, lo, hi) + NetOn(txs, hi)
  {
    if |txs| > 0 {
      WindowGrows(txs[..|txs| - 1], lo, hi);
    }
  }

  /** The running balance (`starting_balance + cumsum`), computed as a scan:
      each entry carries the previous one forward by that day's net. */
  function RunningBalance(seed: real, nets: seq<real>): (b: seq<real>)
    ensures |b| == |nets|
    ensures forall i :: 0 <= i < |nets| ==> b[i] == seed + Sum(nets[..i + 1])
  {
    if |nets| == 0 then []
    else
      var init := nets[..|nets| - 1];
      var prev := RunningBalance(seed, init);
      var carried := if |prev| == 0 then seed else prev[|prev| - 1];
      assert forall i :: 0 <= i < |init| ==> prev[i] == seed + Sum(nets[..i + 1]) by {
        forall i | 0 <= i < |init|
          ensures prev[i] == seed + Sum(nets[..i + 1])
        {
          assert init[..i + 1] == nets[..i + 1];
        }
      }
      assert init[..|init|] == init;
      assert nets[..|nets|] == nets;
      prev + [carried + nets[|nets| - 1]]
  }

  /** The daily nets of a forecast, in date order. */
  function Nets(f: seq<ForecastDay>): (ns: seq<real>)
    ensures |ns| == |f|
  {
    seq(|f|, i requires 0 <= i < |f| => f[i].dailyNet)
  }

  /** Dates strictly increase along the sequence. */
  predicate Chronological(f: seq<ForecastDay>)
  {
    forall i, j :: 0 <= i < j < |f| ==> f[i].date < f[j].date
  }

  /** The forecast table. The source cannot build it for an empty ledger
      (the earliest date is then undefined), hence the precondition. */
  function Forecast(txs: seq<Transaction>, startingBalance: real): (f: seq<ForecastDay>)
    requires |txs| > 0
    ensures |f| == Horizon
    ensures forall i :: 0 <= i < |f| ==> f[i].date == EarliestDate(txs) + i
    ensures Chronological(f)
    ensures forall i :: 0 <= i < |f| ==> f[i].dailyNet == NetOn(txs, f[i].date)
    ensures forall i :: 0 <= i < |f| ==> f[i].balance == startingBalance + Sum(Nets(f)[..i + 1])
  {
    var start := EarliestDate(txs);
    var nets := seq(Horizon, i requires 0 <= i < Horizon => NetOn(txs, start + i));
    var balances := RunningBalance(startingBalance, nets);
    var f := seq(Horizon, i requires 0 <= i < Horizon => ForecastDay(start + i, nets[i], balances[i]));
    assert Nets(f) == nets;
    f
  }

  /** The balance recurrence: the first day adds its net to the starting
      balance, and every later day adds its net to the day before. */
  lemma {:induction false} BalanceStep(txs: seq<Transaction>, startingBalance: real, i: nat)
    requires |txs| > 0
    requires i < Horizon
    ensures i == 0 ==> Forecast(txs, startingBalance)[0].balance
                       == startingBalance + Forecast(txs, startingBalance)[0].dailyNet
    ensures i > 0 ==> Forecast(txs, startingBalance)[i].balance
                      == Forecast(txs, startingBalance)[i - 1].balance + Forecast(txs, startingBalance)[i].dailyNet
  {
    var ns := Nets(Forecast(txs, startingBalance));
    if i > 0 {
      assert ns[..i + 1][..i] == ns[..i];
    } else {
      assert ns[..1][..0] == [];
      assert Sum(ns[..1]) == ns[0];
      assert ns[0] == Forecast(txs, startingBalance)[0].dailyNet;
    }
  }

  /** Round trip: daily nets of `n` consecutive days starting at `lo` add up
      to the signed amounts of the rows dated within those days. */
  lemma {:induction false} DaysAddUpToWindow(txs: seq<Transaction>, lo: int, ns: seq<real>)
    requires forall i :: 0 <= i < |ns| ==> ns[i] == NetOn(txs, lo + i)
    ensures Sum(ns) == WindowNet(txs, lo, lo + |ns|)
  {
    if |ns| > 0 {
      var n := |ns|;
      DaysAddUpToWindow(txs, lo, ns[..n - 1]);
      WindowGrows(txs, lo, lo + n - 1);
    } else {
      EmptyWindow(txs, lo);
    }
  }

  lemma {:induction false} EmptyWindow(txs: seq<Transaction>, lo: int)
    ensures WindowNet(txs, lo, lo) == 0.0
  {
    if |txs| > 0 {
      EmptyWindow(txs[..|txs| - 1], lo);
    }
  }

  /** The forecast's nets total exactly the in-horizon signed amounts, and so
      the closing balance is the starting balance plus that total. */
  lemma {:induction false} HorizonTotal(txs: seq<Transaction>, startingBalance: real)
    requires |txs| > 0
    ensures Sum(Nets(Forecast(txs, startingBalance)))
            == WindowNet(txs, EarliestDate(txs), EarliestDate(txs) + Horizon)
    ensures Forecast(txs, startingBalance)[Horizon - 1].balance
            == startingBalance + WindowNet(txs, EarliestDate(txs), EarliestDate(txs) + Horizon)
  {
    var ns := Nets(Forecast(txs, startingBalance));
    DaysAddUpToWindow(txs, EarliestDate(txs), ns);
    assert ns[..Horizon] == ns;
  }

  /** A row dated after the last forecast day changes nothing in the forecast. */
  lemma {:induction false} LateTransactionIgnored(txs: seq<Transaction>, t: Transaction, startingBalance: real)
    requires |txs| > 0
    requires t.date > EarliestDate(txs) + (Horizon - 1)
    ensures Forecast(txs + [t], startingBalance) == Forecast(txs, startingBalance)
  {
    var txs' := txs + [t];
    var e := EarliestDate(txs);
    var e' := EarliestDate(txs');
    var k :| 0 <= k < |txs| && txs[k].date == e;
    assert txs'[k] == txs[k];
    var k' :| 0 <= k' < |txs'| && txs'[k'].date == e';
    assert forall i :: 0 <= i < |txs| ==> txs'[i] == txs[i];
    assert e' == e;
    assert txs'[..|txs'| - 1] == txs;
    var f := Forecast(txs, startingBalance);
    var f' := Forecast(txs', startingBalance);
    forall d | d != t.date
      ensures NetOn(txs', d) == NetOn(txs, d)
    {
    }
    assert Nets(f') == Nets(f);
    assert forall i :: 0 <= i < Horizon ==> f'[i] == f[i];
  }
}
