/** The page as the script runs it (app.py lines 62-167 and 262-298): the
    transaction ledger is checked and analysed first, and the invoice
    ledger is only looked at once that has succeeded, since every earlier
    failure stops the whole script. */
module Analysis {
  import opened Basics
  import opened Ledger
  import opened Forecasting
  import opened RiskAnalysis
  import opened Recurrence
  import opened LatePayments

  /** Why a transaction ledger yields no report. */
  datatype LedgerError =
      /** No transactions file was uploaded; the page shows a hint and stops. */
    | NoLedgerUpload
      /** Some of `date`, `type`, `amount` are absent; the script stops with a
          message that lists the whole required set. */
    | MissingColumns(required: set<string>)
      /** No rows: the earliest date is undefined and the day range cannot be built. */
    | EmptyLedger
      /** No `client_or_vendor` column: the recurrence step's group-by fails. */
    | NoCounterpartyColumn

  /** Everything the transaction ledger feeds to the page. */
  datatype CashReport = CashReport(
    forecast: seq<ForecastDay>,
    riskDays: seq<ForecastDay>,
    onset: Option<ForecastDay>,
    topExpenseDays: seq<ForecastDay>,
    recurring: seq<RecurringExpense>)

  /** An uploaded CSV file: its header and its rows. */
  datatype Upload<Row> = Upload(columns: set<string>, rows: seq<Row>)

  /** What the page shows once the transaction ledger has been analysed:
      the cash report and, when an invoice file was uploaded, either its
      late-client report or the required invoice columns it lacks. */
  datatype Page = Page(cash: CashReport, late: Option<Result<LateReport, set<string>>>)

  /** The transaction pipeline: column check, forecast, risk days, big
      expense days, recurring vendors. */
  function AnalyzeTransactions(columns: set<string>, txs: seq<Transaction>,
                               startingBalance: real, threshold: real): (r: Result<CashReport, LedgerError>)
    ensures r.Success? <==> RequiredColumns <= columns && |txs| > 0 && CounterpartyColumn in columns
    ensures !(RequiredColumns <= columns) ==> r == Failure(MissingColumns(RequiredColumns))
    ensures r.Failure? && r.error.MissingColumns? ==> r.error.required - columns != {}
    ensures RequiredColumns <= columns && |txs| == 0 ==> r == Failure(EmptyLedger)
    ensures r.Failure? ==> !r.error.NoLedgerUpload?
    ensures r.Success? ==>
              && |txs| > 0
              && r.value.forecast == Forecast(txs, startingBalance)
              && r.value.riskDays == RiskDays(r.value.forecast, threshold)
              && r.value.onset == Onset(r.value.forecast, threshold)
              && r.value.topExpenseDays == TopExpenseDays(r.value.forecast)
              && r.value.recurring == DetectRecurring(txs)
    ensures r.Success? ==>
              && |r.value.forecast| == Horizon
              && r.value.forecast[0].date == EarliestDate(txs)
              && (forall d :: d in r.value.riskDays <==> d in r.value.forecast && d.balance < threshold)
              && (r.value.onset.Some? <==> |r.value.riskDays| > 0)
              && (r.value.onset.Some? ==> r.value.onset.value == r.value.riskDays[0])
              && |r.value.topExpenseDays| <= TopCount
              && (forall d :: d in r.value.topExpenseDays ==> d in r.value.forecast && d.dailyNet < 0.0)
              && (forall e :: e in r.value.recurring ==> IsRecurringVendor(txs, e.vendor))
  {
    if !(RequiredColumns <= columns) then
      MissingIsNonEmpty(RequiredColumns, columns);
      Failure(MissingColumns(RequiredColumns))
    else if |txs| == 0 then Failure(EmptyLedger)
    else if CounterpartyColumn !in columns then Failure(NoCounterpartyColumn)
    else
      var f := Forecast(txs, startingBalance);
      var recurring := DetectRecurring(txs);
      assert forall e :: e in recurring ==> IsRecurringVendor(txs, e.vendor) by {
        forall e | e in recurring
          ensures IsRecurringVendor(txs, e.vendor)
        {
          SummarizeSpec(txs, e.vendor);
        }
      }
      Success(CashReport(f, RiskDays(f, threshold), Onset(f, threshold), TopExpenseDays(f), recurring))
  }

  /** A report's alerts are those of its own forecast: no onset exactly when
      the balance never drops below the threshold, no risk day before the
      onset, and no outflow day missing from the big-expense table drains
      more than a day it lists. */
  lemma ReportAlerts(columns: set<string>, txs: seq<Transaction>, startingBalance: real, threshold: real)
    ensures var r := AnalyzeTransactions(columns, txs, startingBalance, threshold);
            r.Success? ==>
              && (r.value.onset.None? <==>
                    forall k :: 0 <= k < |r.value.forecast| ==> r.value.forecast[k].balance >= threshold)
              && (r.value.onset.Some? ==>
                    forall d :: d in r.value.forecast && d.date < r.value.onset.value.date ==> d.balance >= threshold)
              && (forall e, d :: e in r.value.topExpenseDays && d in ExpenseDays(r.value.forecast) && d !in r.value.topExpenseDays ==>
                    OutflowAtLeast(e, d))
  {
    var r := AnalyzeTransactions(columns, txs, startingBalance, threshold);
    if r.Success? {
      var f := r.value.forecast;
      OnsetIsEarliestRiskDay(f, threshold);
      TopExpenseDaysComplete(f);
      forall e, d | e in r.value.topExpenseDays && d in ExpenseDays(f) && d !in r.value.topExpenseDays
        ensures OutflowAtLeast(e, d)
      {
        assert d in multiset(ExpenseDays(f)) - multiset(TopExpenseDays(f));
      }
    }
  }

  /** A column set that does not cover the required ones misses at least one of them. */
  lemma MissingIsNonEmpty(required: set<string>, columns: set<string>)
    requires !(required <= columns)
    ensures required - columns != {}
  {
    var m :| m in required && m !in columns;
    assert m in required - columns;
  }

  /** The invoice pipeline: column check, then the late-client analysis. A
      failure shows the whole required set, of which the file lacks some. */
  function AnalyzeInvoices(columns: set<string>, invs: seq<Invoice>): (r: Result<LateReport, set<string>>)
    ensures r.Success? <==> RequiredInvoiceColumns <= columns
    ensures r.Failure? ==> r.error == RequiredInvoiceColumns && r.error - columns != {}
    ensures r.Success? ==> (r.value.NoPaidInvoices? <==> forall i :: 0 <= i < |invs| ==> !IsPaid(invs[i]))
    ensures r.Success? ==> r.value == LatePayers(invs)
  {
    if RequiredInvoiceColumns <= columns then Success(LatePayers(invs))
    else
      MissingIsNonEmpty(RequiredInvoiceColumns, columns);
      Failure(RequiredInvoiceColumns)
  }

  /** The whole page: without a transaction ledger that passes every check
      there is no page at all, and in particular no invoice analysis; with
      one, the invoice file is analysed exactly when it was uploaded. */
  function AnalyzePage(ledger: Option<Upload<Transaction>>, invoices: Option<Upload<Invoice>>,
                       startingBalance: real, threshold: real): (r: Result<Page, LedgerError>)
    ensures ledger.None? ==> r == Failure(NoLedgerUpload)
    ensures ledger.Some? ==>
              var cash := AnalyzeTransactions(ledger.value.columns, ledger.value.rows, startingBalance, threshold);
              && (r.Success? <==> cash.Success?)
              && (r.Failure? ==> r.error == cash.error)
              && (r.Success? ==> r.value.cash == cash.value)
    ensures r.Success? ==> (r.value.late.Some? <==> invoices.Some?)
    ensures r.Success? && invoices.Some? ==>
              r.value.late.value == AnalyzeInvoices(invoices.value.columns, invoices.value.rows)
  {
    match ledger
    case None => Failure(NoLedgerUpload)
    case Some(upload) =>
      match AnalyzeTransactions(upload.columns, upload.rows, startingBalance, threshold)
      case Failure(e) => Failure(e)
      case Success(cash) =>
        var late := match invoices
          case None => None
          case Some(inv) => Some(AnalyzeInvoices(inv.columns, inv.rows));
        Success(Page(cash, late))
  }
}
