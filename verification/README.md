# CashSight analytics in Dafny

CashSight is a one-page Streamlit tool for small businesses. From an uploaded
`transactions.csv` it builds these views:

- a 90-day cash forecast;
- the days on which the projected balance falls below a risk threshold;
- the ten days with the largest net outflow;
- the vendors that look like recurring payments, with a predicted next payment date.

From an optional `invoices.csv` it also lists the clients who pay late on average.

This project models those analytics as pure functions over sequences of
records. It proves what each one delivers. Dates are whole day numbers.
Money is an exact `real`.

Modules, in dependency order:

- `Basics`: option and result types, sums, means, and minimum and maximum.
- `Sorting`: sorting by a lexicographic rank.
  - The rank sort stands for every `sort_values` of the analytics (app.py:98, 113, 154, 287), and `TopK` for `sort_values(...).head(k)`.
  - `Filter` stands for a row filter.
- `Grouping`: `groupby`. Rows whose key is missing belong to no group.
- `Ledger`: the transaction record and the sign rule.
  - A row is an outflow exactly when its `type` lower-cases to `"expense"`.
- `Forecasting`: the forecast table (day, daily net, running balance).
- `RiskAnalysis`: risk days, the onset alert, and the big-expense table.
- `Recurrence`: recurring-vendor detection (gating, frequency label, next date) and the final ordering.
- `LatePayments`: invoice delays, per-client means, and the late-client table.
  - "No paid invoices" is a separate outcome.
- `Analysis`: the page end to end. The transaction checks and analyses come first, and the invoice analysis runs only after they pass. Failures are `Result` values.
- `Scenarios`: worked cases on small ledgers, derived from the general contracts.

Where the program's own help text, or the documented intent, differs from what the code does, the model follows the code:

- **Sign rule.** Only a case variant of `expense` is negated. Every other `type` value, including `income`, a blank or a typo, counts as an inflow.
- **Required columns.** The sidebar help (app.py:30 and app.py:37) lists `category`, `client_or_vendor` and `notes` as required transaction columns, and `invoice_id` as a required invoice column. The code checks only `date`, `type` and `amount` (app.py:69-70), and `client`, `issue_date`, `due_date`, `paid_date` and `amount` (app.py:268). A missing `client_or_vendor` column still stops the script later, at the recurrence step.
- **Error message.** When required columns are missing, the message lists the whole required set, not just the absent columns (app.py:71 and app.py:270). The model's failure carries that set.
- **Frequency labels.** A mean gap strictly between 9 and 10 days falls back to the label "Recurring", like the other gaps between the named bands.

## Model

| member | source | states |
|---|---|---|
| Ledger.IsExpense | app.py:77 | the expense test (the lower-cased `type` equals "expense") holds exactly for the case variants of "expense" |
| Ledger.SignedAmount | app.py:76-79 | a row's cash movement is minus its amount exactly when its type spells "expense" in some mix of cases, and plus its amount for every other type |
| Ledger.ExpenseTestIsCaseInsensitive | app.py:77 | lower-casing the type and comparing with "expense" accepts exactly the 2^7 case variants of that word |
| Ledger.EarliestDate | app.py:82 | the forecast start is a date that occurs in the ledger and is no later than any transaction date |
| Forecasting.NetOn | app.py:87 | a day's net is the signed total of the one-day window starting that day, the per-day regrouping of `groupby("date").sum()` |
| Forecasting.Forecast | app.py:82-89 | exactly 90 rows, row i dated start + i (so strictly chronological); each row's net is the signed total of that day's transactions, and its balance is the starting balance plus all nets up to and including that row |
| Forecasting.RunningBalance | app.py:89 | the cumulative balance at position i equals the seed plus the sum of the first i + 1 daily nets |
| Forecasting.BalanceStep | app.py:89 | the first balance is the starting balance plus the first day's net; every later balance is the previous balance plus that day's net |
| Forecasting.QuietDayNetsZero | app.py:87 | a day with no transaction contributes a net of zero (the `fill_value=0` of the reindex) |
| Forecasting.DaysAddUpToWindow | app.py:87-88 | the per-day nets of n consecutive days add up to the signed total of the transactions dated within those days: regrouping by day loses and duplicates nothing |
| Forecasting.HorizonTotal | app.py:82-89 | the 90 nets total the signed amounts dated within the horizon, so the closing balance is the starting balance plus that total |
| Forecasting.LateTransactionIgnored | app.py:83-87 | appending a transaction dated after the last forecast day leaves the whole forecast unchanged |
| RiskAnalysis.RiskDays | app.py:92 | a forecast row is a risk day if and only if its balance is below the threshold; the risk days are a subsequence of the forecast, each occurring exactly as often as in the forecast, with nothing repeated or reordered |
| RiskAnalysis.RiskDaysChronological | app.py:92 | selecting the risk days keeps the forecast's chronological order, which is what makes the first of them the onset |
| RiskAnalysis.SubsequenceChronological | app.py:92 | deleting rows from a chronological table leaves it chronological |
| RiskAnalysis.Onset | app.py:195-200 | there is an alert exactly when some forecast row is below the threshold, and the alert day is such a row |
| RiskAnalysis.OnsetIsEarliestRiskDay | app.py:195-200 | there is no alert exactly when every balance stays at or above the threshold; otherwise the alert day is a forecast row below the threshold and no earlier row is below it |
| RiskAnalysis.ExpenseDays | app.py:95 | a forecast row is a candidate exactly when its daily net is negative; each outflow day is listed as often as it occurs in the forecast, in forecast order |
| RiskAnalysis.OutflowOrder | app.py:96-98 | ranking by the negated absolute net orders days by absolute outflow, largest first, both among kept rows and from any kept row to any row left out |
| RiskAnalysis.TopExpenseDays | app.py:95-101 | at most ten rows, exactly min(number of outflow days, 10), all taken from the forecast with a negative net, ordered by absolute outflow descending |
| RiskAnalysis.TopExpenseDaysComplete | app.py:95-101 | the table repeats no outflow day more often than it occurs, and no outflow day it leaves out drains more cash than any day it keeps |
| Sorting.InsertionSort | app.py:113 | the sorted table is a permutation of the input (same multiset of rows) in rank order |
| Sorting.SortedPrefix | app.py:98-99 | a leading run of a sorted permutation is a sorted sub-multiset of the input, and no row left out ranks below a row kept |
| Sorting.TopK | app.py:98-99 | the first k rows in rank order: min(n, k) rows drawn from the input, sorted, and no row left out ranks below a row kept |
| Sorting.Filter | app.py:289 | a row survives the filter if and only if it is in the input and satisfies the predicate; each kept row occurs exactly as often as in the input, and the kept rows are a subsequence of the input (input order) |
| Sorting.SubsequenceMembers | app.py:289 | every row of a subsequence is a row of the original table |
| Sorting.FilterKeepsOrder | app.py:287-289 | filtering a sorted table leaves it sorted, so the late clients stay in descending order after the positive-delay filter |
| Sorting.FilterKeepsKeysDistinct | app.py:289 | filtering never makes two rows share a key |
| Sorting.PermutationKeepsKeysDistinct | app.py:287 | sorting a table whose keys are distinct leaves them distinct |
| Grouping.Group | app.py:107 | a group has no more rows than the input, and every row in it carries the group's key |
| Grouping.GroupMembers | app.py:107-109 | a row belongs to the group of key k if and only if it is a row of the input whose key is present and equal to k; rows with a missing key are in no group |
| Grouping.GroupCount | app.py:107-110 | a group holds every input row with its key exactly as often as the input does, and no other row, so `len(group)` and the group means count repeated rows |
| Grouping.Keys | app.py:107 | the group keys are distinct, and a key is listed exactly when its group is non-empty |
| Recurrence.VendorExpensesCount | app.py:104-110 | a vendor's history holds each of its expense rows exactly as often as the ledger does, and nothing else, so the three-row gate and the mean amount count every payment |
| Recurrence.ExpenseVendor | app.py:104-109 | a row has a vendor key exactly when its type is a case variant of "expense" and its vendor cell is filled, and the key is that vendor |
| Recurrence.Gaps | app.py:118 | one gap fewer than there are dates; their total is fixed by GapsTelescope |
| Recurrence.GapsTelescope | app.py:118-122 | the gaps between consecutive sorted dates add up to the last date minus the first, so the mean gap is the date span over the number of gaps |
| Recurrence.SortedEnds | app.py:113-129 | after sorting a vendor's dates, the first is the earliest payment and the last (`dates[-1]`) the latest |
| Recurrence.MeanGapIsSpan | app.py:118-122 | a date list running from a history's earliest to its latest date has a mean consecutive gap equal to the date span over the number of gaps |
| Recurrence.SortedHistory | app.py:113-129 | on the date-sorted history, the mean gap is the span over the gap count and the last date is the latest payment, whatever the ledger order |
| Recurrence.RoundHalfEven | app.py:130 | the rounded gap lies within half a day of the mean gap, and an exact half rounds to the even neighbour, as Python's `round` does |
| Recurrence.RoundHalfEvenUnique | app.py:130 | those two properties determine the rounded value uniquely |
| Recurrence.FrequencyLabel | app.py:133-140 | the label is one of four; "Weekly-ish" exactly for gaps in [5, 9], "Bi-weekly-ish" exactly for [10, 20], "Monthly-ish" exactly for [25, 35] |
| Recurrence.FallbackBands | app.py:133-140 | inside the [5, 45] window the label "Recurring" is given exactly for mean gaps in (9, 10), (20, 25) or (35, 45] |
| Recurrence.Summarize | app.py:107-140 | an admitted vendor's row names that vendor, which has at least three expense rows; its last payment is one of the vendor's dates, and the next payment is predicted at least five days later |
| Recurrence.SummarizeSpec | app.py:107-140 | a vendor yields a row if and only if it has at least three expense rows and a mean gap (date span over gap count) within [5, 45]; the row's last payment is the latest date, its next date is the last one plus the rounded mean gap, its label is the band of the mean gap, and its amount is the mean unsigned amount |
| Recurrence.Candidates | app.py:107-151 | for any per-vendor step that labels its row with the vendor, the collected rows are exactly that step's results for the listed vendors, with no vendor twice when the vendor list has no repeats |
| Recurrence.AdmittedVendorsAreKeys | app.py:107-112 | every vendor the per-vendor step admits is among the group keys, so looping over the groups misses no one |
| Recurrence.Collected | app.py:107-151 | before ordering, the table holds exactly one admitted row per admitted vendor and nothing else |
| Recurrence.Schedule | app.py:153-156 | the output holds exactly the collected rows, ordered by next expected date ascending with the larger mean amount first on equal dates, and stays free of repeated vendors |
| Recurrence.DetectRecurring | app.py:104-167 | every row is the per-vendor result of its vendor, every admitted vendor appears, no vendor appears twice, and rows are in schedule order |
| Recurrence.RecurringRowFor | app.py:107-140 | a vendor appears in the recurring table if and only if the gating rule admits it, and its row carries the gap, label, last and next dates and mean amount the rule prescribes |
| LatePayments.DelayDays | app.py:281 | the delay counts the days from due date to payment: positive exactly when paid after the due date, zero exactly when paid on it |
| LatePayments.ClientPaid | app.py:277-284 | a client's delay group holds only invoices that have a paid date and name that client |
| LatePayments.ClientPaidCount | app.py:277-285 | a client's delay group holds each of its paid invoices exactly as often as the ledger does, and nothing else, so the mean delay counts every paid invoice |
| LatePayments.MeanDelay | app.py:283-285 | a client's mean delay lies between its smallest and its largest single delay |
| Basics.MeanIntBounds | app.py:285 | a mean of whole numbers lies between their minimum and maximum |
| LatePayments.ClientMeans | app.py:283-286 | one row per client with at least one paid invoice, none twice, each holding the mean delay of that client's paid invoices |
| LatePayments.LateTable | app.py:287-289 | sort-then-filter keeps exactly the rows with a positive mean delay, in descending order of delay, with clients still distinct |
| LatePayments.LatePayers | app.py:277-289 | "no paid invoices" if and only if no invoice has a paid date; otherwise a client is listed if and only if its mean delay (paid minus due, early payments negative) is positive, with that mean, once, latest payer first |
| Analysis.AnalyzeTransactions | app.py:69-107 | the transaction report exists if and only if the required columns and the counterparty column are present and the ledger is non-empty; missing required columns are reported first, with the whole required set, of which some column is absent; a report consists of the forecast of the ledger and the risk days, onset, big-expense table and recurring table of that forecast and ledger, so every stage's contract carries over |
| Analysis.ReportAlerts | app.py:92-200 | in a report, there is no onset exactly when the balance never drops below the threshold, no row before the onset is below it, and no outflow day left out of the big-expense table drains more than a listed day |
| Analysis.AnalyzeInvoices | app.py:267-289 | the invoice analysis runs if and only if all five required columns are present; otherwise it shows the whole required set, of which some column is absent; on success the report is the late-client analysis of the invoices, so that analysis's contract carries over, and it says "no paid invoices" exactly when none is paid |
| Analysis.AnalyzePage | app.py:62-275 | without a transaction file there is no page; otherwise the page exists exactly when the transaction analysis succeeds and fails with its error; the invoice analysis appears only on a page that exists, and there exactly when an invoice file was uploaded |
| Scenarios.ExpenseSpelling | app.py:77 | "Expense" and "expense" are outflows and "income" is not |
| Scenarios.ThreeDayForecast | app.py:82-89 | income 1000 on day 0 and expenses 200 and 300 on days 1 and 2, from a starting balance of 500, give balances 1500, 1300 and 1000 |
| Scenarios.MonthlyRent | app.py:107-140 | rent of 100 paid on days 0, 30, 60 and 90 is a "Monthly-ish" vendor with a mean gap of 30 days, a last payment on day 90 and a next payment on day 120 |
| Scenarios.InvoiceGroups | app.py:277-284 | the paid invoices group as A's two and B's one; the open invoice joins no group |
| Scenarios.InvoiceMeans | app.py:281-285 | a client 5 days late once and 3 days early once has a mean delay of 1 day; a client paying 2 days early has a mean delay of -2 days |
| Scenarios.SoleLatePayer | app.py:283-289 | when exactly one client has a positive mean delay, the late-client table is that client alone |
| Scenarios.OneLateClient | app.py:277-289 | in that ledger only the 1-day-late client is listed; the early payer and the client with an open invoice are not |

## Left out

- The Streamlit page is not modelled: sidebar inputs, tabs, metrics, charts, messages, and the "first 25 days" and "recent snapshot" views. Starting balance and threshold are parameters.
- CSV reading and date parsing are not modelled. Dates arrive as day numbers. A blank or unparseable paid date arrives as a missing one, which is the effect of `errors="coerce"`.
- Non-blank transaction, issue and due dates that do not parse (app.py:74, 273-274) stop the source with an exception. The model has no such input.
- Blank transaction and due dates are not modelled. `pd.to_datetime` turns a blank cell into NaT without raising. Every date in the model is present. In the source, a blank-dated transaction drops out of the forecast, and a blank due date gives a NaN delay that the client's mean skips. A blank-dated expense row of a vendor with at least three expense rows is not harmless, though. It still counts toward the group size, the date sort puts it last, and the last gap and so the mean gap are NaN. NaN passes the [5, 45] window check, because both comparisons are false, and `round` then raises at app.py:130, which stops the whole page.
- Time of day is not modelled. The source groups by the exact timestamp. With dates that carry times, a row whose time differs from the start date's would match no forecast day. Day numbers cannot express this.
- Money is modelled as exact real numbers, not floating point. The rounding in `cumsum`, in the means and in the 0.5 comparisons of `round` is therefore not modelled.
- Display rounding is not modelled: `round(avg_gap, 1)`, the amount rounded to cents, the delay rounded to one decimal, and the currency formatting.
- The lowest-balance metric and the recent-transactions snapshot (app.py:180-211) are display-only and not modelled.
- Lower-casing covers ASCII letters only. No non-ASCII character lower-cases to a letter of "expense", so the expense test is unaffected.
- A non-text `type` column is not modelled. For example, in an all-numeric column the `.str` accessor of the recurrence step raises, while the sign rule's `str(...)` does not.
- The source re-checks that a vendor key is present and that three dates and some gaps exist (app.py:108-109, 115-116, 119-120). Grouping already guarantees these, so the model has no separate branches for them.
- The order of rows with equal sort keys is not modelled. The one-column sorts (app.py:98, 113, 287) use pandas' default quicksort, which is not stable, so the source promises no tie order there. The contracts fix contents and sortedness only.
- Recurrence.DetectRecurring: rows with the same next date are ordered by the unrounded mean amount. The source sorts on the amount already rounded to cents, so two vendors whose means differ by less than half a cent may appear in either order there. Also, pandas sorts stably on two columns. Rows tied on both the next date and the rounded amount therefore keep the group-by order in the source, which is ascending vendor name. The model promises no order among such rows.
- Forecasting.Forecast: requires a non-empty ledger. An empty ledger makes the source fail while building the date range. `Analysis.AnalyzeTransactions` models that failure as `EmptyLedger`.
- Analysis.AnalyzeTransactions: a missing `client_or_vendor` column is an error outcome (`NoCounterpartyColumn`). The source raises a `KeyError` at the recurrence step, after the forecast has been computed. The page does not reach its tabs in that case either.
