/** The transaction ledger after loading: one record per CSV row with its
    date already parsed to a day number, and the sign convention that turns
    a raw amount into a cash movement (app.py lines 69-79). */
module Ledger {
  import opened Basics

  /** One row of transactions.csv. `kind` is the raw `type` cell, compared
      case-insensitively; `counterparty` is the `client_or_vendor` cell. */
  datatype Transaction = Transaction(
    date: int,
    kind: string,
    amount: real,
    category: Option<string>,
    counterparty: Option<string>,
    notes: Option<string>)

  /** Columns the ledger must carry before anything is computed. */
  const RequiredColumns: set<string> := {"date", "type", "amount"}

  /** The counterparty column, optional in the check but read by the recurrence detector. */
  const CounterpartyColumn: string := "client_or_vendor"

  function LowerChar(c: char): char
  {
    if 'A' <= c <= 'Z' then (c as int + 32) as char else c
  }

  /** Lower-cases the ASCII letters of `s`. */
  function Lower(s: string): string
  {
    seq(|s|, i requires 0 <= i < |s| => LowerChar(s[i]))
  }

  /** The single expense test of the program: `type` lower-cases to
      "expense", which holds exactly for the case variants of that word. */
  predicate IsExpense(t: Transaction)
    ensures IsExpense(t) <==> SpellsExpense(t.kind)
  {
    ExpenseTestIsCaseInsensitive(t.kind);
    Lower(t.kind) == "expense"
  }

  /** The cash movement of a row: expenses leave, everything else arrives.
      A row is negated exactly when its type is a case variant of "expense";
      "income", blanks and any unrecognised type keep the positive amount. */
  function SignedAmount(t: Transaction): (m: real)
    ensures SpellsExpense(t.kind) ==> m == -t.amount
    ensures !SpellsExpense(t.kind) ==> m == t.amount
  {
    if IsExpense(t) then -t.amount else t.amount
  }

  /** "expense" spelled with any mix of upper- and lower-case letters. */
  predicate SpellsExpense(s: string)
  {
    |s| == 7 && forall i :: 0 <= i < 7 ==> s[i] == "expense"[i] || s[i] == "EXPENSE"[i]
  }

  /** The lower-casing test accepts exactly the case variants of "expense". */
  lemma ExpenseTestIsCaseInsensitive(s: string)
    ensures Lower(s) == "expense" <==> SpellsExpense(s)
  {
    if SpellsExpense(s) {
      assert forall i :: 0 <= i < 7 ==> Lower(s)[i] == "expense"[i];
    }
    if Lower(s) == "expense" {
      assert forall i :: 0 <= i < 7 ==> LowerChar(s[i]) == "expense"[i];
    }
  }

  /** The day numbers of the rows, in ledger order. */
  function Dates(txs: seq<Transaction>): (ds: seq<int>)
    ensures |ds| == |txs|
  {
    seq(|txs|, i requires 0 <= i < |txs| => txs[i].date)
  }

  /** The earliest transaction date: pandas' `df["date"].min()`. */
  function EarliestDate(txs: seq<Transaction>): (d: int)
    requires |txs| > 0
    ensures forall i :: 0 <= i < |txs| ==> d <= txs[i].date
    ensures exists i :: 0 <= i < |txs| && txs[i].date == d
  {
    var ds := Dates(txs);
    var m := MinOf(ds);
    assert forall i :: 0 <= i < |txs| ==> ds[i] == txs[i].date;
    m
  }
}
