/** Worked cases on small ledgers: the numbers each analysis produces for a
    concrete input, derived from the general contracts. Day numbers count
    from the first transaction. */
module Scenarios {
  import opened Basics
  import opened Ledger
  import opened Forecasting
  import opened Recurrence
  import opened LatePayments
  import opened Grouping

  function Row(date: int, kind: string, amount: real, vendor: Option<string>): Transaction
  {
    Transaction(date, kind, amount, None, vendor, None)
  }

  /** "expense" in any case is an outflow; "income" is not. */
  lemma ExpenseSpelling()
    ensures IsExpense(Row(0, "Expense", 1.0, None))
    ensures IsExpense(Row(0, "expense", 1.0, None))
    ensures !IsExpense(Row(0, "income", 1.0, None))
  {
    assert SpellsExpense("Expense");
    assert SpellsExpense("expense");
  }

  /** Income 1000 on day 0, expenses 200 on day 1 and 300 on day 2, starting
      from 500: the balance runs 1500, 1300, 1000. */
  lemma ThreeDayForecast()
    ensures var f := Forecast([Row(0, "income", 1000.0, None), Row(1, "expense", 200.0, None),
                               Row(2, "expense", 300.0, None)], 500.0);
            f[0].balance == 1500.0 && f[1].balance == 1300.0 && f[2].balance == 1000.0
  {
    var txs := [Row(0, "income", 1000.0, None), Row(1, "expense", 200.0, None),
                Row(2, "expense", 300.0, None)];
    ExpenseSpelling();
    assert SignedAmount(txs[0]) == 1000.0;
    assert SignedAmount(txs[1]) == -200.0;
    assert SignedAmount(txs[2]) == -300.0;
    assert EarliestDate(txs) == 0;
    var one, two := [txs[0]], [txs[0], txs[1]];
    assert txs[..2] == two && two[..1] == one && one[..0] == [];
    assert NetOn(one, 0) == 1000.0 && NetOn(one, 1) == 0.0 && NetOn(one, 2) == 0.0;
    assert NetOn(two, 0) == 1000.0 && NetOn(two, 1) == -200.0 && NetOn(two, 2) == 0.0;
    assert NetOn(txs, 0) == 1000.0 && NetOn(txs, 1) == -200.0 && NetOn(txs, 2) == -300.0;
    BalanceStep(txs, 500.0, 0);
    BalanceStep(txs, 500.0, 1);
    BalanceStep(txs, 500.0, 2);
  }

  const Rent: string := "Rent"

  /** Rent of 100 paid on days 0, 30, 60 and 90. */
  const RentLedger: seq<Transaction> :=
    [Row(0, "expense", 100.0, Some(Rent)), Row(30, "expense", 100.0, Some(Rent)),
     Row(60, "expense", 100.0, Some(Rent)), Row(90, "expense", 100.0, Some(Rent))]

  /** Every rent row is an expense to the same vendor, so the group is the whole ledger. */
  lemma RentGroup()
    ensures VendorExpenses(RentLedger, Rent) == RentLedger
  {
    var txs := RentLedger;
    ExpenseSpelling();
    assert forall i :: 0 <= i < 4 ==> ExpenseVendor(txs[i]) == Some(Rent);
    var one, two, three := [txs[0]], [txs[0], txs[1]], [txs[0], txs[1], txs[2]];
    assert txs[..3] == three && three[..2] == two && two[..1] == one && one[..0] == [];
    assert Group(one, ExpenseVendor, Rent) == one;
    assert Group(two, ExpenseVendor, Rent) == two;
    assert Group(three, ExpenseVendor, Rent) == three;
  }

  /** The rent history spans 90 days over three gaps and averages 100. */
  lemma RentFigures()
    ensures |VendorExpenses(RentLedger, Rent)| == 4
    ensures SpanGap(VendorExpenses(RentLedger, Rent)) == 30.0
    ensures MaxOf(Dates(VendorExpenses(RentLedger, Rent))) == 90
    ensures Mean(Amounts(VendorExpenses(RentLedger, Rent))) == 100.0
  {
    RentGroup();
    var g := RentLedger;
    var ds := Dates(g);
    assert ds == [0, 30, 60, 90];
    assert ds[1..] == [30, 60, 90] && ds[1..][1..] == [60, 90] && ds[1..][1..][1..] == [90];
    assert forall i :: 0 <= i < 4 ==> 0 <= ds[i] <= 90;
    assert ds[0] == 0 && ds[3] == 90;
    var a := Amounts(g);
    assert a == [100.0, 100.0, 100.0, 100.0];
    var a1, a2, a3 := [100.0], [100.0, 100.0], [100.0, 100.0, 100.0];
    assert a[..3] == a3 && a3[..2] == a2 && a2[..1] == a1 && a1[..0] == [];
    assert Sum(a1) == 100.0;
    assert Sum(a2) == 200.0;
    assert Sum(a3) == 300.0;
    assert Sum(a) == 400.0;
  }

  /** The rent is a monthly pattern: the next payment is expected on day 120. */
  lemma MonthlyRent()
    ensures Summarize(RentLedger, Rent) == Some(RecurringExpense(Rent, 30.0, "Monthly-ish", 100.0, 90, 120))
  {
    RentFigures();
    assert RoundHalfEven(30.0) == 30;
    SummarizeSpec(RentLedger, Rent);
  }

  function Paid(client: string, due: int, paid: int): Invoice
  {
    Invoice(None, Some(client), due - 30, due, Some(paid), 100.0)
  }

  /** Client A pays 5 days late and then 3 days early; client B pays 2 days
      early; client C has an open invoice. */
  const InvoiceLedger: seq<Invoice> :=
    [Paid("A", 10, 15), Paid("A", 20, 17), Paid("B", 10, 8), Invoice(None, Some("C"), 0, 30, None, 50.0)]

  /** Grouping the paid invoices: A's two, then B's one. */
  lemma InvoiceGroups()
    ensures ClientPaid(InvoiceLedger, "A") == [InvoiceLedger[0], InvoiceLedger[1]]
    ensures ClientPaid(InvoiceLedger, "B") == [InvoiceLedger[2]]
    ensures ClientPaid(InvoiceLedger, "C") == []
  {
    var invs := InvoiceLedger;
    var one, two, three := [invs[0]], [invs[0], invs[1]], [invs[0], invs[1], invs[2]];
    assert invs[..3] == three && three[..2] == two && two[..1] == one && one[..0] == [];
    assert Group(one, PaidClient, "A") == one && Group(one, PaidClient, "B") == [];
    assert Group(two, PaidClient, "A") == two && Group(two, PaidClient, "B") == [];
    assert Group(three, PaidClient, "A") == two && Group(three, PaidClient, "B") == [invs[2]];
    assert Group(one, PaidClient, "C") == [] && Group(two, PaidClient, "C") == [];
    assert Group(three, PaidClient, "C") == [] && PaidClient(invs[3]) == None;
  }

  /** A's paid invoices average a one-day delay (a late one outweighs an
      early one); B's single paid invoice was two days early. */
  lemma InvoiceMeans()
    ensures |ClientPaid(InvoiceLedger, "A")| == 2 && MeanDelay(InvoiceLedger, "A") == 1.0
    ensures |ClientPaid(InvoiceLedger, "B")| == 1 && MeanDelay(InvoiceLedger, "B") == -2.0
  {
    InvoiceGroups();
    var ga := ClientPaid(InvoiceLedger, "A");
    var da := Delays(ga);
    assert da == [5, -3];
    assert SumInt([5]) == 5 by { assert [5][..0] == []; }
    assert [5, -3][..1] == [5];
    assert SumInt(da) == 2;
    var gb := ClientPaid(InvoiceLedger, "B");
    var db := Delays(gb);
    assert db == [-2];
    assert SumInt([-2]) == -2 by { assert [-2][..0] == []; }
  }

  /** Only clients A and B have paid invoices. */
  lemma InvoiceClients(c: string)
    requires |ClientPaid(InvoiceLedger, c)| > 0
    ensures c == "A" || c == "B"
  {
    GroupMembers(InvoiceLedger, PaidClient, c);
    var x := ClientPaid(InvoiceLedger, c)[0];
    assert x in InvoiceLedger;
  }

  /** The late-client table for that ledger holds A alone, with a mean delay of one day. */
  lemma OneLateClient()
    ensures LatePayers(InvoiceLedger) == LateClients([ClientDelay("A", 1.0)])
  {
    InvoiceMeans();
    forall c | |ClientPaid(InvoiceLedger, c)| > 0 && c != "A"
      ensures MeanDelay(InvoiceLedger, c) <= 0.0
    {
      InvoiceClients(c);
    }
    SoleLatePayer(InvoiceLedger, "A");
  }

  /** When exactly one client pays late on average, the table is that client alone. */
  lemma SoleLatePayer(invs: seq<Invoice>, c: string)
    requires |ClientPaid(invs, c)| > 0 && MeanDelay(invs, c) > 0.0
    requires forall d :: |ClientPaid(invs, d)| > 0 && d != c ==> MeanDelay(invs, d) <= 0.0
    ensures LatePayers(invs) == LateClients([ClientDelay(c, MeanDelay(invs, c))])
  {
    var g := ClientPaid(invs, c);
    assert g[0] in g;
    GroupMembers(invs, PaidClient, c);
    var i :| 0 <= i < |invs| && invs[i] == g[0];
    assert IsPaid(invs[i]);
    var r := LatePayers(invs);
    assert r.LateClients?;
    LateRowsOf(invs, c);
    SingleClientTable(r.clients, ClientDelay(c, MeanDelay(invs, c)));
  }

  lemma LateRowsOf(invs: seq<Invoice>, c: string)
    requires exists i :: 0 <= i < |invs| && IsPaid(invs[i])
    requires |ClientPaid(invs, c)| > 0 && MeanDelay(invs, c) > 0.0
    requires forall d :: |ClientPaid(invs, d)| > 0 && d != c ==> MeanDelay(invs, d) <= 0.0
    ensures LatePayers(invs).LateClients?
    ensures forall row :: row in LatePayers(invs).clients ==> row == ClientDelay(c, MeanDelay(invs, c))
    ensures ClientDelay(c, MeanDelay(invs, c)) in LatePayers(invs).clients
  {
  }

  lemma SingleClientTable(rows: seq<ClientDelay>, want: ClientDelay)
    requires want in rows
    requires forall row :: row in rows ==> row == want
    requires forall j, k :: 0 <= j < k < |rows| ==> rows[j].client != rows[k].client
    ensures rows == [want]
  {
    assert rows[0] in rows && rows[|rows| - 1] in rows;
  }
}
