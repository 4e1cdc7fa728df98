/** Late-paying clients (app.py lines 262-298): invoices with a resolved paid
    date are kept, each one's delay is paid date minus due date in days
    (negative when paid early), delays are averaged per client, the clients
    are sorted by mean delay, largest first, and only those whose mean delay
    is positive are reported. A ledger with no paid invoice at all is a
    separate outcome from one whose clients all pay on time. */
module LatePayments {
  import opened Basics
  import opened Sorting
  import opened Grouping

  /** One row of invoices.csv, dates as day numbers. `paidDate` is None when
      the cell is blank or does not parse (the lenient `errors="coerce"`). */
  datatype Invoice = Invoice(
    id: Option<string>,
    client: Option<string>,
    issueDate: int,
    dueDate: int,
    paidDate: Option<int>,
    amount: real)

  /** One row of the late-client table. */
  datatype ClientDelay = ClientDelay(client: string, avgDelayDays: real)

  datatype LateReport =
    | NoPaidInvoices
    | LateClients(clients: seq<ClientDelay>)

  /** Columns the invoice ledger must carry; `invoice_id` is not among them. */
  const RequiredInvoiceColumns: set<string> := {"client", "issue_date", "due_date", "paid_date", "amount"}

  predicate IsPaid(inv: Invoice)
  {
    inv.paidDate.Some?
  }

  /** Days from due date to payment: `(paid_date - due_date).days`;
      positive when paid after the due date, negative when paid before it. */
  function DelayDays(inv: Invoice): (d: int)
    requires IsPaid(inv)
    ensures d > 0 <==> inv.paidDate.value > inv.dueDate
    ensures d == 0 <==> inv.paidDate.value == inv.dueDate
    ensures inv.dueDate + d == inv.paidDate.value
  {
    inv.paidDate.value - inv.dueDate
  }

  /** The grouping key: the client of a paid invoice. Unpaid invoices and
      invoices without a client belong to no group. */
  function PaidClient(inv: Invoice): Option<string>
  {
    if IsPaid(inv) then inv.client else None
  }

  /** The paid invoices of client `c`, in ledger order. */
  function ClientPaid(invs: seq<Invoice>, c: string): (g: seq<Invoice>)
    ensures forall i :: 0 <= i < |g| ==> IsPaid(g[i]) && g[i].client == Some(c)
  {
    Group(invs, PaidClient, c)
  }

  /** The delays of a run of paid invoices, in order. */
  function Delays(g: seq<Invoice>): (ds: seq<int>)
    requires forall i :: 0 <= i < |g| ==> IsPaid(g[i])
    ensures |ds| == |g|
  {
    seq(|g|, i requires 0 <= i < |g| => DelayDays(g[i]))
  }

  /** A client's delay group holds each of its paid invoices exactly as often
      as the ledger does, and nothing else. */
  lemma ClientPaidCount(invs: seq<Invoice>, c: string, x: Invoice)
    ensures multiset(ClientPaid(invs, c))[x] == if IsPaid(x) && x.client == Some(c) then multiset(invs)[x] else 0
  {
    GroupCount(invs, PaidClient, c, x);
  }

  /** Mean delay of the paid invoices of client `c`: never earlier than the
      client's earliest payment nor later than its latest, relative to the
      due dates. */
  function MeanDelay(invs: seq<Invoice>, c: string): (m: real)
    requires |ClientPaid(invs, c)| > 0
    ensures MinOf(Delays(ClientPaid(invs, c))) as real <= m <= MaxOf(Delays(ClientPaid(invs, c))) as real
  {
    var ds := Delays(ClientPaid(invs, c));
    MeanIntBounds(ds);
    MeanInt(ds)
  }

  function ClientOf(r: ClientDelay): string
  {
    r.client
  }

  /** `groupby("client")["delay_days"].mean()`: one row per client with a paid invoice. */
  function ClientMeans(invs: seq<Invoice>): (rows: seq<ClientDelay>)
    ensures forall r :: r in rows ==>
              |ClientPaid(invs, r.client)| > 0 && r == ClientDelay(r.client, MeanDelay(invs, r.client))
    ensures forall c :: |ClientPaid(invs, c)| > 0 ==> ClientDelay(c, MeanDelay(invs, c)) in rows
    ensures DistinctKeys(ClientOf, rows)
  {
    var cs := Keys(invs, PaidClient);
    var rows := seq(|cs|, i requires 0 <= i < |cs| => ClientDelay(cs[i], MeanDelay(invs, cs[i])));
    assert forall c :: c in cs ==> ClientDelay(c, MeanDelay(invs, c)) in rows by {
      forall c | c in cs
        ensures ClientDelay(c, MeanDelay(invs, c)) in rows
      {
        var i :| 0 <= i < |cs| && cs[i] == c;
        assert rows[i] == ClientDelay(c, MeanDelay(invs, c));
      }
    }
    rows
  }

  /** Descending mean delay. */
  function DelayRank(r: ClientDelay): Rank
  {
    Rank(-r.avgDelayDays, 0.0)
  }

  predicate PaysLate(r: ClientDelay)
  {
    r.avgDelayDays > 0.0
  }

  /** `a` pays at least as late as `b`. */
  predicate AtLeastAsLate(a: ClientDelay, b: ClientDelay)
  {
    a.avgDelayDays >= b.avgDelayDays
  }

  /** Sort the per-client means, latest payer first, then keep the positive
      ones (the source sorts before it filters). */
  function LateTable(means: seq<ClientDelay>): (late: seq<ClientDelay>)
    ensures forall row :: row in late <==> row in means && PaysLate(row)
    ensures DistinctKeys(ClientOf, means) ==> DistinctKeys(ClientOf, late)
    ensures forall i, j :: 0 <= i < j < |late| ==> AtLeastAsLate(late[i], late[j])
  {
    var ranked := InsertionSort(DelayRank, means);
    PermutationMembers(means, ranked);
    assert DistinctKeys(ClientOf, means) ==> DistinctKeys(ClientOf, ranked) by {
      if DistinctKeys(ClientOf, means) {
        PermutationKeepsKeysDistinct(ClientOf, means, ranked);
      }
    }
    FilterKeepsOrder(PaysLate, DelayRank, ranked);
    assert DistinctKeys(ClientOf, ranked) ==> DistinctKeys(ClientOf, Filter(PaysLate, ranked)) by {
      if DistinctKeys(ClientOf, ranked) {
        FilterKeepsKeysDistinct(PaysLate, ClientOf, ranked);
      }
    }
    var late := Filter(PaysLate, ranked);
    assert forall i, j :: 0 <= i < j < |late| ==> RankLe(DelayRank(late[i]), DelayRank(late[j]));
    late
  }

  /** The late-client analysis: "no paid invoices" when no invoice has a
      paid date; otherwise the clients with a positive mean delay, each once,
      latest payer first. */
  function LatePayers(invs: seq<Invoice>): (r: LateReport)
    ensures r.NoPaidInvoices? <==> forall i :: 0 <= i < |invs| ==> !IsPaid(invs[i])
    ensures r.LateClients? ==> forall row :: row in r.clients ==>
              && |ClientPaid(invs, row.client)| > 0
              && row.avgDelayDays == MeanDelay(invs, row.client)
              && row.avgDelayDays > 0.0
    ensures r.LateClients? ==> forall c :: |ClientPaid(invs, c)| > 0 && MeanDelay(invs, c) > 0.0 ==>
              ClientDelay(c, MeanDelay(invs, c)) in r.clients
    ensures r.LateClients? ==> forall i, j :: 0 <= i < j < |r.clients| ==>
              r.clients[i].client != r.clients[j].client
    ensures r.LateClients? ==> forall i, j :: 0 <= i < j < |r.clients| ==>
              AtLeastAsLate(r.clients[i], r.clients[j])
  {
    if forall i :: 0 <= i < |invs| ==> !IsPaid(invs[i]) then NoPaidInvoices
    else
      var late := LateTable(ClientMeans(invs));
      assert forall i, j :: 0 <= i < j < |late| ==> ClientOf(late[i]) != ClientOf(late[j]);
      LateClients(late)
  }
}
