/**
 * The dashboard: record counts, status counts, the finance totals over all
 * shipments, per-client figures sorted by profit, and the badges the page
 * shows beside each client.
 */
module Dashboard {
  import opened Wrappers
  import opened Models
  import opened Queries
  import opened Storage
  import opened Finance
  import opened Aggregation
  import opened Http
  import Reports
  import ShipmentSchema

  datatype Overview = Overview(
    totalClients: nat,
    totalSuppliers: nat,
    totalShipments: nat,
    deliveredCount: nat,
    inTransitCount: nat,
    plannedCount: nat)

  datatype FinanceOverview = FinanceOverview(
    totalRevenue: real,
    totalCost: real,
    totalExpenses: real,
    totalProfit: real,
    avgMargin: real)

  datatype ClientStat = ClientStat(
    clientNumber: Option<string>,
    name: string,
    company: string,
    shipmentsCount: nat,
    volume: real,
    revenue: real,
    profit: real,
    marginPercent: real)

  datatype DashboardStats = DashboardStats(overview: Overview, finance: FinanceOverview, clients: seq<ClientStat>)

  /** `query(Shipment).filter(Shipment.status == status).count()`: a NULL status equals no status. */
  function CountStatus(ss: seq<Shipment>, status: ShipmentStatus): (n: nat)
    ensures n <= |ss|
    ensures n == 0 <==> forall s :: s in ss ==> s.status != Some(status)
  {
    var r := Filter(ss, (s: Shipment) => s.status == Some(status));
    assert r != [] ==> r[0] in r;
    |r|
  }

  lemma CountStatusCons(ss: seq<Shipment>, status: ShipmentStatus)
    requires ss != []
    ensures CountStatus(ss, status) == (if ss[0].status == Some(status) then 1 else 0) + CountStatus(ss[1..], status)
  {
  }

  /** The shipments whose status column is NULL, which none of the three counts sees. */
  function CountNullStatus(ss: seq<Shipment>): nat {
    |Filter(ss, (s: Shipment) => s.status.None?)|
  }

  /**
   * Every shipment has one of the three statuses or none, so the status
   * counts and the NULL ones add up to the total; with no NULL status the
   * three counts alone do.
   */
  lemma {:induction false} StatusCountsPartition(ss: seq<Shipment>)
    ensures CountStatus(ss, Delivered) + CountStatus(ss, InTransit) + CountStatus(ss, Planned) + CountNullStatus(ss) == |ss|
    ensures (forall s :: s in ss ==> s.status.Some?) ==>
      CountStatus(ss, Delivered) + CountStatus(ss, InTransit) + CountStatus(ss, Planned) == |ss|
  {
    StatusCountsAddUp(ss);
    if forall s :: s in ss ==> s.status.Some? {
      var nulls := Filter(ss, (s: Shipment) => s.status.None?);
      assert nulls != [] ==> nulls[0] in nulls;
    }
  }

  lemma {:induction false} StatusCountsAddUp(ss: seq<Shipment>)
    ensures CountStatus(ss, Delivered) + CountStatus(ss, InTransit) + CountStatus(ss, Planned) + CountNullStatus(ss) == |ss|
  {
    if ss != [] {
      StatusCountsAddUp(ss[1..]);
      var isNull := if ss[0].status.None? then 1 else 0;
      var isD := if ss[0].status == Some(Delivered) then 1 else 0;
      var isT := if ss[0].status == Some(InTransit) then 1 else 0;
      var isP := if ss[0].status == Some(Planned) then 1 else 0;
      assert CountNullStatus(ss) == isNull + CountNullStatus(ss[1..]);
      CountStatusCons(ss, Delivered);
      CountStatusCons(ss, InTransit);
      CountStatusCons(ss, Planned);
      assert isNull + isD + isT + isP == 1 by {
        match ss[0].status
        case None =>
        case Some(st) => assert st == Delivered || st == InTransit || st == Planned;
      }
    }
  }

  /** `client.company_name or "—"`: a missing or empty company name shows as a dash. */
  function CompanyLabel(companyName: Option<string>): (r: string)
    ensures r != ""
    ensures companyName.Some? && companyName.value != "" ==> r == companyName.value
    ensures companyName.None? || companyName.value == "" ==> r == "—"
  {
    match companyName
    case Some(name) => if name != "" then name else "—"
    case None => "—"
  }

  /** The figures of one client with shipments `cs`. */
  function ClientStatOf(price: Pricing, c: Client, cs: seq<Shipment>): ClientStat {
    var tot := SumFinance(price, cs);
    ClientStat(c.clientNumber, c.name, CompanyLabel(c.companyName), |cs|, PricedQuantity(price, cs),
               tot.revenue, tot.profit, MarginPercent(tot.profit, tot.revenue))
  }

  /** The per-client loop: clients without shipments are skipped, the rest keep their order. */
  function ClientStats(price: Pricing, ss: seq<Shipment>, clients: seq<Client>): (r: seq<ClientStat>)
    ensures |r| <= |clients|
    decreases |clients|
  {
    if clients == [] then []
    else
      var c := clients[|clients| - 1];
      var cs := ShipmentsOfClient(ss, c.id);
      ClientStats(price, ss, clients[..|clients| - 1]) + (if cs == [] then [] else [ClientStatOf(price, c, cs)])
  }

  /** The clients the dashboard lists: those with at least one shipment. */
  function ActiveClients(ss: seq<Shipment>, clients: seq<Client>): (r: seq<Client>)
    ensures forall c :: c in r <==> c in clients && ShipmentsOfClient(ss, c.id) != []
  {
    Filter(clients, (c: Client) => ShipmentsOfClient(ss, c.id) != [])
  }

  /** The list holds one entry per client with shipments, in client order, each with that client's figures. */
  lemma {:induction false} ClientStatsOfActiveClients(price: Pricing, ss: seq<Shipment>, clients: seq<Client>)
    ensures |ClientStats(price, ss, clients)| == |ActiveClients(ss, clients)|
    ensures forall i :: 0 <= i < |ClientStats(price, ss, clients)| ==>
      var c := ActiveClients(ss, clients)[i];
      ClientStats(price, ss, clients)[i] == ClientStatOf(price, c, ShipmentsOfClient(ss, c.id))
    decreases |clients|
  {
    if clients != [] {
      var init, c := clients[..|clients| - 1], clients[|clients| - 1];
      assert clients == init + [c];
      ClientStatsOfActiveClients(price, ss, init);
      FilterSnoc(init, c, (x: Client) => ShipmentsOfClient(ss, x.id) != []);
      var active, stats := ActiveClients(ss, init), ClientStats(price, ss, init);
      var cs := ShipmentsOfClient(ss, c.id);
      if cs == [] {
        assert ActiveClients(ss, clients) == active;
        assert ClientStats(price, ss, clients) == stats;
      } else {
        assert ActiveClients(ss, clients) == active + [c];
        assert ClientStats(price, ss, clients) == stats + [ClientStatOf(price, c, cs)];
      }
    }
  }

  /** Every listed client has at least one shipment. */
  lemma {:induction false} ListedClientsHaveShipments(price: Pricing, ss: seq<Shipment>, clients: seq<Client>)
    ensures forall st :: st in ClientStats(price, ss, clients) ==> st.shipmentsCount >= 1
    decreases |clients|
  {
    if clients != [] {
      var c := clients[|clients| - 1];
      ListedClientsHaveShipments(price, ss, clients[..|clients| - 1]);
      if ShipmentsOfClient(ss, c.id) != [] {
        assert |ShipmentsOfClient(ss, c.id)| >= 1;
      }
    }
  }

  /**
   * A client's dashboard entry agrees with the client report over an open
   * period on count, revenue, profit and margin; its volume leaves out the
   * unpriced shipments that the report's volume counts.
   */
  lemma ClientStatAgreesWithClientReport(price: Pricing, ss: seq<Shipment>, c: Client, f: Reports.DateFilter)
    requires forall s :: s in ss ==> ShipmentSchema.Conforms(s)
    ensures var cs := ShipmentsOfClient(ss, c.id);
      var st := ClientStatOf(price, c, cs);
      var reported := Reports.InRange(cs, Reports.Period(None, None), f);
      && st.shipmentsCount == |reported|
      && st.revenue == SumFinance(price, reported).revenue
      && st.profit == SumFinance(price, reported).profit
      && st.volume <= TotalQuantity(reported)
      && (st.volume == TotalQuantity(reported) <==> Priced(price, reported) == reported)
  {
    var cs := ShipmentsOfClient(ss, c.id);
    Reports.OpenPeriodKeepsEverything(cs, f);
    PricedQuantityAtMostTotal(price, cs);
  }

  predicate SortedByProfit(stats: seq<ClientStat>) {
    forall i, j :: 0 <= i < j < |stats| ==> stats[i].profit >= stats[j].profit
  }

  /** Places `x` after every entry of `sorted` whose profit is at least its own. */
  function InsertByProfit(x: ClientStat, sorted: seq<ClientStat>): (r: seq<ClientStat>)
    ensures |r| == |sorted| + 1
  {
    if sorted == [] then [x]
    else if sorted[0].profit >= x.profit then [sorted[0]] + InsertByProfit(x, sorted[1..])
    else [x] + sorted
  }

  /** `clients_stats.sort(key=lambda x: x["profit"], reverse=True)`: a stable sort, highest profit first. */
  function SortByProfit(stats: seq<ClientStat>): (r: seq<ClientStat>)
    ensures |r| == |stats|
    decreases |stats|
  {
    if stats == [] then [] else InsertByProfit(stats[|stats| - 1], SortByProfit(stats[..|stats| - 1]))
  }

  /** The entries with one given profit, in order. */
  function WithProfit(stats: seq<ClientStat>, profit: real): seq<ClientStat> {
    Filter(stats, (st: ClientStat) => st.profit == profit)
  }

  lemma {:induction false} InsertByProfitPermutes(x: ClientStat, sorted: seq<ClientStat>)
    ensures multiset(InsertByProfit(x, sorted)) == multiset(sorted) + multiset{x}
  {
    if sorted != [] && sorted[0].profit >= x.profit {
      InsertByProfitPermutes(x, sorted[1..]);
      assert sorted == [sorted[0]] + sorted[1..];
    }
  }

  lemma {:induction false} InsertByProfitSorted(x: ClientStat, sorted: seq<ClientStat>)
    requires SortedByProfit(sorted)
    ensures SortedByProfit(InsertByProfit(x, sorted))
  {
    if sorted != [] && sorted[0].profit >= x.profit {
      var rest := sorted[1..];
      var inserted := InsertByProfit(x, rest);
      InsertByProfitSorted(x, rest);
      InsertByProfitPermutes(x, rest);
      forall k | 0 <= k < |inserted|
        ensures sorted[0].profit >= inserted[k].profit
      {
        assert inserted[k] in multiset(inserted);
        if inserted[k] != x {
          assert inserted[k] in rest;
        }
      }
    }
  }

  lemma {:induction false} InsertByProfitStable(x: ClientStat, sorted: seq<ClientStat>, profit: real)
    requires SortedByProfit(sorted)
    ensures WithProfit(InsertByProfit(x, sorted), profit)
         == WithProfit(sorted, profit) + (if x.profit == profit then [x] else [])
    decreases |sorted|, 1
  {
    if sorted == [] {
    } else if sorted[0].profit >= x.profit {
      InsertAfterFirstStable(x, sorted, profit);
    } else {
      FilterConcat([x], sorted, (st: ClientStat) => st.profit == profit);
      assert WithProfit([x], profit) == (if x.profit == profit then [x] else []) + WithProfit([], profit);
      if x.profit == profit {
        ProfitAboveAll(sorted, profit);
      }
    }
  }

  lemma {:induction false} InsertAfterFirstStable(x: ClientStat, sorted: seq<ClientStat>, profit: real)
    requires SortedByProfit(sorted) && sorted != [] && sorted[0].profit >= x.profit
    ensures WithProfit(InsertByProfit(x, sorted), profit)
         == WithProfit(sorted, profit) + (if x.profit == profit then [x] else [])
    decreases |sorted|, 0
  {
    var first, rest := sorted[0], sorted[1..];
    assert sorted == [first] + rest;
    assert InsertByProfit(x, sorted) == [first] + InsertByProfit(x, rest);
    InsertByProfitStable(x, rest, profit);
    WithProfitCons(first, InsertByProfit(x, rest), profit);
    WithProfitCons(first, rest, profit);
  }

  lemma WithProfitCons(first: ClientStat, rest: seq<ClientStat>, profit: real)
    ensures WithProfit([first] + rest, profit) == (if first.profit == profit then [first] else []) + WithProfit(rest, profit)
  {
    assert ([first] + rest)[1..] == rest;
  }

  /** No entry of a list sorted by profit has a profit above its first one. */
  lemma {:induction false} ProfitAboveAll(sorted: seq<ClientStat>, profit: real)
    requires SortedByProfit(sorted)
    requires sorted != [] ==> sorted[0].profit < profit
    ensures WithProfit(sorted, profit) == []
  {
    if sorted != [] {
      if |sorted| > 1 {
        assert sorted[1..][0] == sorted[1];
      }
      ProfitAboveAll(sorted[1..], profit);
    }
  }

  /**
   * The dashboard's order: highest profit first, the same entries, and
   * entries with equal profit in the order the clients were listed.
   */
  lemma {:induction false} SortByProfitCorrect(stats: seq<ClientStat>)
    ensures SortedByProfit(SortByProfit(stats))
    ensures multiset(SortByProfit(stats)) == multiset(stats)
    ensures forall profit :: WithProfit(SortByProfit(stats), profit) == WithProfit(stats, profit)
    decreases |stats|
  {
    if stats != [] {
      var init, last := stats[..|stats| - 1], stats[|stats| - 1];
      assert stats == init + [last];
      SortByProfitCorrect(init);
      InsertByProfitSorted(last, SortByProfit(init));
      InsertByProfitPermutes(last, SortByProfit(init));
      forall profit
        ensures WithProfit(SortByProfit(stats), profit) == WithProfit(stats, profit)
      {
        InsertByProfitStable(last, SortByProfit(init), profit);
        FilterSnoc(init, last, (st: ClientStat) => st.profit == profit);
      }
    }
  }

  /** The overview block and the finance totals of `get_dashboard_stats`, which come before the client loop. */
  method DashboardHeadline(db: Database) returns (overview: Overview, finance: FinanceOverview)
    ensures overview == Overview(|db.clients|, |db.suppliers|, |db.shipments|,
      CountStatus(db.shipments, Delivered), CountStatus(db.shipments, InTransit), CountStatus(db.shipments, Planned))
    ensures var tot := SumFinance(PriceIn(db.Snapshot()), db.shipments);
      finance == FinanceOverview(tot.revenue, tot.costOfGoods, tot.expenses, tot.profit, MarginPercent(tot.profit, tot.revenue))
  {
    var price := PriceIn(db.Snapshot());
    overview := Overview(|db.clients|, |db.suppliers|, |db.shipments|,
      CountStatus(db.shipments, Delivered), CountStatus(db.shipments, InTransit), CountStatus(db.shipments, Planned));
    var tot := AccumulateTotals(price, db.shipments);
    var totalRevenue, totalCost, totalExpenses, totalProfit := tot.revenue, tot.costOfGoods, tot.expenses, tot.profit;
    var avgMargin := if totalRevenue > 0.0 then totalProfit / totalRevenue * 100.0 else 0.0;
    finance := FinanceOverview(totalRevenue, totalCost, totalExpenses, totalProfit, avgMargin);
  }

  /**
   * `GET /dashboard/` statistics, as `get_dashboard_stats` assembles them,
   * reading each client's number from the column the client-number
   * migration adds.
   */
  method GetDashboardStats(db: Database) returns (r: DashboardStats)
    ensures r.overview == Overview(|db.clients|, |db.suppliers|, |db.shipments|,
      CountStatus(db.shipments, Delivered), CountStatus(db.shipments, InTransit), CountStatus(db.shipments, Planned))
    ensures var tot := SumFinance(PriceIn(db.Snapshot()), db.shipments);
      r.finance == FinanceOverview(tot.revenue, tot.costOfGoods, tot.expenses, tot.profit, MarginPercent(tot.profit, tot.revenue))
    ensures r.clients == SortByProfit(ClientStats(PriceIn(db.Snapshot()), db.shipments, db.clients))
  {
    var overview, finance := DashboardHeadline(db);
    var clientsStats := CollectClientStats(PriceIn(db.Snapshot()), db.shipments, db.clients);
    clientsStats := SortByProfit(clientsStats);
    r := DashboardStats(overview, finance, clientsStats);
  }

  /**
   * The client loop against the ORM class for clients, which has no
   * `client_number`: building the entry of the first client with shipments
   * reads the missing attribute and raises, so the loop fails exactly when
   * some client has shipments and otherwise lists nobody.
   */
  method CollectClientStatsAsWritten(allShipments: seq<Shipment>, clients: seq<Client>)
    returns (r: Result<seq<ClientStat>, HttpError>)
    ensures r.Failure? <==> ActiveClients(allShipments, clients) != []
    ensures r.Failure? ==> r.error == InternalServerError
    ensures r.Success? ==> r.value == []
  {
    for k := 0 to |clients|
      invariant ActiveClients(allShipments, clients[..k]) == []
    {
      if ShipmentsOfClient(allShipments, clients[k].id) != [] {
        assert clients[k] in ActiveClients(allShipments, clients);
        return Failure(InternalServerError);
      }
      assert clients[..k + 1] == clients[..k] + [clients[k]];
      FilterSnoc(clients[..k], clients[k], (c: Client) => ShipmentsOfClient(allShipments, c.id) != []);
    }
    assert clients[..|clients|] == clients;
    r := Success([]);
  }

  /**
   * `get_dashboard_stats` against the ORM class as it stands: a 500 exactly
   * when the corrected statistics would list a client; otherwise the same
   * statistics as `GetDashboardStats`.
   */
  method GetDashboardStatsAsWritten(db: Database) returns (r: Result<DashboardStats, HttpError>)
    ensures r.Failure? <==> ClientStats(PriceIn(db.Snapshot()), db.shipments, db.clients) != []
    ensures r.Failure? ==> r.error == InternalServerError
    ensures r.Success? ==> r.value.overview == Overview(|db.clients|, |db.suppliers|, |db.shipments|,
      CountStatus(db.shipments, Delivered), CountStatus(db.shipments, InTransit), CountStatus(db.shipments, Planned))
    ensures r.Success? ==> var tot := SumFinance(PriceIn(db.Snapshot()), db.shipments);
      r.value.finance == FinanceOverview(tot.revenue, tot.costOfGoods, tot.expenses, tot.profit, MarginPercent(tot.profit, tot.revenue))
    ensures r.Success? ==> r.value.clients == SortByProfit(ClientStats(PriceIn(db.Snapshot()), db.shipments, db.clients)) == []
  {
    var overview, finance := DashboardHeadline(db);
    ClientStatsOfActiveClients(PriceIn(db.Snapshot()), db.shipments, db.clients);
    var clientsStats := CollectClientStatsAsWritten(db.shipments, db.clients);
    if clientsStats.Failure? {
      return Failure(clientsStats.error);
    }
    r := Success(DashboardStats(overview, finance, SortByProfit(clientsStats.value)));
  }

  /**
   * One client with one shipment: the corrected statistics list that client,
   * so the statistics as written answer 500.
   */
  lemma OneClientShipmentBreaksDashboard(price: Pricing, s: Shipment, c: Client)
    requires s.clientId == c.id
    ensures ActiveClients([s], [c]) == [c]
    ensures |ClientStats(price, [s], [c])| == 1
  {
    assert ShipmentsOfClient([s], c.id) == [s];
    assert [c][..0] == [];
  }

  /** The outer loop of the per-client statistics: one row per client that has shipments, in client order. */
  method CollectClientStats(price: Pricing, allShipments: seq<Shipment>, clients: seq<Client>) returns (clientsStats: seq<ClientStat>)
    ensures clientsStats == ClientStats(price, allShipments, clients)
  {
    clientsStats := [];
    for k := 0 to |clients|
      invariant clientsStats == ClientStats(price, allShipments, clients[..k])
    {
      assert clients[..k + 1][..k] == clients[..k];
      var client := clients[k];
      var clientShipments := ShipmentsOfClient(allShipments, client.id);
      if clientShipments != [] {
        var stat := ClientFigures(price, client, clientShipments);
        clientsStats := clientsStats + [stat];
      }
    }
    assert clients[..|clients|] == clients;
  }

  /** The inner loop of the per-client statistics: a shipment adds to the volume only when it could be priced. */
  method ClientFigures(price: Pricing, client: Client, clientShipments: seq<Shipment>) returns (stat: ClientStat)
    ensures stat == ClientStatOf(price, client, clientShipments)
  {
    var clientRevenue, clientProfit, clientVolume := 0.0, 0.0, 0.0;
    for j := 0 to |clientShipments|
      invariant clientRevenue == SumFinance(price, clientShipments[..j]).revenue
      invariant clientProfit == SumFinance(price, clientShipments[..j]).profit
      invariant clientVolume == PricedQuantity(price, clientShipments[..j])
    {
      SumFinancePrefix(price, clientShipments, j);
      assert clientShipments[..j + 1][..j] == clientShipments[..j];
      var finance := price(clientShipments[j]);
      if finance.Success? {
        clientRevenue := clientRevenue + finance.value.revenue;
        clientProfit := clientProfit + finance.value.profit;
        clientVolume := clientVolume + clientShipments[j].quantity;
      }
    }
    assert clientShipments[..|clientShipments|] == clientShipments;
    var clientMargin := if clientRevenue > 0.0 then clientProfit / clientRevenue * 100.0 else 0.0;
    stat := ClientStat(client.clientNumber, client.name, CompanyLabel(client.companyName), |clientShipments|,
                       clientVolume, clientRevenue, clientProfit, clientMargin);
  }

  /** The margin badge of a client row. */
  datatype Badge = Excellent | Good | LowMargin

  function MarginBadge(marginPercent: real): (b: Badge)
    ensures b == Excellent <==> marginPercent > 30.0
    ensures b == Good <==> 15.0 < marginPercent <= 30.0
    ensures b == LowMargin <==> marginPercent <= 15.0
  {
    if marginPercent > 30.0 then Excellent
    else if marginPercent > 15.0 then Good
    else LowMargin
  }

  function BadgeClass(b: Badge): string {
    match b
    case Excellent => "badge-success"
    case Good => "badge-warning"
    case LowMargin => "badge-danger"
  }

  function BadgeText(b: Badge): string {
    match b
    case Excellent => "Отлично"
    case Good => "Хорошо"
    case LowMargin => "Низкая маржа"
  }

  function BadgeRank(b: Badge): nat {
    match b
    case LowMargin => 0
    case Good => 1
    case Excellent => 2
  }

  /** A higher margin never earns a worse badge. */
  lemma BadgeMonotone(m1: real, m2: real)
    requires m1 <= m2
    ensures BadgeRank(MarginBadge(m1)) <= BadgeRank(MarginBadge(m2))
  {
  }

  /** The profit cell is styled positive exactly when the profit is above zero; zero shows as negative. */
  function ProfitClass(profit: real): (c: string)
    ensures c == "positive" <==> profit > 0.0
    ensures c == "negative" <==> profit <= 0.0
  {
    if profit > 0.0 then "positive" else "negative"
  }

  /** The dashboard's overall figures are the summary report's over an open period. */
  lemma OverviewAgreesWithSummaryReport(t: Tables, f: Reports.DateFilter)
    ensures var reported := Reports.InRange(t.shipments, Reports.Period(None, None), f);
      && |reported| == |t.shipments|
      && SumFinance(PriceIn(t), reported) == SumFinance(PriceIn(t), t.shipments)
  {
    Reports.OpenPeriodKeepsEverything(t.shipments, f);
  }
}
