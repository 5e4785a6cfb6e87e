/**
 * The report endpoints: a period filter on `created_at`, then the
 * best-effort finance totals over the shipments it keeps, overall, for one
 * client or for one supplier.
 */
module Reports {
  import opened Wrappers
  import opened Models
  import opened Queries
  import opened Storage
  import opened Finance
  import opened Aggregation

  /** The optional `date_from` / `date_to` query parameters, both documented as inclusive. */
  datatype Period = Period(dateFrom: Option<Date>, dateTo: Option<Date>)

  /**
   * The filter as the routers write it: `created_at <= date_to` compares a
   * timestamp with a date, that is with midnight at the start of `date_to`.
   */
  predicate InPeriodAsWritten(createdAt: Timestamp, p: Period) {
    && (p.dateFrom.Some? ==> createdAt >= DayStart(p.dateFrom.value))
    && (p.dateTo.Some? ==> createdAt <= DayStart(p.dateTo.value))
  }

  /** The inclusive period: every instant of the first day through every instant of the last. */
  predicate InPeriod(createdAt: Timestamp, p: Period) {
    && (p.dateFrom.Some? ==> createdAt >= DayStart(p.dateFrom.value))
    && (p.dateTo.Some? ==> createdAt < DayStart(p.dateTo.value + 1))
  }

  /** A shipment is in the period exactly when the day it was created on lies between the two dates. */
  lemma InPeriodIsDayRange(createdAt: Timestamp, p: Period)
    ensures InPeriod(createdAt, p) <==>
      && (p.dateFrom.Some? ==> p.dateFrom.value <= DayOf(createdAt))
      && (p.dateTo.Some? ==> DayOf(createdAt) <= p.dateTo.value)
  {
    var d := DayOf(createdAt);
    DayBounds(createdAt);
    if p.dateFrom.Some? {
      if p.dateFrom.value <= d {
        DayStartMonotone(p.dateFrom.value, d);
      } else {
        DayStartMonotone(d + 1, p.dateFrom.value);
      }
    }
    if p.dateTo.Some? {
      if d <= p.dateTo.value {
        DayStartMonotone(d + 1, p.dateTo.value + 1);
      } else {
        DayStartMonotone(p.dateTo.value + 1, d);
      }
    }
  }

  /** A timestamp lies between the start of its day and the start of the next. */
  lemma DayBounds(createdAt: Timestamp)
    ensures DayStart(DayOf(createdAt)) <= createdAt < DayStart(DayOf(createdAt) + 1)
  {
    var d, m := createdAt / SecondsPerDay, createdAt % SecondsPerDay;
    assert createdAt == d * SecondsPerDay + m && 0 <= m < SecondsPerDay;
    assert DayStart(d + 1) == d * SecondsPerDay + SecondsPerDay;
  }

  lemma DayStartMonotone(a: Date, b: Date)
    requires a <= b
    ensures DayStart(a) <= DayStart(b)
  {
  }

  /** A shipment created one second after midnight of the end date is left out of a one-day period. */
  lemma AsWrittenMissesTheEndDay(d: Date)
    ensures var createdAt := DayStart(d) + 1;
      && DayOf(createdAt) == d
      && InPeriod(createdAt, Period(Some(d), Some(d)))
      && !InPeriodAsWritten(createdAt, Period(Some(d), Some(d)))
  {
    assert DayStart(d + 1) == DayStart(d) + SecondsPerDay;
  }

  /** The filter as written only ever loses shipments; it never admits one outside the period. */
  lemma AsWrittenWithinPeriod(createdAt: Timestamp, p: Period)
    ensures InPeriodAsWritten(createdAt, p) ==> InPeriod(createdAt, p)
  {
    if p.dateTo.Some? {
      assert DayStart(p.dateTo.value + 1) == DayStart(p.dateTo.value) + SecondsPerDay;
    }
  }

  /**
   * The end-of-period comparison a report applies: `AsWritten` is the
   * routers' `created_at <= date_to`, `WholeDays` the inclusive end date
   * the query parameters document.
   */
  datatype DateFilter = AsWritten | WholeDays

  predicate Keeps(f: DateFilter, createdAt: Timestamp, p: Period) {
    match f
    case AsWritten => InPeriodAsWritten(createdAt, p)
    case WholeDays => InPeriod(createdAt, p)
  }

  /** `query.filter(created_at >= date_from).filter(created_at <= date_to)`, under filter `f`. */
  function InRange(ss: seq<Shipment>, p: Period, f: DateFilter): (r: seq<Shipment>)
    ensures forall s :: s in r <==> s in ss && Keeps(f, s.createdAt, p)
  {
    Filter(ss, (s: Shipment) => Keeps(f, s.createdAt, p))
  }

  /** The routers' filter keeps a subset of what the inclusive filter keeps. */
  lemma AsWrittenRangeWithinWholeDays(ss: seq<Shipment>, p: Period)
    ensures forall s :: s in InRange(ss, p, AsWritten) ==> s in InRange(ss, p, WholeDays)
  {
    forall s | s in InRange(ss, p, AsWritten)
      ensures s in InRange(ss, p, WholeDays)
    {
      AsWrittenWithinPeriod(s.createdAt, p);
    }
  }

  /**
   * On a one-day period, a shipment created one second after midnight is
   * counted by the inclusive filter and missed by the routers' filter.
   */
  lemma AsWrittenReportMissesEndDayShipment(s: Shipment, d: Date)
    requires s.createdAt == DayStart(d) + 1
    ensures |InRange([s], Period(Some(d), Some(d)), AsWritten)| == 0
    ensures |InRange([s], Period(Some(d), Some(d)), WholeDays)| == 1
  {
    AsWrittenMissesTheEndDay(d);
    assert [s][1..] == [];
  }

  datatype SummaryReport = SummaryReport(
    period: Period,
    shipmentsCount: nat,
    totalRevenue: real,
    totalCostOfGoods: real,
    totalExpenses: real,
    totalProfit: real,
    averageMarginPercent: real)

  datatype ClientReport = ClientReport(
    clientId: Id,
    period: Period,
    shipmentsCount: nat,
    totalVolume: real,
    totalRevenue: real,
    totalProfit: real,
    averageMarginPercent: real)

  /** The supplier report carries no margin. */
  datatype SupplierReport = SupplierReport(
    supplierId: Id,
    period: Period,
    shipmentsCount: nat,
    totalVolume: real,
    totalCostOfGoods: real,
    totalRevenue: real)

  /**
   * `GET /reports/summary`: every shipment of the period is counted; the
   * totals are those of the ones that could be priced. The router as
   * written is `filter == AsWritten`; `WholeDays` is the corrected filter.
   */
  method GetSummaryReport(db: Database, period: Period, filter: DateFilter) returns (r: SummaryReport)
    ensures r.period == period
    ensures r.shipmentsCount == |InRange(db.shipments, period, filter)|
    ensures var tot := SumFinance(PriceIn(db.Snapshot()), InRange(db.shipments, period, filter));
      && r.totalRevenue == tot.revenue && r.totalCostOfGoods == tot.costOfGoods
      && r.totalExpenses == tot.expenses && r.totalProfit == tot.profit
    ensures r.averageMarginPercent == MarginPercent(r.totalProfit, r.totalRevenue)
  {
    var price := PriceIn(db.Snapshot());
    var shipments := InRange(db.shipments, period, filter);
    var shipmentCount := |shipments|;
    var tot := AccumulateTotals(price, shipments);
    var totalRevenue, totalCost, totalExpenses, totalProfit := tot.revenue, tot.costOfGoods, tot.expenses, tot.profit;
    var avgMargin := if totalRevenue > 0.0 then totalProfit / totalRevenue * 100.0 else 0.0;
    r := SummaryReport(period, shipmentCount, totalRevenue, totalCost, totalExpenses, totalProfit, avgMargin);
  }

  /**
   * `GET /reports/by-client/{client_id}`: the volume sums the quantity of
   * every shipment of the client in the period, priced or not.
   */
  method GetClientReport(db: Database, clientId: Id, period: Period, filter: DateFilter) returns (r: ClientReport)
    ensures r.clientId == clientId && r.period == period
    ensures var ss := InRange(ShipmentsOfClient(db.shipments, clientId), period, filter);
      && r.shipmentsCount == |ss|
      && r.totalVolume == TotalQuantity(ss)
      && r.totalRevenue == SumFinance(PriceIn(db.Snapshot()), ss).revenue
      && r.totalProfit == SumFinance(PriceIn(db.Snapshot()), ss).profit
    ensures r.averageMarginPercent == MarginPercent(r.totalProfit, r.totalRevenue)
  {
    var price := PriceIn(db.Snapshot());
    var shipments := InRange(ShipmentsOfClient(db.shipments, clientId), period, filter);
    var totalVolume := AccumulateQuantity(shipments);
    var tot := AccumulateTotals(price, shipments);
    var totalRevenue, totalProfit := tot.revenue, tot.profit;
    var avgMargin := if totalRevenue > 0.0 then totalProfit / totalRevenue * 100.0 else 0.0;
    r := ClientReport(clientId, period, |shipments|, totalVolume, totalRevenue, totalProfit, avgMargin);
  }

  /** `GET /reports/by-supplier/{supplier_id}`: volume, cost of goods and revenue, without a margin. */
  method GetSupplierReport(db: Database, supplierId: Id, period: Period, filter: DateFilter) returns (r: SupplierReport)
    ensures r.supplierId == supplierId && r.period == period
    ensures var ss := InRange(ShipmentsOfSupplier(db.shipments, supplierId), period, filter);
      && r.shipmentsCount == |ss|
      && r.totalVolume == TotalQuantity(ss)
      && r.totalCostOfGoods == SumFinance(PriceIn(db.Snapshot()), ss).costOfGoods
      && r.totalRevenue == SumFinance(PriceIn(db.Snapshot()), ss).revenue
  {
    var price := PriceIn(db.Snapshot());
    var shipments := InRange(ShipmentsOfSupplier(db.shipments, supplierId), period, filter);
    var totalVolume := AccumulateQuantity(shipments);
    var tot := AccumulateTotals(price, shipments);
    var totalCost, totalRevenue := tot.costOfGoods, tot.revenue;
    r := SupplierReport(supplierId, period, |shipments|, totalVolume, totalCost, totalRevenue);
  }

  /** Without bounds the period keeps every shipment. */
  lemma OpenPeriodKeepsEverything(ss: seq<Shipment>, f: DateFilter)
    ensures InRange(ss, Period(None, None), f) == ss
  {
    if ss != [] {
      OpenPeriodKeepsEverything(ss[1..], f);
    }
  }

  /** A client's shipments of a period split the summary of that period by client: no shipment counts twice. */
  lemma {:induction false} ClientReportsPartitionSummary(ss: seq<Shipment>, p: Period, f: DateFilter, clientId: Id, other: Id)
    requires clientId != other
    ensures forall s :: s in InRange(ShipmentsOfClient(ss, clientId), p, f) ==> s !in InRange(ShipmentsOfClient(ss, other), p, f)
    ensures forall s :: s in InRange(ShipmentsOfClient(ss, clientId), p, f) ==> s in InRange(ss, p, f)
  {
  }
}
