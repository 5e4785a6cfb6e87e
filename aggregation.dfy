/**
 * The best-effort loop that the reports and the dashboard share: the
 * finance figures of a sequence of shipments are summed, and a shipment
 * whose figures cannot be calculated is skipped (`except Exception: continue`).
 *
 * The loop is stated over a pricing function, the finance service applied
 * to one database state (`PriceIn`), so that its laws do not depend on how
 * a single shipment is priced.
 */
module Aggregation {
  import opened Wrappers
  import opened Models
  import opened Queries
  import opened Storage
  import opened Finance
  import ShipmentSchema

  type Pricing = Shipment -> Result<Finance, FinanceError>

  /** `calculate_shipment_finance(shipment.id, db)` for the shipments of one state of the database. */
  function PriceIn(t: Tables): Pricing {
    (s: Shipment) => CalculateShipmentFinance(t, s.id)
  }

  datatype Totals = Totals(revenue: real, costOfGoods: real, expenses: real, profit: real)

  const NoTotals := Totals(0.0, 0.0, 0.0, 0.0)

  function Plus(a: Totals, b: Totals): Totals {
    Totals(a.revenue + b.revenue, a.costOfGoods + b.costOfGoods, a.expenses + b.expenses, a.profit + b.profit)
  }

  function AsTotals(f: Finance): Totals {
    Totals(f.revenue, f.costOfGoods, f.totalExpenses, f.profit)
  }

  /** What one shipment adds to the running totals. */
  function Contribution(price: Pricing, s: Shipment): Totals {
    match price(s)
    case Success(f) => AsTotals(f)
    case Failure(_) => NoTotals
  }

  /** The totals after the loop has visited `ss` from first to last. */
  function SumFinance(price: Pricing, ss: seq<Shipment>): Totals
    decreases |ss|
  {
    if ss == [] then NoTotals else Plus(SumFinance(price, ss[..|ss| - 1]), Contribution(price, ss[|ss| - 1]))
  }

  /**
   * The loop `for shipment in shipments: try: finance = ...; total_x += finance[x] ...
   * except Exception: continue`, with its four running totals.
   */
  method AccumulateTotals(price: Pricing, shipments: seq<Shipment>) returns (tot: Totals)
    ensures tot == SumFinance(price, shipments)
  {
    var totalRevenue, totalCost, totalExpenses, totalProfit := 0.0, 0.0, 0.0, 0.0;
    for i := 0 to |shipments|
      invariant totalRevenue == SumFinance(price, shipments[..i]).revenue
      invariant totalCost == SumFinance(price, shipments[..i]).costOfGoods
      invariant totalExpenses == SumFinance(price, shipments[..i]).expenses
      invariant totalProfit == SumFinance(price, shipments[..i]).profit
    {
      SumFinancePrefix(price, shipments, i);
      var finance := price(shipments[i]);
      if finance.Success? {
        totalRevenue := totalRevenue + finance.value.revenue;
        totalCost := totalCost + finance.value.costOfGoods;
        totalExpenses := totalExpenses + finance.value.totalExpenses;
        totalProfit := totalProfit + finance.value.profit;
      }
    }
    assert shipments[..|shipments|] == shipments;
    tot := Totals(totalRevenue, totalCost, totalExpenses, totalProfit);
  }

  /** The volume loop `total_volume += shipment.quantity` over every shipment, priced or not. */
  method AccumulateQuantity(shipments: seq<Shipment>) returns (totalVolume: real)
    ensures totalVolume == TotalQuantity(shipments)
  {
    totalVolume := 0.0;
    for i := 0 to |shipments|
      invariant totalVolume == TotalQuantity(shipments[..i])
    {
      assert shipments[..i + 1][..i] == shipments[..i];
      totalVolume := totalVolume + shipments[i].quantity;
    }
    assert shipments[..|shipments|] == shipments;
  }

  /** The shipments whose figures can be calculated. */
  function Priced(price: Pricing, ss: seq<Shipment>): (r: seq<Shipment>)
    ensures forall s :: s in r <==> s in ss && price(s).Success?
  {
    Filter(ss, (s: Shipment) => price(s).Success?)
  }

  /** `sum(shipment.quantity for shipment in shipments)`. */
  function TotalQuantity(ss: seq<Shipment>): real
    decreases |ss|
  {
    if ss == [] then 0.0 else TotalQuantity(ss[..|ss| - 1]) + ss[|ss| - 1].quantity
  }

  /** The quantities of the priced shipments only, as the dashboard's per-client loop adds them. */
  function PricedQuantity(price: Pricing, ss: seq<Shipment>): real
    decreases |ss|
  {
    if ss == [] then 0.0
    else PricedQuantity(price, ss[..|ss| - 1]) + (if price(ss[|ss| - 1]).Success? then ss[|ss| - 1].quantity else 0.0)
  }

  /** One more pass of the loop. */
  lemma SumFinancePrefix(price: Pricing, ss: seq<Shipment>, i: nat)
    requires i < |ss|
    ensures SumFinance(price, ss[..i + 1]) == Plus(SumFinance(price, ss[..i]), Contribution(price, ss[i]))
  {
    assert ss[..i + 1][..i] == ss[..i];
  }

  lemma PlusAssociative(a: Totals, b: Totals, c: Totals)
    ensures Plus(Plus(a, b), c) == Plus(a, Plus(b, c))
  {
  }

  lemma {:induction false} SumFinanceConcat(price: Pricing, a: seq<Shipment>, b: seq<Shipment>)
    ensures SumFinance(price, a + b) == Plus(SumFinance(price, a), SumFinance(price, b))
    decreases |b|
  {
    if b == [] {
      assert a + b == a;
    } else {
      var b', last := b[..|b| - 1], b[|b| - 1];
      assert (a + b)[..|a + b| - 1] == a + b';
      assert (a + b)[|a + b| - 1] == last;
      calc {
        SumFinance(price, a + b);
        Plus(SumFinance(price, a + b'), Contribution(price, last));
        { SumFinanceConcat(price, a, b'); }
        Plus(Plus(SumFinance(price, a), SumFinance(price, b')), Contribution(price, last));
        { PlusAssociative(SumFinance(price, a), SumFinance(price, b'), Contribution(price, last)); }
        Plus(SumFinance(price, a), Plus(SumFinance(price, b'), Contribution(price, last)));
        Plus(SumFinance(price, a), SumFinance(price, b));
      }
    }
  }

  lemma SumFinanceCons(price: Pricing, s: Shipment, rest: seq<Shipment>)
    ensures SumFinance(price, [s] + rest) == Plus(Contribution(price, s), SumFinance(price, rest))
  {
    SumFinanceConcat(price, [s], rest);
    assert [s][..0] == [];
  }

  /** Skipping a failed shipment is the same as leaving it out of the query. */
  lemma {:induction false} FailuresContributeNothing(price: Pricing, ss: seq<Shipment>)
    ensures SumFinance(price, ss) == SumFinance(price, Priced(price, ss))
  {
    if ss != [] {
      var x, rest := ss[0], ss[1..];
      var head := if price(x).Success? then [x] else [];
      assert ss == [x] + rest;
      assert Priced(price, ss) == head + Priced(price, rest);
      SumFinanceCons(price, x, rest);
      FailuresContributeNothing(price, rest);
      SumFinanceConcat(price, head, Priced(price, rest));
      if head != [] {
        assert head[..0] == [];
      }
    }
  }

  /** The reported count includes the shipments the totals had to skip. */
  lemma {:induction false} CountIncludesUnpriced(price: Pricing, ss: seq<Shipment>, failed: Shipment)
    requires failed in ss && price(failed).Failure?
    ensures |Priced(price, ss)| < |ss|
  {
    assert ss == [ss[0]] + ss[1..];
    if ss[0] != failed {
      CountIncludesUnpriced(price, ss[1..], failed);
    }
  }

  /** Every price the finance service gives keeps the profit identity. */
  ghost predicate KeepsProfitIdentity(price: Pricing) {
    forall s :: price(s).Success? ==>
      price(s).value.profit == price(s).value.revenue - price(s).value.costOfGoods - price(s).value.totalExpenses
  }

  lemma PriceInKeepsProfitIdentity(t: Tables)
    ensures KeepsProfitIdentity(PriceIn(t))
  {
    forall s | PriceIn(t)(s).Success?
      ensures PriceIn(t)(s).value.profit
           == PriceIn(t)(s).value.revenue - PriceIn(t)(s).value.costOfGoods - PriceIn(t)(s).value.totalExpenses
    {
      CalculateShipmentFinanceSpec(t, s.id);
    }
  }

  /** The summed profit is the summed revenue less the summed cost and expenses. */
  lemma {:induction false} ProfitIdentity(price: Pricing, ss: seq<Shipment>)
    requires KeepsProfitIdentity(price)
    ensures var tot := SumFinance(price, ss); tot.profit == tot.revenue - tot.costOfGoods - tot.expenses
    decreases |ss|
  {
    if ss != [] {
      ProfitIdentity(price, ss[..|ss| - 1]);
    }
  }

  /** The bounds the finance service keeps on rows that meet their schemas. */
  predicate Bounded(f: Finance) {
    f.revenue > 0.0 && f.costOfGoods > 0.0 && f.totalExpenses >= 0.0 && f.profit < f.revenue
  }

  ghost predicate BoundedPricing(price: Pricing) {
    forall s :: price(s).Success? ==> Bounded(price(s).value)
  }

  lemma ConformingPricingIsBounded(t: Tables)
    requires ConformsToSchemas(t)
    ensures BoundedPricing(PriceIn(t))
  {
    forall s | PriceIn(t)(s).Success?
      ensures Bounded(PriceIn(t)(s).value)
    {
      ConformingFinanceBounds(t, s.id);
    }
  }

  /**
   * Under bounded prices the totals are not negative, the profit never
   * exceeds the revenue, and both are strict as soon as one shipment is
   * priced.
   */
  lemma {:induction false} BoundedTotals(price: Pricing, ss: seq<Shipment>)
    requires BoundedPricing(price)
    ensures var tot := SumFinance(price, ss);
      && tot.revenue >= 0.0 && tot.costOfGoods >= 0.0 && tot.expenses >= 0.0
      && tot.profit <= tot.revenue
      && (Priced(price, ss) != [] <==> tot.revenue > 0.0)
      && (Priced(price, ss) != [] ==> tot.profit < tot.revenue)
    decreases |ss|
  {
    if ss != [] {
      var init, last := ss[..|ss| - 1], ss[|ss| - 1];
      BoundedTotals(price, init);
      assert ss == init + [last];
      FilterSnoc(init, last, (s: Shipment) => price(s).Success?);
    }
  }

  /** Over rows that meet their schemas the margin of the totals stays below 100%. */
  lemma ConformingAverageMargin(t: Tables, ss: seq<Shipment>)
    requires ConformsToSchemas(t)
    ensures MarginPercent(SumFinance(PriceIn(t), ss).profit, SumFinance(PriceIn(t), ss).revenue) < 100.0
  {
    ConformingPricingIsBounded(t);
    BoundedTotals(PriceIn(t), ss);
    MarginBelowHundred(SumFinance(PriceIn(t), ss).profit, SumFinance(PriceIn(t), ss).revenue);
  }

  lemma {:induction false} TotalQuantityConcat(a: seq<Shipment>, b: seq<Shipment>)
    ensures TotalQuantity(a + b) == TotalQuantity(a) + TotalQuantity(b)
    decreases |b|
  {
    if b == [] {
      assert a + b == a;
    } else {
      var b' := b[..|b| - 1];
      assert (a + b)[..|a + b| - 1] == a + b';
      assert (a + b)[|a + b| - 1] == b[|b| - 1];
      TotalQuantityConcat(a, b');
    }
  }

  /** The dashboard's volume is the report's volume taken over the priced shipments only. */
  lemma {:induction false} PricedQuantityIsQuantityOfPriced(price: Pricing, ss: seq<Shipment>)
    ensures PricedQuantity(price, ss) == TotalQuantity(Priced(price, ss))
    decreases |ss|
  {
    if ss != [] {
      var init, last := ss[..|ss| - 1], ss[|ss| - 1];
      assert ss == init + [last];
      PricedQuantityIsQuantityOfPriced(price, init);
      FilterSnoc(init, last, (s: Shipment) => price(s).Success?);
      var p := Priced(price, init);
      if price(last).Success? {
        assert Priced(price, ss) == p + [last];
        assert (p + [last])[..|p|] == p;
      } else {
        assert Priced(price, ss) == p;
      }
    }
  }

  /** For conforming shipments, leaving out the unpriced ones can only lower the volume. */
  lemma {:induction false} PricedQuantityAtMostTotal(price: Pricing, ss: seq<Shipment>)
    requires forall s :: s in ss ==> ShipmentSchema.Conforms(s)
    ensures PricedQuantity(price, ss) <= TotalQuantity(ss)
    ensures PricedQuantity(price, ss) == TotalQuantity(ss) <==> Priced(price, ss) == ss
    decreases |ss|
  {
    if ss != [] {
      var init, last := ss[..|ss| - 1], ss[|ss| - 1];
      assert ss == init + [last];
      assert forall s :: s in init ==> s in ss;
      assert last in ss;
      PricedQuantityAtMostTotal(price, init);
      FilterSnoc(init, last, (s: Shipment) => price(s).Success?);
    }
  }
}
