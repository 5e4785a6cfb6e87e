/**
 * The finance service: revenue, cost of goods, expenses, profit and margin
 * of one shipment, derived from its rate and its expenses.
 */
module Finance {
  import opened Wrappers
  import opened Models
  import opened Queries
  import opened Storage
  import ShipmentSchema
  import RateSchema
  import ExpenseSchema

  datatype Finance = Finance(
    revenue: real,
    costOfGoods: real,
    totalExpenses: real,
    profit: real,
    marginPercent: real)

  /** The two `ValueError`s the service raises. */
  datatype FinanceError = ShipmentNotFound(shipmentId: Id) | RateNotFound(rateId: Id)

  function SumAmounts(es: seq<Expense>): real {
    if es == [] then 0.0 else es[0].amount + SumAmounts(es[1..])
  }

  /** `func.sum(Expense.amount)` over one shipment's expenses, with SQL's empty sum read as 0. */
  function TotalExpenses(es: seq<Expense>, shipmentId: Id): real {
    SumAmounts(ExpensesOf(es, shipmentId))
  }

  /** `profit / revenue * 100`, and 0 whenever revenue is not positive. */
  function MarginPercent(profit: real, revenue: real): real {
    if revenue > 0.0 then profit / revenue * 100.0 else 0.0
  }

  /** The margin is the percentage of revenue that the profit makes up, and 0 without revenue. */
  lemma MarginPercentSpec(profit: real, revenue: real)
    ensures revenue <= 0.0 ==> MarginPercent(profit, revenue) == 0.0
    ensures revenue > 0.0 ==> MarginPercent(profit, revenue) * revenue == profit * 100.0
  {
  }

  /** How the five figures of a shipment priced at `rate` with expenses `expenses` relate. */
  predicate PricedAs(f: Finance, quantity: real, rate: Rate, expenses: real) {
    && f.revenue == quantity * rate.sellRate
    && f.costOfGoods == quantity * rate.buyRate
    && f.totalExpenses == expenses
    && f.profit == f.revenue - f.costOfGoods - f.totalExpenses
    && f.marginPercent == MarginPercent(f.profit, f.revenue)
  }

  function CalculateShipmentFinance(t: Tables, shipmentId: Id): Result<Finance, FinanceError>
  {
    match ShipmentById(t.shipments, shipmentId)
    case None => Failure(ShipmentNotFound(shipmentId))
    case Some(s) =>
      match RateById(t.rates, s.rateId)
      case None => Failure(RateNotFound(s.rateId))
      case Some(rate) =>
        var revenue := s.quantity * rate.sellRate;
        var costOfGoods := s.quantity * rate.buyRate;
        var totalExpenses := TotalExpenses(t.expenses, shipmentId);
        var profit := revenue - costOfGoods - totalExpenses;
        Success(Finance(revenue, costOfGoods, totalExpenses, profit, MarginPercent(profit, revenue)))
  }

  /**
   * A missing shipment and a shipment whose rate is missing are the two
   * errors; otherwise the figures are priced at the shipment's rate, with
   * the sum of that shipment's expenses.
   */
  lemma CalculateShipmentFinanceSpec(t: Tables, shipmentId: Id)
    ensures var r := CalculateShipmentFinance(t, shipmentId);
      && (ShipmentById(t.shipments, shipmentId).None? <==> r == Failure(ShipmentNotFound(shipmentId)))
      && (ShipmentById(t.shipments, shipmentId).Some? ==>
            var s := ShipmentById(t.shipments, shipmentId).value;
            && (RateById(t.rates, s.rateId).None? <==> r == Failure(RateNotFound(s.rateId)))
            && (RateById(t.rates, s.rateId).Some? ==>
                  r.Success? && PricedAs(r.value, s.quantity, RateById(t.rates, s.rateId).value, SumAmounts(ExpensesOf(t.expenses, shipmentId)))))
  {
  }

  /** The shipment's own columns together with its finance figures. */
  datatype ShipmentWithFinance = ShipmentWithFinance(shipment: Shipment, finance: Finance)

  function CalculateShipmentWithFinance(t: Tables, s: Shipment): (r: Result<ShipmentWithFinance, FinanceError>)
    ensures r.Success? <==> CalculateShipmentFinance(t, s.id).Success?
    ensures r.Success? ==> r.value.shipment == s && r.value.finance == CalculateShipmentFinance(t, s.id).value
    ensures r.Failure? ==> r.error == CalculateShipmentFinance(t, s.id).error
  {
    match CalculateShipmentFinance(t, s.id)
    case Failure(e) => Failure(e)
    case Success(f) => Success(ShipmentWithFinance(s, f))
  }

  lemma {:induction false} SumAmountsConcat(a: seq<Expense>, b: seq<Expense>)
    ensures SumAmounts(a + b) == SumAmounts(a) + SumAmounts(b)
  {
    if a == [] {
      assert a + b == b;
    } else {
      assert (a + b)[1..] == a[1..] + b;
      SumAmountsConcat(a[1..], b);
    }
  }

  lemma {:induction false} SumAmountsNonNegative(es: seq<Expense>)
    requires forall e :: e in es ==> ExpenseSchema.Conforms(e)
    ensures SumAmounts(es) >= 0.0
    ensures es != [] ==> SumAmounts(es) > 0.0
  {
    if es != [] {
      assert es[0] in es;
      assert forall e :: e in es[1..] ==> e in es;
      SumAmountsNonNegative(es[1..]);
    }
  }

  /** A shipment without expenses has zero total expenses. */
  lemma NoExpensesNoTotal(es: seq<Expense>, shipmentId: Id)
    requires forall e :: e in es ==> e.shipmentId != shipmentId
    ensures TotalExpenses(es, shipmentId) == 0.0
  {
  }

  /** Recording an expense adds its amount to its own shipment's total and to no other. */
  lemma RecordedExpenseAddsToItsShipment(es: seq<Expense>, e: Expense, shipmentId: Id)
    ensures TotalExpenses(es + [e], shipmentId)
         == TotalExpenses(es, shipmentId) + (if e.shipmentId == shipmentId then e.amount else 0.0)
  {
    FilterSnoc(es, e, (x: Expense) => x.shipmentId == shipmentId);
    SumAmountsConcat(ExpensesOf(es, shipmentId), if e.shipmentId == shipmentId then [e] else []);
  }

  lemma MultiplyPositive(a: real, b: real)
    requires a > 0.0 && b > 0.0
    ensures a * b > 0.0
  {
  }

  lemma BelowHundred(m: real, profit: real, revenue: real)
    requires revenue > 0.0 && profit < revenue && m * revenue == profit * 100.0
    ensures m < 100.0
    ensures m > 0.0 <==> profit > 0.0
  {
    if m > 0.0 {
      MultiplyPositive(m, revenue);
    } else {
      assert (-m) * revenue >= 0.0;
    }
  }

  lemma MarginBelowHundred(profit: real, revenue: real)
    requires revenue > 0.0 ==> profit < revenue
    ensures MarginPercent(profit, revenue) < 100.0
  {
    if revenue > 0.0 {
      MarginPercentSpec(profit, revenue);
      BelowHundred(MarginPercent(profit, revenue), profit, revenue);
    }
  }

  /**
   * For rows that meet their schemas, revenue and cost are positive, expenses
   * are not negative, profit stays below revenue and the margin below 100%,
   * and the margin is positive exactly when the profit is.
   */
  lemma ConformingFinanceBounds(t: Tables, shipmentId: Id)
    requires ConformsToSchemas(t)
    requires CalculateShipmentFinance(t, shipmentId).Success?
    ensures var f := CalculateShipmentFinance(t, shipmentId).value;
      && f.revenue > 0.0 && f.costOfGoods > 0.0 && f.totalExpenses >= 0.0
      && f.profit < f.revenue && f.marginPercent < 100.0
      && (f.marginPercent > 0.0 <==> f.profit > 0.0)
  {
    var s := ShipmentById(t.shipments, shipmentId).value;
    var rate := RateById(t.rates, s.rateId).value;
    var f := CalculateShipmentFinance(t, shipmentId).value;
    CalculateShipmentFinanceSpec(t, shipmentId);
    assert ShipmentSchema.Conforms(s) && RateSchema.Conforms(rate);
    MultiplyPositive(s.quantity, rate.sellRate);
    MultiplyPositive(s.quantity, rate.buyRate);
    SumAmountsNonNegative(ExpensesOf(t.expenses, shipmentId));
    MarginPercentSpec(f.profit, f.revenue);
    BelowHundred(f.marginPercent, f.profit, f.revenue);
  }

  /**
   * The figures of a shipment depend only on its own row, its rate and its
   * expenses: rows of other shipments, rates and expenses do not matter.
   */
  lemma FinanceIsLocal(t1: Tables, t2: Tables, shipmentId: Id)
    requires ShipmentById(t1.shipments, shipmentId) == ShipmentById(t2.shipments, shipmentId)
    requires ShipmentById(t1.shipments, shipmentId).Some? ==>
      var rateId := ShipmentById(t1.shipments, shipmentId).value.rateId;
      RateById(t1.rates, rateId) == RateById(t2.rates, rateId)
    requires ExpensesOf(t1.expenses, shipmentId) == ExpensesOf(t2.expenses, shipmentId)
    ensures CalculateShipmentFinance(t1, shipmentId) == CalculateShipmentFinance(t2, shipmentId)
  {
    CalculateShipmentFinanceSpec(t1, shipmentId);
    CalculateShipmentFinanceSpec(t2, shipmentId);
  }

  /** An expense for another shipment leaves this shipment's figures as they were. */
  lemma OtherExpenseLeavesFinance(t: Tables, e: Expense, shipmentId: Id)
    requires e.shipmentId != shipmentId
    ensures CalculateShipmentFinance(t.(expenses := t.expenses + [e]), shipmentId) == CalculateShipmentFinance(t, shipmentId)
  {
    FilterSnoc(t.expenses, e, (x: Expense) => x.shipmentId == shipmentId);
    FinanceIsLocal(t.(expenses := t.expenses + [e]), t, shipmentId);
  }

  /** An expense for this shipment lowers its profit by exactly its amount. */
  lemma OwnExpenseLowersProfit(t: Tables, e: Expense)
    requires CalculateShipmentFinance(t, e.shipmentId).Success?
    ensures var before := CalculateShipmentFinance(t, e.shipmentId).value;
      var after := CalculateShipmentFinance(t.(expenses := t.expenses + [e]), e.shipmentId);
      && after.Success?
      && after.value.revenue == before.revenue
      && after.value.costOfGoods == before.costOfGoods
      && after.value.totalExpenses == before.totalExpenses + e.amount
      && after.value.profit == before.profit - e.amount
  {
    RecordedExpenseAddsToItsShipment(t.expenses, e, e.shipmentId);
  }

  /** The first seeded shipment, its rate, its two expenses and one expense of another shipment. */
  const SeedRate := Rate(10, "perfumes", 1, Some(2), 1.78, 2.10, "USD", "kg", None, None)
  const SeedShipment := Shipment(20, "CN-RU-001", 1, 2, 10, "perfumes", 500.0, None, None, Some(Delivered), 0)
  const OtherShipment := Shipment(21, "CN-RU-002", 1, 2, 10, "perfumes", 1200.0, None, None, Some(InTransit), 0)
  const Customs150 := Expense(30, 20, Customs, 150.0, "USD", None, 0, 0)
  const Delivery80 := Expense(31, 20, Delivery, 80.0, "USD", None, 0, 0)
  const Warehouse200 := Expense(32, 21, Warehouse, 200.0, "USD", None, 0, 0)
  const SeedTables := Tables([SeedShipment, OtherShipment], [SeedRate], [Customs150, Warehouse200, Delivery80], [], [])

  lemma SeedLookups()
    ensures ShipmentById(SeedTables.shipments, 20) == Some(SeedShipment)
    ensures RateById(SeedTables.rates, 10) == Some(SeedRate)
    ensures ExpensesOf(SeedTables.expenses, 20) == [Customs150, Delivery80]
  {
    assert ShipmentById(SeedTables.shipments, 20) == Some(SeedShipment);
    assert RateById(SeedTables.rates, 10) == Some(SeedRate);
    FilterConcat([Customs150], [Warehouse200, Delivery80], (x: Expense) => x.shipmentId == 20);
    FilterConcat([Warehouse200], [Delivery80], (x: Expense) => x.shipmentId == 20);
  }

  /**
   * 500 kg bought at 1.78 and sold at 2.10, with customs 150 and delivery 80:
   * revenue 1050, cost 890, expenses 230, a loss of 70 and a margin of -20/3%.
   */
  lemma SeededShipmentFinance()
    ensures CalculateShipmentFinance(SeedTables, 20) == Success(Finance(1050.0, 890.0, 230.0, -70.0, -20.0 / 3.0))
  {
    SeedLookups();
    assert [Customs150, Delivery80][1..] == [Delivery80];
    assert SumAmounts([Delivery80]) == 80.0;
    assert SumAmounts([Customs150, Delivery80]) == 230.0;
    assert MarginPercent(-70.0, 1050.0) == -20.0 / 3.0;
  }
}
