/**
 * The relational store as the routers see it through their session: the
 * tables in store order, the lookups by primary key, and the keys and
 * uniqueness constraints the schema declares.
 */
module Storage {
  import opened Wrappers
  import opened Models
  import opened Queries
  import ShipmentSchema
  import RateSchema
  import ExpenseSchema

  /** A snapshot of the tables the core reads. */
  datatype Tables = Tables(
    shipments: seq<Shipment>,
    rates: seq<Rate>,
    expenses: seq<Expense>,
    clients: seq<Client>,
    suppliers: seq<Supplier>)

  /** `query(Shipment).filter(Shipment.id == id).first()`, as a position. */
  function FindShipment(ss: seq<Shipment>, id: Id): (r: Option<nat>)
    ensures r.Some? ==> r.value < |ss| && ss[r.value].id == id
    ensures r.None? <==> forall i :: 0 <= i < |ss| ==> ss[i].id != id
  {
    First(ss, (s: Shipment) => s.id == id)
  }

  function ShipmentById(ss: seq<Shipment>, id: Id): (r: Option<Shipment>)
    ensures r.Some? ==> r.value in ss && r.value.id == id
    ensures r.None? <==> forall s :: s in ss ==> s.id != id
  {
    match FindShipment(ss, id)
    case None => None
    case Some(i) => Some(ss[i])
  }

  /** `query(Rate).filter(Rate.id == id).first()`. */
  function RateById(rs: seq<Rate>, id: Id): (r: Option<Rate>)
    ensures r.Some? ==> r.value in rs && r.value.id == id
    ensures r.None? <==> forall x :: x in rs ==> x.id != id
  {
    match First(rs, (x: Rate) => x.id == id)
    case None => None
    case Some(i) => Some(rs[i])
  }

  /** `query(Expense).filter(Expense.id == id).first()`, as a position. */
  function FindExpense(es: seq<Expense>, id: Id): (r: Option<nat>)
    ensures r.Some? ==> r.value < |es| && es[r.value].id == id
    ensures r.None? <==> forall i :: 0 <= i < |es| ==> es[i].id != id
  {
    First(es, (e: Expense) => e.id == id)
  }

  /** A shipment other than `self` that already holds `code` (for a create, `self` is no key at all). */
  function CodeHolder(ss: seq<Shipment>, code: string, self: Option<Id>): (r: Option<nat>)
    ensures r.Some? ==> r.value < |ss| && ss[r.value].shipmentCode == code && Some(ss[r.value].id) != self
    ensures r.None? <==> forall i :: 0 <= i < |ss| ==> ss[i].shipmentCode != code || Some(ss[i].id) == self
  {
    First(ss, (s: Shipment) => s.shipmentCode == code && Some(s.id) != self)
  }

  /** `filter(Expense.shipment_id == shipmentId)`: the expenses of one shipment, in store order. */
  function ExpensesOf(es: seq<Expense>, shipmentId: Id): (r: seq<Expense>)
    ensures forall e :: e in r <==> e in es && e.shipmentId == shipmentId
  {
    Filter(es, (e: Expense) => e.shipmentId == shipmentId)
  }

  /** `filter(Shipment.client_id == clientId)`. */
  function ShipmentsOfClient(ss: seq<Shipment>, clientId: Id): (r: seq<Shipment>)
    ensures forall s :: s in r <==> s in ss && s.clientId == clientId
  {
    Filter(ss, (s: Shipment) => s.clientId == clientId)
  }

  /** `filter(Shipment.supplier_id == supplierId)`. */
  function ShipmentsOfSupplier(ss: seq<Shipment>, supplierId: Id): (r: seq<Shipment>)
    ensures forall s :: s in r <==> s in ss && s.supplierId == supplierId
  {
    Filter(ss, (s: Shipment) => s.supplierId == supplierId)
  }

  /** The primary key of shipments. */
  predicate UniqueShipmentIds(ss: seq<Shipment>) {
    forall i, j :: 0 <= i < j < |ss| ==> ss[i].id != ss[j].id
  }

  /** The constraint `unique=True` on `shipment_code`. */
  predicate UniqueShipmentCodes(ss: seq<Shipment>) {
    forall i, j :: 0 <= i < j < |ss| ==> ss[i].shipmentCode != ss[j].shipmentCode
  }

  /** The primary key of expenses. */
  predicate UniqueExpenseIds(es: seq<Expense>) {
    forall i, j :: 0 <= i < j < |es| ==> es[i].id != es[j].id
  }

  /** Every stored row meets the constraints of the schema that wrote it. */
  predicate ConformsToSchemas(t: Tables) {
    && (forall s :: s in t.shipments ==> ShipmentSchema.Conforms(s))
    && (forall r :: r in t.rates ==> RateSchema.Conforms(r))
    && (forall e :: e in t.expenses ==> ExpenseSchema.Conforms(e))
  }

  /** The session's view of the database: one field per table, reassigned by the routers' writes. */
  class Database {
    var shipments: seq<Shipment>
    var rates: seq<Rate>
    var expenses: seq<Expense>
    var clients: seq<Client>
    var suppliers: seq<Supplier>
    /** The next unused key; a deterministic stand-in for `uuid.uuid4()`. */
    var nextId: nat

    ghost predicate Valid()
      reads this
    {
      && UniqueShipmentIds(shipments)
      && UniqueShipmentCodes(shipments)
      && UniqueExpenseIds(expenses)
      && (forall s :: s in shipments ==> s.id < nextId)
      && (forall e :: e in expenses ==> e.id < nextId)
    }

    function Snapshot(): Tables
      reads this
    {
      Tables(shipments, rates, expenses, clients, suppliers)
    }

    constructor (initial: Tables, firstFreeId: nat)
      requires UniqueShipmentIds(initial.shipments) && UniqueShipmentCodes(initial.shipments)
      requires UniqueExpenseIds(initial.expenses)
      requires forall s :: s in initial.shipments ==> s.id < firstFreeId
      requires forall e :: e in initial.expenses ==> e.id < firstFreeId
      ensures Valid() && Snapshot() == initial && nextId == firstFreeId
    {
      shipments, rates, expenses := initial.shipments, initial.rates, initial.expenses;
      clients, suppliers := initial.clients, initial.suppliers;
      nextId := firstFreeId;
    }

    /** Draws a key no stored shipment or expense has. */
    method FreshId() returns (id: Id)
      requires Valid()
      modifies this`nextId
      ensures Valid() && id == old(nextId) && nextId == id + 1
      ensures forall s :: s in shipments ==> s.id != id
      ensures forall e :: e in expenses ==> e.id != id
    {
      id := nextId;
      nextId := nextId + 1;
    }
  }
}
