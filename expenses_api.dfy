/**
 * The expense router as operations on the store: create, list a page
 * (optionally of one shipment's expenses), read one, update the sent
 * fields, delete one.
 */
module ExpensesApi {
  import opened Wrappers
  import opened Models
  import opened Queries
  import opened Http
  import opened Storage
  import opened ExpenseSchema

  const ExpenseNotFound := NotFound("Expense not found")

  /** `POST /expenses/`: the stored row is the body with a fresh key and the creation time. */
  method CreateExpense(db: Database, body: ExpenseCreate, now: Timestamp) returns (r: Result<Expense, HttpError>)
    requires db.Valid()
    modifies db
    ensures db.Valid()
    ensures !ValidCreate(body) ==> r == Failure(UnprocessableEntity) && unchanged(db)
    ensures ValidCreate(body) ==>
      && r == Success(NewExpense(body, old(db.nextId), now))
      && db.expenses == old(db.expenses) + [r.value]
      && db.nextId == old(db.nextId) + 1
    ensures db.shipments == old(db.shipments) && db.rates == old(db.rates)
    ensures db.clients == old(db.clients) && db.suppliers == old(db.suppliers)
    ensures ConformsToSchemas(old(db.Snapshot())) ==> ConformsToSchemas(db.Snapshot())
  {
    if !ValidCreate(body) {
      return Failure(UnprocessableEntity);
    }
    var id := db.FreshId();
    var expense := NewExpense(body, id, now);
    db.expenses := db.expenses + [expense];
    r := Success(expense);
  }

  /** The rows `GET /expenses/` pages through: one shipment's expenses when `shipment_id` is given, else all. */
  function ExpenseListing(es: seq<Expense>, shipmentId: Option<Id>): (r: seq<Expense>)
    ensures shipmentId.None? ==> r == es
    ensures shipmentId.Some? ==> forall e :: e in r <==> e in es && e.shipmentId == shipmentId.value
  {
    if shipmentId.Some? then ExpensesOf(es, shipmentId.value) else es
  }

  /** `GET /expenses/?skip=&limit=&shipment_id=`. */
  method GetExpenses(db: Database, skip: nat, limit: nat, shipmentId: Option<Id>) returns (r: seq<Expense>)
    ensures r == Page(ExpenseListing(db.expenses, shipmentId), skip, limit)
    ensures |r| <= limit
    ensures shipmentId.Some? ==> forall e :: e in r ==> e in db.expenses && e.shipmentId == shipmentId.value
  {
    var query := db.expenses;
    if shipmentId.Some? {
      query := ExpensesOf(query, shipmentId.value);
    }
    r := Page(query, skip, limit);
    forall e | e in r
      ensures e in query
    {
      var i :| 0 <= i < |r| && r[i] == e;
      assert r[i] == query[skip + i];
    }
  }

  /** `GET /expenses/{id}`. */
  method GetExpense(db: Database, id: Id) returns (r: Result<Expense, HttpError>)
    ensures FindExpense(db.expenses, id).None? <==> r == Failure(ExpenseNotFound)
    ensures r.Success? ==> r.value in db.expenses && r.value.id == id
  {
    var found := FindExpense(db.expenses, id);
    if found.None? {
      return Failure(ExpenseNotFound);
    }
    r := Success(db.expenses[found.value]);
  }

  /** `PATCH /expenses/{id}`: the sent fields are set one at a time; the owning shipment cannot change. */
  method UpdateExpense(db: Database, id: Id, u: ExpenseUpdate) returns (r: Result<Expense, HttpError>)
    requires db.Valid()
    modifies db
    ensures db.Valid()
    ensures !ValidUpdate(u) ==> r == Failure(UnprocessableEntity) && unchanged(db)
    ensures ValidUpdate(u) && FindExpense(old(db.expenses), id).None? ==> r == Failure(ExpenseNotFound) && unchanged(db)
    ensures ValidUpdate(u) && FindExpense(old(db.expenses), id).Some? ==>
      var k := FindExpense(old(db.expenses), id).value;
      && r == Success(Patch(old(db.expenses)[k], u))
      && r.value.shipmentId == old(db.expenses)[k].shipmentId
      && db.expenses == old(db.expenses)[k := r.value]
    ensures db.shipments == old(db.shipments) && db.rates == old(db.rates) && db.nextId == old(db.nextId)
    ensures db.clients == old(db.clients) && db.suppliers == old(db.suppliers)
    ensures ConformsToSchemas(old(db.Snapshot())) ==> ConformsToSchemas(db.Snapshot())
  {
    if !ValidUpdate(u) {
      return Failure(UnprocessableEntity);
    }
    var found := FindExpense(db.expenses, id);
    if found.None? {
      return Failure(ExpenseNotFound);
    }
    var k := found.value;
    var original := db.expenses[k];
    var data := Dump(u);
    var row := original;
    for j := 0 to |data|
      invariant ApplyAll(row, data[j..]) == ApplyAll(original, data)
    {
      assert data[j..][1..] == data[j + 1..];
      row := SetAttr(row, data[j]);
    }
    DumpThenSetAttrIsPatch(original, u);
    ReplaceKeepsExpenseIds(db.expenses, k, row);
    db.expenses := db.expenses[k := row];
    r := Success(row);
  }

  lemma ReplaceKeepsExpenseIds(es: seq<Expense>, k: nat, e: Expense)
    requires k < |es| && UniqueExpenseIds(es) && e.id == es[k].id
    ensures UniqueExpenseIds(es[k := e])
    ensures forall x :: x in es[k := e] ==> x == e || x in es
  {
  }

  /** `DELETE /expenses/{id}`: exactly that row goes. */
  method DeleteExpense(db: Database, id: Id) returns (r: Result<(), HttpError>)
    requires db.Valid()
    modifies db
    ensures db.Valid()
    ensures FindExpense(old(db.expenses), id).None? ==> r == Failure(ExpenseNotFound) && unchanged(db)
    ensures FindExpense(old(db.expenses), id).Some? ==>
      var k := FindExpense(old(db.expenses), id).value;
      && r == Success(())
      && db.expenses == old(db.expenses)[..k] + old(db.expenses)[k + 1..]
    ensures db.shipments == old(db.shipments) && db.rates == old(db.rates) && db.nextId == old(db.nextId)
    ensures db.clients == old(db.clients) && db.suppliers == old(db.suppliers)
    ensures ConformsToSchemas(old(db.Snapshot())) ==> ConformsToSchemas(db.Snapshot())
  {
    var found := FindExpense(db.expenses, id);
    if found.None? {
      return Failure(ExpenseNotFound);
    }
    var k := found.value;
    RemoveExpenseKeepsOthers(db.expenses, k);
    db.expenses := db.expenses[..k] + db.expenses[k + 1..];
    r := Success(());
  }

  /** Removing position `k` removes that expense only: its key is gone and every other row stays. */
  lemma RemoveExpenseKeepsOthers(es: seq<Expense>, k: nat)
    requires k < |es| && UniqueExpenseIds(es)
    ensures var es' := es[..k] + es[k + 1..];
      && UniqueExpenseIds(es')
      && FindExpense(es', es[k].id).None?
      && (forall i :: 0 <= i < |es| && i != k ==> es[i] in es')
      && (forall e :: e in es' ==> e in es)
  {
    var es' := es[..k] + es[k + 1..];
    RemoveAt(es, k);
    forall i, j | 0 <= i < j < |es'|
      ensures es'[i].id != es'[j].id
    {
      var i0, j0 := if i < k then i else i + 1, if j < k then j else j + 1;
      assert es'[i] == es[i0] && es'[j] == es[j0] && i0 < j0;
    }
    forall i | 0 <= i < |es'|
      ensures es'[i].id != es[k].id
    {
      var i0 := if i < k then i else i + 1;
      assert es'[i] == es[i0] && i0 != k;
    }
    forall i | 0 <= i < |es| && i != k
      ensures es[i] in es'
    {
      var i1 := if i < k then i else i - 1;
      assert es'[i1] == es[i];
    }
    forall e | e in es'
      ensures e in es
    {
      var i :| 0 <= i < |es'| && es'[i] == e;
      var i0 := if i < k then i else i + 1;
      assert es'[i] == es[i0];
    }
  }
}
