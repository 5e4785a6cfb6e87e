/**
 * The shipment router as operations on the store: create with a unique
 * code, list a page, read one, read one with its finance figures, update
 * the sent fields, and delete together with the shipment's expenses.
 */
module ShipmentsApi {
  import opened Wrappers
  import opened Models
  import opened Queries
  import opened Http
  import opened Storage
  import opened ShipmentSchema
  import Finance

  function DuplicateCode(code: string): HttpError {
    BadRequest("Shipment code '" + code + "' already exists")
  }

  const ShipmentNotFound := NotFound("Shipment not found")

  /**
   * `ShipmentResponse` types `status` as the enum, so a row whose status is
   * NULL fails response validation, which FastAPI answers with a 500.
   */
  predicate Serializable(s: Shipment) {
    s.status.Some?
  }

  /** The expenses that survive deleting shipment `id`: the cascade removes exactly its own. */
  function ExpensesNotOf(es: seq<Expense>, shipmentId: Id): (r: seq<Expense>)
    ensures forall e :: e in r <==> e in es && e.shipmentId != shipmentId
  {
    Filter(es, (e: Expense) => e.shipmentId != shipmentId)
  }

  /** `POST /shipments/`. */
  method CreateShipment(db: Database, body: ShipmentCreate, now: Timestamp) returns (r: Result<Shipment, HttpError>)
    requires db.Valid()
    modifies db
    ensures db.Valid()
    ensures !ValidCreate(body) ==> r == Failure(UnprocessableEntity) && unchanged(db)
    ensures ValidCreate(body) && CodeHolder(old(db.shipments), body.shipmentCode, None).Some? ==>
      r == Failure(DuplicateCode(body.shipmentCode)) && unchanged(db)
    ensures ValidCreate(body) && CodeHolder(old(db.shipments), body.shipmentCode, None).None? ==>
      && r == Success(NewShipment(body, old(db.nextId), now))
      && db.shipments == old(db.shipments) + [r.value]
      && db.nextId == old(db.nextId) + 1
    ensures db.rates == old(db.rates) && db.expenses == old(db.expenses)
    ensures db.clients == old(db.clients) && db.suppliers == old(db.suppliers)
    ensures ConformsToSchemas(old(db.Snapshot())) ==> ConformsToSchemas(db.Snapshot())
  {
    if !ValidCreate(body) {
      return Failure(UnprocessableEntity);
    }
    var existing := CodeHolder(db.shipments, body.shipmentCode, None);
    if existing.Some? {
      return Failure(DuplicateCode(body.shipmentCode));
    }
    var id := db.FreshId();
    var shipment := NewShipment(body, id, now);
    db.shipments := db.shipments + [shipment];
    r := Success(shipment);
  }

  /** `GET /shipments/?skip=&limit=`: the page, unless one of its rows cannot be serialised. */
  method GetShipments(db: Database, skip: nat, limit: nat) returns (r: Result<seq<Shipment>, HttpError>)
    ensures r.Success? <==> forall s :: s in Page(db.shipments, skip, limit) ==> Serializable(s)
    ensures r.Success? ==> r.value == Page(db.shipments, skip, limit)
    ensures r.Failure? ==> r.error == InternalServerError
  {
    var page := Page(db.shipments, skip, limit);
    if exists s :: s in page && !Serializable(s) {
      return Failure(InternalServerError);
    }
    r := Success(page);
  }

  /** `GET /shipments/{id}`. */
  method GetShipment(db: Database, id: Id) returns (r: Result<Shipment, HttpError>)
    ensures ShipmentById(db.shipments, id).None? <==> r == Failure(ShipmentNotFound)
    ensures ShipmentById(db.shipments, id).Some? && !Serializable(ShipmentById(db.shipments, id).value) <==>
      r == Failure(InternalServerError)
    ensures r.Success? ==> r.value in db.shipments && r.value.id == id && Serializable(r.value)
  {
    var found := ShipmentById(db.shipments, id);
    if found.None? {
      return Failure(ShipmentNotFound);
    }
    if !Serializable(found.value) {
      return Failure(InternalServerError);
    }
    r := Success(found.value);
  }

  /**
   * `GET /shipments/{id}/finance`. A shipment whose rate is missing makes
   * the finance service raise, and the route does not catch it; a row
   * with a NULL status fails response validation afterwards.
   */
  method GetShipmentFinance(db: Database, id: Id) returns (r: Result<Finance.ShipmentWithFinance, HttpError>)
    ensures ShipmentById(db.shipments, id).None? <==> r == Failure(ShipmentNotFound)
    ensures ShipmentById(db.shipments, id).Some? ==>
      var s := ShipmentById(db.shipments, id).value;
      var f := Finance.CalculateShipmentFinance(db.Snapshot(), id);
      && (f.Failure? || !Serializable(s) <==> r == Failure(InternalServerError))
      && (f.Success? && Serializable(s) ==> r == Success(Finance.ShipmentWithFinance(s, f.value)))
  {
    var found := ShipmentById(db.shipments, id);
    if found.None? {
      return Failure(ShipmentNotFound);
    }
    var withFinance := Finance.CalculateShipmentWithFinance(db.Snapshot(), found.value);
    if withFinance.Failure? || !Serializable(found.value) {
      return Failure(InternalServerError);
    }
    r := Success(withFinance.value);
  }

  /**
   * `PATCH /shipments/{id}`: the body is checked first, then the key, then
   * a sent code against the other shipments; the sent fields are then set
   * one at a time and committed. A row left with a NULL status is committed
   * but then fails response validation.
   */
  method UpdateShipment(db: Database, id: Id, u: ShipmentUpdate) returns (r: Result<Shipment, HttpError>)
    requires db.Valid()
    modifies db
    ensures db.Valid()
    ensures !ValidUpdate(u) ==> r == Failure(UnprocessableEntity) && unchanged(db)
    ensures ValidUpdate(u) && FindShipment(old(db.shipments), id).None? ==> r == Failure(ShipmentNotFound) && unchanged(db)
    ensures ValidUpdate(u) && FindShipment(old(db.shipments), id).Some? && u.shipmentCode.Some?
            && CodeHolder(old(db.shipments), u.shipmentCode.value, Some(id)).Some? ==>
      r == Failure(DuplicateCode(u.shipmentCode.value)) && unchanged(db)
    ensures ValidUpdate(u) && FindShipment(old(db.shipments), id).Some?
            && !(u.shipmentCode.Some? && CodeHolder(old(db.shipments), u.shipmentCode.value, Some(id)).Some?) ==>
      var k := FindShipment(old(db.shipments), id).value;
      var row := Patch(old(db.shipments)[k], u);
      && db.shipments == old(db.shipments)[k := row]
      && r == (if Serializable(row) then Success(row) else Failure(InternalServerError))
    ensures db.rates == old(db.rates) && db.expenses == old(db.expenses) && db.nextId == old(db.nextId)
    ensures db.clients == old(db.clients) && db.suppliers == old(db.suppliers)
    ensures ConformsToSchemas(old(db.Snapshot())) ==> ConformsToSchemas(db.Snapshot())
  {
    if !ValidUpdate(u) {
      return Failure(UnprocessableEntity);
    }
    var found := FindShipment(db.shipments, id);
    if found.None? {
      return Failure(ShipmentNotFound);
    }
    var k := found.value;
    var data := Dump(u);
    if u.shipmentCode.Some? {
      var existing := CodeHolder(db.shipments, u.shipmentCode.value, Some(id));
      if existing.Some? {
        return Failure(DuplicateCode(u.shipmentCode.value));
      }
    }
    var original := db.shipments[k];
    var row := original;
    for j := 0 to |data|
      invariant ApplyAll(row, data[j..]) == ApplyAll(original, data)
    {
      assert data[j..][1..] == data[j + 1..];
      row := SetAttr(row, data[j]);
    }
    DumpThenSetAttrIsPatch(original, u);
    UpdateKeepsCodesUnique(db.shipments, k, u);
    assert row == Patch(original, u);
    db.shipments := db.shipments[k := row];
    if !Serializable(row) {
      return Failure(InternalServerError);
    }
    r := Success(row);
  }

  /**
   * Writing a patched row back keeps keys and codes unique, provided no
   * other shipment holds a sent code. The row's own current code is never
   * "held by another", so re-sending it is allowed.
   */
  lemma UpdateKeepsCodesUnique(ss: seq<Shipment>, k: nat, u: ShipmentUpdate)
    requires k < |ss| && UniqueShipmentIds(ss) && UniqueShipmentCodes(ss)
    requires u.shipmentCode.Some? ==> CodeHolder(ss, u.shipmentCode.value, Some(ss[k].id)).None?
    ensures UniqueShipmentIds(ss[k := Patch(ss[k], u)]) && UniqueShipmentCodes(ss[k := Patch(ss[k], u)])
    ensures forall s :: s in ss[k := Patch(ss[k], u)] ==> s == Patch(ss[k], u) || s in ss
  {
    var ss' := ss[k := Patch(ss[k], u)];
    forall s | s in ss'
      ensures s == Patch(ss[k], u) || s in ss
    {
      var i :| 0 <= i < |ss'| && ss'[i] == s;
      if i != k {
        assert ss'[i] == ss[i];
      }
    }
    forall i, j | 0 <= i < j < |ss'|
      ensures ss'[i].shipmentCode != ss'[j].shipmentCode
    {
      if u.shipmentCode.Some? && (i == k || j == k) {
        var other := if i == k then j else i;
        assert ss[other].id != ss[k].id;
      }
    }
  }

  /** Re-sending a shipment's own code never conflicts. */
  lemma OwnCodeIsFree(ss: seq<Shipment>, k: nat)
    requires k < |ss| && UniqueShipmentCodes(ss)
    ensures CodeHolder(ss, ss[k].shipmentCode, Some(ss[k].id)).None?
  {
    forall i | 0 <= i < |ss| && i != k
      ensures ss[i].shipmentCode != ss[k].shipmentCode
    {
      if i < k {
        assert ss[i].shipmentCode != ss[k].shipmentCode;
      } else {
        assert ss[k].shipmentCode != ss[i].shipmentCode;
      }
    }
  }

  /** `DELETE /shipments/{id}`: the row goes, and with it every expense of that shipment. */
  method DeleteShipment(db: Database, id: Id) returns (r: Result<(), HttpError>)
    requires db.Valid()
    modifies db
    ensures db.Valid()
    ensures FindShipment(old(db.shipments), id).None? ==> r == Failure(ShipmentNotFound) && unchanged(db)
    ensures FindShipment(old(db.shipments), id).Some? ==>
      var k := FindShipment(old(db.shipments), id).value;
      && r == Success(())
      && db.shipments == old(db.shipments)[..k] + old(db.shipments)[k + 1..]
      && db.expenses == ExpensesNotOf(old(db.expenses), id)
    ensures db.rates == old(db.rates) && db.nextId == old(db.nextId)
    ensures db.clients == old(db.clients) && db.suppliers == old(db.suppliers)
    ensures ConformsToSchemas(old(db.Snapshot())) ==> ConformsToSchemas(db.Snapshot())
  {
    var found := FindShipment(db.shipments, id);
    if found.None? {
      return Failure(ShipmentNotFound);
    }
    var k := found.value;
    RemoveKeepsUnique(db.shipments, k);
    ExpensesNotOfKeepsUnique(db.expenses, id);
    db.shipments := db.shipments[..k] + db.shipments[k + 1..];
    db.expenses := ExpensesNotOf(db.expenses, id);
    r := Success(());
  }

  lemma RemoveKeepsUnique(ss: seq<Shipment>, k: nat)
    requires k < |ss| && UniqueShipmentIds(ss) && UniqueShipmentCodes(ss)
    ensures var ss' := ss[..k] + ss[k + 1..];
      && UniqueShipmentIds(ss') && UniqueShipmentCodes(ss')
      && |ss'| == |ss| - 1
      && (forall s :: s in ss' ==> s in ss)
  {
    var ss' := ss[..k] + ss[k + 1..];
    RemoveAt(ss, k);
    forall i, j | 0 <= i < j < |ss'|
      ensures ss'[i].id != ss'[j].id && ss'[i].shipmentCode != ss'[j].shipmentCode
    {
      var i0, j0 := if i < k then i else i + 1, if j < k then j else j + 1;
      assert ss'[i] == ss[i0] && ss'[j] == ss[j0] && i0 < j0;
      assert ss[i0].shipmentCode != ss[j0].shipmentCode;
    }
    forall s | s in ss'
      ensures s in ss
    {
      var i :| 0 <= i < |ss'| && ss'[i] == s;
      var i0 := if i < k then i else i + 1;
      assert ss'[i] == ss[i0];
    }
  }

  lemma {:induction false} ExpensesNotOfKeepsUnique(es: seq<Expense>, shipmentId: Id)
    requires UniqueExpenseIds(es)
    ensures UniqueExpenseIds(ExpensesNotOf(es, shipmentId))
  {
    if es != [] {
      ExpensesNotOfKeepsUnique(es[1..], shipmentId);
      var rest := ExpensesNotOf(es[1..], shipmentId);
      forall i | 0 <= i < |rest|
        ensures rest[i].id != es[0].id
      {
        assert rest[i] in es[1..];
      }
    }
  }

  /** After a delete, no shipment has that key (keys are unique) and no expense refers to it. */
  lemma DeletedShipmentLeavesNoTrace(ss: seq<Shipment>, es: seq<Expense>, k: nat)
    requires k < |ss| && UniqueShipmentIds(ss)
    ensures forall s :: s in ss[..k] + ss[k + 1..] ==> s.id != ss[k].id
    ensures forall e :: e in ExpensesNotOf(es, ss[k].id) ==> e.shipmentId != ss[k].id
  {
    var ss' := ss[..k] + ss[k + 1..];
    RemoveAt(ss, k);
    forall s | s in ss'
      ensures s.id != ss[k].id
    {
      var i :| 0 <= i < |ss'| && ss'[i] == s;
      var i0 := if i < k then i else i + 1;
      assert ss'[i] == ss[i0] && i0 != k;
    }
  }

  /** A created shipment is found again by its key, and it holds its code alone. */
  lemma CreatedShipmentIsFound(ss: seq<Shipment>, s: Shipment)
    requires forall x :: x in ss ==> x.id != s.id
    requires CodeHolder(ss, s.shipmentCode, None).None?
    ensures ShipmentById(ss + [s], s.id) == Some(s)
    ensures CodeHolder(ss + [s], s.shipmentCode, Some(s.id)).None?
  {
    var ss' := ss + [s];
    assert ss'[|ss|] == s;
    assert forall i :: 0 <= i < |ss| ==> ss'[i] == ss[i];
    assert FindShipment(ss', s.id) == Some(|ss|);
  }
}
