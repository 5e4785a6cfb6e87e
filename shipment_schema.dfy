/**
 * The shipment request bodies and their field constraints, the row a
 * create builds, and what a partial update does to a row.
 */
module ShipmentSchema {
  import opened Wrappers
  import opened Models

  /** A create body. `status` absent means the schema default. */
  datatype ShipmentCreate = ShipmentCreate(
    shipmentCode: string,
    supplierId: Id,
    clientId: Id,
    rateId: Id,
    cargoType: string,
    quantity: real,
    departureDate: Option<Date>,
    arrivalDate: Option<Date>,
    status: Option<ShipmentStatus>)

  const DefaultStatus: ShipmentStatus := Planned

  predicate ValidCode(code: string) {
    1 <= |code| <= 100
  }

  predicate ValidCargoType(cargoType: string) {
    |cargoType| <= 255
  }

  predicate ValidQuantity(quantity: real) {
    quantity > 0.0
  }

  predicate ValidCreate(b: ShipmentCreate) {
    ValidCode(b.shipmentCode) && ValidCargoType(b.cargoType) && ValidQuantity(b.quantity)
  }

  /** A stored shipment meets the same constraints as the body that created it. */
  predicate Conforms(s: Shipment) {
    ValidCode(s.shipmentCode) && ValidCargoType(s.cargoType) && ValidQuantity(s.quantity)
  }

  /** The row `Shipment(**body.model_dump())`, with the key and creation time the store assigns. */
  function NewShipment(b: ShipmentCreate, id: Id, now: Timestamp): (s: Shipment)
    ensures s.id == id && s.createdAt == now
    ensures s.shipmentCode == b.shipmentCode && s.cargoType == b.cargoType && s.quantity == b.quantity
    ensures s.supplierId == b.supplierId && s.clientId == b.clientId && s.rateId == b.rateId
    ensures s.departureDate == b.departureDate && s.arrivalDate == b.arrivalDate
    ensures s.status == Some(if b.status.Some? then b.status.value else Planned)
    ensures ValidCreate(b) <==> Conforms(s)
  {
    Shipment(id, b.shipmentCode, b.supplierId, b.clientId, b.rateId, b.cargoType, b.quantity,
             b.departureDate, b.arrivalDate, Some(b.status.GetOr(DefaultStatus)), now)
  }

  /**
   * An update body: every field is optional, `Some` meaning "sent". The
   * two dates and the status are nullable columns, so a sent date or a
   * sent status may itself be `None` (an explicit JSON null).
   */
  datatype ShipmentUpdate = ShipmentUpdate(
    shipmentCode: Option<string>,
    supplierId: Option<Id>,
    clientId: Option<Id>,
    rateId: Option<Id>,
    cargoType: Option<string>,
    quantity: Option<real>,
    departureDate: Option<Option<Date>>,
    arrivalDate: Option<Option<Date>>,
    status: Option<Option<ShipmentStatus>>)

  const EmptyUpdate: ShipmentUpdate :=
    ShipmentUpdate(None, None, None, None, None, None, None, None, None)

  /** The constraints apply to the fields that are sent; an absent field is always valid. */
  predicate ValidUpdate(u: ShipmentUpdate) {
    && (u.shipmentCode.Some? ==> ValidCode(u.shipmentCode.value))
    && (u.cargoType.Some? ==> ValidCargoType(u.cargoType.value))
    && (u.quantity.Some? ==> ValidQuantity(u.quantity.value))
  }

  /** One entry of `model_dump(exclude_unset=True)`: a column and its new value. */
  datatype ShipmentField =
    | SetShipmentCode(code: string)
    | SetSupplierId(supplierId: Id)
    | SetClientId(clientId: Id)
    | SetRateId(rateId: Id)
    | SetCargoType(cargoType: string)
    | SetQuantity(quantity: real)
    | SetDepartureDate(departureDate: Option<Date>)
    | SetArrivalDate(arrivalDate: Option<Date>)
    | SetStatus(status: Option<ShipmentStatus>)

  /** The columns an update may name. */
  datatype Column =
    ShipmentCodeColumn | SupplierIdColumn | ClientIdColumn | RateIdColumn | CargoTypeColumn |
    QuantityColumn | DepartureDateColumn | ArrivalDateColumn | StatusColumn

  /** The entry for one column, present when the body sent that field. */
  function Sent(u: ShipmentUpdate, c: Column): Option<ShipmentField> {
    match c
    case ShipmentCodeColumn => if u.shipmentCode.Some? then Some(SetShipmentCode(u.shipmentCode.value)) else None
    case SupplierIdColumn => if u.supplierId.Some? then Some(SetSupplierId(u.supplierId.value)) else None
    case ClientIdColumn => if u.clientId.Some? then Some(SetClientId(u.clientId.value)) else None
    case RateIdColumn => if u.rateId.Some? then Some(SetRateId(u.rateId.value)) else None
    case CargoTypeColumn => if u.cargoType.Some? then Some(SetCargoType(u.cargoType.value)) else None
    case QuantityColumn => if u.quantity.Some? then Some(SetQuantity(u.quantity.value)) else None
    case DepartureDateColumn =>
      if u.departureDate.Some? then Some(SetDepartureDate(u.departureDate.value)) else None
    case ArrivalDateColumn => if u.arrivalDate.Some? then Some(SetArrivalDate(u.arrivalDate.value)) else None
    case StatusColumn => if u.status.Some? then Some(SetStatus(u.status.value)) else None
  }

  /** `model_dump(exclude_unset=True)`: the sent fields, in declaration order. */
  function Dump(u: ShipmentUpdate): seq<ShipmentField> {
    Cons(Sent(u, ShipmentCodeColumn), Cons(Sent(u, SupplierIdColumn), Cons(Sent(u, ClientIdColumn),
    Cons(Sent(u, RateIdColumn), Cons(Sent(u, CargoTypeColumn), Cons(Sent(u, QuantityColumn),
    Cons(Sent(u, DepartureDateColumn), Cons(Sent(u, ArrivalDateColumn), Cons(Sent(u, StatusColumn), [])))))))))
  }

  /** `setattr(row, field, value)`. */
  function SetAttr(s: Shipment, f: ShipmentField): Shipment {
    match f
    case SetShipmentCode(v) => s.(shipmentCode := v)
    case SetSupplierId(v) => s.(supplierId := v)
    case SetClientId(v) => s.(clientId := v)
    case SetRateId(v) => s.(rateId := v)
    case SetCargoType(v) => s.(cargoType := v)
    case SetQuantity(v) => s.(quantity := v)
    case SetDepartureDate(v) => s.(departureDate := v)
    case SetArrivalDate(v) => s.(arrivalDate := v)
    case SetStatus(v) => s.(status := v)
  }

  /** The row after `for field, value in fields: setattr(row, field, value)`. */
  function ApplyAll(s: Shipment, fields: seq<ShipmentField>): Shipment
    decreases |fields|
  {
    if fields == [] then s else ApplyAll(SetAttr(s, fields[0]), fields[1..])
  }

  /**
   * The reference meaning of an update: each sent field takes its new
   * value, every other column keeps its old one. The key and the creation
   * time are not update fields, and a valid update keeps a conforming row conforming.
   */
  function Patch(s: Shipment, u: ShipmentUpdate): (r: Shipment)
    ensures r.id == s.id && r.createdAt == s.createdAt
    ensures Conforms(s) && ValidUpdate(u) ==> Conforms(r)
  {
    s.(shipmentCode := u.shipmentCode.GetOr(s.shipmentCode),
       supplierId := u.supplierId.GetOr(s.supplierId),
       clientId := u.clientId.GetOr(s.clientId),
       rateId := u.rateId.GetOr(s.rateId),
       cargoType := u.cargoType.GetOr(s.cargoType),
       quantity := u.quantity.GetOr(s.quantity),
       departureDate := u.departureDate.GetOr(s.departureDate),
       arrivalDate := u.arrivalDate.GetOr(s.arrivalDate),
       status := u.status.GetOr(s.status))
  }

  /** One optional `setattr`. */
  function ApplyOpt(s: Shipment, f: Option<ShipmentField>): Shipment {
    if f.Some? then SetAttr(s, f.value) else s
  }

  lemma ApplyAllCons3(s: Shipment, a: Option<ShipmentField>, b: Option<ShipmentField>, c: Option<ShipmentField>,
                      rest: seq<ShipmentField>)
    ensures ApplyAll(s, Cons(a, Cons(b, Cons(c, rest)))) == ApplyAll(ApplyOpt(ApplyOpt(ApplyOpt(s, a), b), c), rest)
  {
    ApplyAllCons(s, a, Cons(b, Cons(c, rest)));
    ApplyAllCons(ApplyOpt(s, a), b, Cons(c, rest));
    ApplyAllCons(ApplyOpt(ApplyOpt(s, a), b), c, rest);
  }

  lemma ApplyAllCons(s: Shipment, f: Option<ShipmentField>, rest: seq<ShipmentField>)
    ensures ApplyAll(s, Cons(f, rest)) == ApplyAll(ApplyOpt(s, f), rest)
  {
    if f.Some? {
      assert ([f.value] + rest)[1..] == rest;
    }
  }

  lemma ApplyAllCons9(s: Shipment, o1: Option<ShipmentField>, o2: Option<ShipmentField>, o3: Option<ShipmentField>,
                      o4: Option<ShipmentField>, o5: Option<ShipmentField>, o6: Option<ShipmentField>,
                      o7: Option<ShipmentField>, o8: Option<ShipmentField>, o9: Option<ShipmentField>)
    ensures ApplyAll(s, Cons(o1, Cons(o2, Cons(o3, Cons(o4, Cons(o5, Cons(o6, Cons(o7, Cons(o8, Cons(o9, [])))))))))) ==
            ApplyOpt(ApplyOpt(ApplyOpt(ApplyOpt(ApplyOpt(ApplyOpt(ApplyOpt(ApplyOpt(ApplyOpt(s, o1), o2), o3), o4), o5), o6), o7), o8), o9)
  {
    var r7 := Cons(o7, Cons(o8, Cons(o9, [])));
    var r4 := Cons(o4, Cons(o5, Cons(o6, r7)));
    var x3 := ApplyOpt(ApplyOpt(ApplyOpt(s, o1), o2), o3);
    var x6 := ApplyOpt(ApplyOpt(ApplyOpt(x3, o4), o5), o6);
    ApplyAllCons3(s, o1, o2, o3, r4);
    ApplyAllCons3(x3, o4, o5, o6, r7);
    ApplyAllCons3(x6, o7, o8, o9, []);
  }

  /** The nine optional `setattr`s of a dump, in order. */
  function ApplySent(s: Shipment, u: ShipmentUpdate): Shipment {
    var s1 := ApplyOpt(s, Sent(u, ShipmentCodeColumn));
    var s2 := ApplyOpt(s1, Sent(u, SupplierIdColumn));
    var s3 := ApplyOpt(s2, Sent(u, ClientIdColumn));
    var s4 := ApplyOpt(s3, Sent(u, RateIdColumn));
    var s5 := ApplyOpt(s4, Sent(u, CargoTypeColumn));
    var s6 := ApplyOpt(s5, Sent(u, QuantityColumn));
    var s7 := ApplyOpt(s6, Sent(u, DepartureDateColumn));
    var s8 := ApplyOpt(s7, Sent(u, ArrivalDateColumn));
    ApplyOpt(s8, Sent(u, StatusColumn))
  }

  lemma ApplySentIsPatch(s: Shipment, u: ShipmentUpdate)
    ensures ApplySent(s, u) == Patch(s, u)
  {
    var s1 := s.(shipmentCode := u.shipmentCode.GetOr(s.shipmentCode));
    assert ApplyOpt(s, Sent(u, ShipmentCodeColumn)) == s1;
    var s2 := s1.(supplierId := u.supplierId.GetOr(s.supplierId));
    assert ApplyOpt(s1, Sent(u, SupplierIdColumn)) == s2;
    var s3 := s2.(clientId := u.clientId.GetOr(s.clientId));
    assert ApplyOpt(s2, Sent(u, ClientIdColumn)) == s3;
    var s4 := s3.(rateId := u.rateId.GetOr(s.rateId));
    assert ApplyOpt(s3, Sent(u, RateIdColumn)) == s4;
    var s5 := s4.(cargoType := u.cargoType.GetOr(s.cargoType));
    assert ApplyOpt(s4, Sent(u, CargoTypeColumn)) == s5;
    var s6 := s5.(quantity := u.quantity.GetOr(s.quantity));
    assert ApplyOpt(s5, Sent(u, QuantityColumn)) == s6;
    var s7 := s6.(departureDate := u.departureDate.GetOr(s.departureDate));
    assert ApplyOpt(s6, Sent(u, DepartureDateColumn)) == s7;
    var s8 := s7.(arrivalDate := u.arrivalDate.GetOr(s.arrivalDate));
    assert ApplyOpt(s7, Sent(u, ArrivalDateColumn)) == s8;
    var s9 := s8.(status := u.status.GetOr(s.status));
    assert ApplyOpt(s8, Sent(u, StatusColumn)) == s9;
  }

  /** Applying the dumped fields one `setattr` at a time is exactly the reference update. */
  lemma DumpThenSetAttrIsPatch(s: Shipment, u: ShipmentUpdate)
    ensures ApplyAll(s, Dump(u)) == Patch(s, u)
  {
    ApplyAllCons9(s, Sent(u, ShipmentCodeColumn), Sent(u, SupplierIdColumn), Sent(u, ClientIdColumn),
                  Sent(u, RateIdColumn), Sent(u, CargoTypeColumn), Sent(u, QuantityColumn),
                  Sent(u, DepartureDateColumn), Sent(u, ArrivalDateColumn), Sent(u, StatusColumn));
    assert ApplyAll(s, Dump(u)) == ApplySent(s, u);
    ApplySentIsPatch(s, u);
  }

  /** An update that sends nothing dumps nothing and leaves the row as it is. */
  lemma EmptyUpdateChangesNothing(s: Shipment)
    ensures ValidUpdate(EmptyUpdate) && Dump(EmptyUpdate) == []
    ensures Patch(s, EmptyUpdate) == s
  {
  }

  /** Sending the same update twice leaves the row as the first one did. */
  lemma PatchIdempotent(s: Shipment, u: ShipmentUpdate)
    ensures Patch(Patch(s, u), u) == Patch(s, u)
  {
  }

  /** Any status may be written over any other: no transition order is enforced. */
  lemma AnyStatusTransition(s: Shipment, target: ShipmentStatus)
    ensures Patch(s, EmptyUpdate.(status := Some(Some(target)))).status == Some(target)
    ensures Patch(s, EmptyUpdate.(status := Some(Some(target)))) == s.(status := Some(target))
  {
  }

  /**
   * A sent `"status": null` passes validation and is written as NULL; only
   * such an update leaves a row without a status.
   */
  lemma {:induction false} NullStatusIsStored(s: Shipment, u: ShipmentUpdate)
    ensures ValidUpdate(EmptyUpdate.(status := Some(None)))
    ensures ApplyAll(s, Dump(EmptyUpdate.(status := Some(None)))).status == None
    ensures s.status.Some? ==> (Patch(s, u).status.None? <==> u.status == Some(None))
  {
    DumpThenSetAttrIsPatch(s, EmptyUpdate.(status := Some(None)));
  }
}
