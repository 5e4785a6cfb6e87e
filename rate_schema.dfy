/** The rate request bodies and their field constraints. */
module RateSchema {
  import opened Wrappers
  import opened Models

  /** A create body. `currency` absent means the default; `clientId` absent means a general rate. */
  datatype RateCreate = RateCreate(
    cargoType: string,
    supplierId: Id,
    clientId: Option<Id>,
    buyRate: real,
    sellRate: real,
    currency: Option<string>,
    unit: string,
    validFrom: Option<Date>,
    validTo: Option<Date>)

  predicate ValidCargoType(cargoType: string) {
    |cargoType| <= 255
  }

  predicate ValidUnit(unit: string) {
    |unit| <= 20
  }

  predicate ValidPrice(price: real) {
    price > 0.0
  }

  predicate ValidCreate(b: RateCreate) {
    && ValidCargoType(b.cargoType)
    && ValidPrice(b.buyRate)
    && ValidPrice(b.sellRate)
    && (b.currency.Some? ==> ValidCurrency(b.currency.value))
    && ValidUnit(b.unit)
  }

  /** A stored rate meets the constraints of the body that created it. */
  predicate Conforms(r: Rate) {
    ValidCargoType(r.cargoType) && ValidPrice(r.buyRate) && ValidPrice(r.sellRate)
    && ValidCurrency(r.currency) && ValidUnit(r.unit)
  }

  /** The row a create stores. */
  function NewRate(b: RateCreate, id: Id): (r: Rate)
    ensures r.id == id
    ensures r.currency == (if b.currency.Some? then b.currency.value else "USD")
    ensures r.clientId.None? <==> b.clientId.None?
    ensures ValidCreate(b) <==> Conforms(r)
  {
    Rate(id, b.cargoType, b.supplierId, b.clientId, b.buyRate, b.sellRate,
         b.currency.GetOr(DefaultCurrency), b.unit, b.validFrom, b.validTo)
  }

  /** An update body: every field optional; the nullable columns may be sent as null. */
  datatype RateUpdate = RateUpdate(
    cargoType: Option<string>,
    supplierId: Option<Id>,
    clientId: Option<Option<Id>>,
    buyRate: Option<real>,
    sellRate: Option<real>,
    currency: Option<string>,
    unit: Option<string>,
    validFrom: Option<Option<Date>>,
    validTo: Option<Option<Date>>)

  predicate ValidUpdate(u: RateUpdate) {
    && (u.cargoType.Some? ==> ValidCargoType(u.cargoType.value))
    && (u.buyRate.Some? ==> ValidPrice(u.buyRate.value))
    && (u.sellRate.Some? ==> ValidPrice(u.sellRate.value))
    && (u.currency.Some? ==> ValidCurrency(u.currency.value))
    && (u.unit.Some? ==> ValidUnit(u.unit.value))
  }

  /**
   * A partial update: sent fields replace, the rest stay. A valid update
   * keeps both prices positive and every bound of a conforming rate.
   */
  function Patch(r: Rate, u: RateUpdate): (r': Rate)
    ensures r'.id == r.id
    ensures Conforms(r) && ValidUpdate(u) ==> Conforms(r')
    ensures Conforms(r) && ValidUpdate(u) ==> r'.buyRate > 0.0 && r'.sellRate > 0.0
  {
    r.(cargoType := u.cargoType.GetOr(r.cargoType),
       supplierId := u.supplierId.GetOr(r.supplierId),
       clientId := u.clientId.GetOr(r.clientId),
       buyRate := u.buyRate.GetOr(r.buyRate),
       sellRate := u.sellRate.GetOr(r.sellRate),
       currency := u.currency.GetOr(r.currency),
       unit := u.unit.GetOr(r.unit),
       validFrom := u.validFrom.GetOr(r.validFrom),
       validTo := u.validTo.GetOr(r.validTo))
  }
}
