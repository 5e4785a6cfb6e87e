/**
 * The expense request bodies, their field constraints, and the fields an
 * update may touch: the update body has no `shipment_id`, so no update can
 * move an expense to another shipment.
 */
module ExpenseSchema {
  import opened Wrappers
  import opened Models

  /** A create body. `shipmentId` and `expenseDate` are required; `currency` absent means the default. */
  datatype ExpenseCreate = ExpenseCreate(
    shipmentId: Id,
    expenseType: ExpenseType,
    amount: real,
    currency: Option<string>,
    comment: Option<string>,
    expenseDate: Date)

  predicate ValidAmount(amount: real) {
    amount > 0.0
  }

  predicate ValidCreate(b: ExpenseCreate) {
    ValidAmount(b.amount) && (b.currency.Some? ==> ValidCurrency(b.currency.value))
  }

  /** A stored expense meets the constraints of the body that created it. */
  predicate Conforms(e: Expense) {
    ValidAmount(e.amount) && ValidCurrency(e.currency)
  }

  /** The row `Expense(**body.model_dump())`, with the key and creation time the store assigns. */
  function NewExpense(b: ExpenseCreate, id: Id, now: Timestamp): (e: Expense)
    ensures e.id == id && e.createdAt == now && e.shipmentId == b.shipmentId
    ensures e.expenseType == b.expenseType && e.amount == b.amount
    ensures e.comment == b.comment && e.expenseDate == b.expenseDate
    ensures e.currency == (if b.currency.Some? then b.currency.value else "USD")
    ensures ValidCreate(b) <==> Conforms(e)
  {
    Expense(id, b.shipmentId, b.expenseType, b.amount, b.currency.GetOr(DefaultCurrency), b.comment,
            b.expenseDate, now)
  }

  /** An update body: every field optional; the comment is nullable and may be sent as null. */
  datatype ExpenseUpdate = ExpenseUpdate(
    expenseType: Option<ExpenseType>,
    amount: Option<real>,
    currency: Option<string>,
    comment: Option<Option<string>>,
    expenseDate: Option<Date>)

  const EmptyUpdate: ExpenseUpdate := ExpenseUpdate(None, None, None, None, None)

  predicate ValidUpdate(u: ExpenseUpdate) {
    && (u.amount.Some? ==> ValidAmount(u.amount.value))
    && (u.currency.Some? ==> ValidCurrency(u.currency.value))
  }

  /** One entry of `model_dump(exclude_unset=True)`; there is no entry for `shipment_id`. */
  datatype ExpenseField =
    | SetExpenseType(expenseType: ExpenseType)
    | SetAmount(amount: real)
    | SetCurrency(currency: string)
    | SetComment(comment: Option<string>)
    | SetExpenseDate(expenseDate: Date)

  /** The columns an update may name. */
  datatype Column = ExpenseTypeColumn | AmountColumn | CurrencyColumn | CommentColumn | ExpenseDateColumn

  /** The entry for one column, present when the body sent that field. */
  function Sent(u: ExpenseUpdate, c: Column): Option<ExpenseField> {
    match c
    case ExpenseTypeColumn => if u.expenseType.Some? then Some(SetExpenseType(u.expenseType.value)) else None
    case AmountColumn => if u.amount.Some? then Some(SetAmount(u.amount.value)) else None
    case CurrencyColumn => if u.currency.Some? then Some(SetCurrency(u.currency.value)) else None
    case CommentColumn => if u.comment.Some? then Some(SetComment(u.comment.value)) else None
    case ExpenseDateColumn => if u.expenseDate.Some? then Some(SetExpenseDate(u.expenseDate.value)) else None
  }

  /** `model_dump(exclude_unset=True)`: the sent fields, in declaration order. */
  function Dump(u: ExpenseUpdate): seq<ExpenseField> {
    Cons(Sent(u, ExpenseTypeColumn), Cons(Sent(u, AmountColumn), Cons(Sent(u, CurrencyColumn),
    Cons(Sent(u, CommentColumn), Cons(Sent(u, ExpenseDateColumn), [])))))
  }

  /** `setattr(row, field, value)`. */
  function SetAttr(e: Expense, f: ExpenseField): Expense {
    match f
    case SetExpenseType(v) => e.(expenseType := v)
    case SetAmount(v) => e.(amount := v)
    case SetCurrency(v) => e.(currency := v)
    case SetComment(v) => e.(comment := v)
    case SetExpenseDate(v) => e.(expenseDate := v)
  }

  /** The row after `for field, value in fields: setattr(row, field, value)`. */
  function ApplyAll(e: Expense, fields: seq<ExpenseField>): Expense
    decreases |fields|
  {
    if fields == [] then e else ApplyAll(SetAttr(e, fields[0]), fields[1..])
  }

  /**
   * The reference meaning of an update: each sent field takes its new
   * value, every other column keeps its old one.
   */
  function Patch(e: Expense, u: ExpenseUpdate): (r: Expense)
    ensures r.id == e.id && r.shipmentId == e.shipmentId && r.createdAt == e.createdAt
    ensures Conforms(e) && ValidUpdate(u) ==> Conforms(r)
  {
    e.(expenseType := u.expenseType.GetOr(e.expenseType),
       amount := u.amount.GetOr(e.amount),
       currency := u.currency.GetOr(e.currency),
       comment := u.comment.GetOr(e.comment),
       expenseDate := u.expenseDate.GetOr(e.expenseDate))
  }

  /** Whatever fields are set, in whatever order, the key, the owning shipment and the creation time stay. */
  lemma {:induction false} SetAttrNeverMovesExpense(e: Expense, fields: seq<ExpenseField>)
    ensures ApplyAll(e, fields).id == e.id
    ensures ApplyAll(e, fields).shipmentId == e.shipmentId
    ensures ApplyAll(e, fields).createdAt == e.createdAt
    decreases |fields|
  {
    if fields != [] {
      SetAttrNeverMovesExpense(SetAttr(e, fields[0]), fields[1..]);
    }
  }

  /** One optional `setattr`. */
  function ApplyOpt(e: Expense, f: Option<ExpenseField>): Expense {
    if f.Some? then SetAttr(e, f.value) else e
  }

  lemma ApplyAllCons(e: Expense, f: Option<ExpenseField>, rest: seq<ExpenseField>)
    ensures ApplyAll(e, Cons(f, rest)) == ApplyAll(ApplyOpt(e, f), rest)
  {
    if f.Some? {
      assert ([f.value] + rest)[1..] == rest;
    }
  }

  /** Applying the dumped fields one `setattr` at a time is exactly the reference update. */
  lemma DumpThenSetAttrIsPatch(e: Expense, u: ExpenseUpdate)
    ensures ApplyAll(e, Dump(u)) == Patch(e, u)
  {
    var o1, o2, o3, o4, o5 :=
      Sent(u, ExpenseTypeColumn), Sent(u, AmountColumn), Sent(u, CurrencyColumn),
      Sent(u, CommentColumn), Sent(u, ExpenseDateColumn);
    var r5 := Cons(o5, []);
    var r4 := Cons(o4, r5);
    var r3 := Cons(o3, r4);
    var r2 := Cons(o2, r3);
    var e1 := e.(expenseType := u.expenseType.GetOr(e.expenseType));
    var e2 := e1.(amount := u.amount.GetOr(e.amount));
    var e3 := e2.(currency := u.currency.GetOr(e.currency));
    var e4 := e3.(comment := u.comment.GetOr(e.comment));
    var e5 := e4.(expenseDate := u.expenseDate.GetOr(e.expenseDate));
    assert ApplyAll(e, Dump(u)) == ApplyAll(e1, r2) by { ApplyAllCons(e, o1, r2); }
    assert ApplyAll(e1, r2) == ApplyAll(e2, r3) by { ApplyAllCons(e1, o2, r3); }
    assert ApplyAll(e2, r3) == ApplyAll(e3, r4) by { ApplyAllCons(e2, o3, r4); }
    assert ApplyAll(e3, r4) == ApplyAll(e4, r5) by { ApplyAllCons(e3, o4, r5); }
    assert ApplyAll(e4, r5) == e5 by { ApplyAllCons(e4, o5, []); }
  }

  /** An update that sends nothing dumps nothing and leaves the row as it is. */
  lemma EmptyUpdateChangesNothing(e: Expense)
    ensures ValidUpdate(EmptyUpdate) && Dump(EmptyUpdate) == []
    ensures Patch(e, EmptyUpdate) == e
  {
  }
}
