// The two documents of the stock engine: the inventory record of one
// (product, club) pair and the movement entry appended for every stock event.
// Schema defaults and enums of models/Inventory.js and models/Movement.js.

module InventorySchema {
  import opened Common

  /**
   * Preparation stock: containers assigned to preparation, portions per container and the
   * portions left, plus the optional catalogue data copied at product creation.
   */
  datatype Preparation = Preparation(
    units: int, portionsPerUnit: int, currentPortions: int,
    portionPrice: Option<int>, portionSize: Option<string>)

  /**
   * One inventory document. No field has a `min` validator, so every balance is a plain
   * (possibly negative) integer; `updatedAt` is a time in milliseconds.
   */
  datatype Record = Record(product: Id, clubId: Id, sealed: int, preparation: Preparation, updatedAt: int)

  /** The pair that locates a record: `Inventory.findOne({ product, clubId })`. */
  datatype Key = Key(product: Id, clubId: Id)

  function KeyOf(r: Record): Key
  {
    Key(r.product, r.clubId)
  }

  /** Equal as stored documents apart from the `updatedAt` stamp. */
  predicate SameStock(a: Record, b: Record)
  {
    a.(updatedAt := b.updatedAt) == b
  }

  /** The `preparation` path with its defaults; Mongoose always materialises it, so it is never absent. */
  const ZeroPreparation := Preparation(0, 0, 0, None, None)

  /**
   * `new Inventory({ product, clubId })`: every number takes its schema default 0 and
   * `updatedAt` the creation time.
   */
  function DefaultRecord(k: Key, now: int): (r: Record)
    ensures KeyOf(r) == k && r.updatedAt == now
    ensures r.sealed == 0 && r.preparation.units == 0
    ensures r.preparation.portionsPerUnit == 0 && r.preparation.currentPortions == 0
    ensures r.preparation.portionPrice.None? && r.preparation.portionSize.None?
  {
    Record(k.product, k.clubId, 0, ZeroPreparation, now)
  }

  // ---------------------------------------------------------------- movements

  datatype MovementType = Venta | Uso | Compra | Ajuste
  datatype Unit = Sealed | Portion

  function TypeName(t: MovementType): string
  {
    match t
    case Venta => "venta"
    case Uso => "uso"
    case Compra => "compra"
    case Ajuste => "ajuste"
  }

  function UnitName(u: Unit): string
  {
    match u
    case Sealed => "sealed"
    case Portion => "portion"
  }

  /** The `type` enum validator: `['venta', 'uso', 'compra', 'ajuste']`. */
  function ParseType(s: string): (r: Option<MovementType>)
    ensures r.Some? ==> TypeName(r.value) == s
  {
    if s == "venta" then Some(Venta)
    else if s == "uso" then Some(Uso)
    else if s == "compra" then Some(Compra)
    else if s == "ajuste" then Some(Ajuste)
    else None
  }

  /** The `unit` enum validator: `['sealed', 'portion']`. */
  function ParseUnit(s: string): (r: Option<Unit>)
    ensures r.Some? ==> UnitName(r.value) == s
  {
    if s == "sealed" then Some(Sealed) else if s == "portion" then Some(Portion) else None
  }

  /** Every enum value passes its validator, so the enum text and the datatype are in bijection. */
  lemma EnumRoundTrip(t: MovementType, u: Unit)
    ensures ParseType(TypeName(t)) == Some(t)
    ensures ParseUnit(UnitName(u)) == Some(u)
  {
  }

  /** A stored movement entry; `date` defaults to the creation time. */
  datatype Movement = Movement(
    product: Id, clubId: Id, mtype: MovementType, quantity: int, unit: Unit,
    description: Option<string>, user: Id, date: int)

  function MovementKey(m: Movement): Key
  {
    Key(m.product, m.clubId)
  }

  /**
   * `new Movement({...}).save()`: product, clubId, type, quantity, unit and user are required,
   * type and unit must lie in their enums, quantity has no sign constraint and description is
   * optional. `None` is a validation error, in which case nothing is stored.
   */
  function ValidateMovement(
    product: Option<Id>, clubId: Option<Id>, mtype: Option<string>, quantity: Option<int>,
    unit: Option<string>, description: Option<string>, user: Option<Id>, now: int): (r: Option<Movement>)
    ensures r.Some? <==>
      product.Some? && clubId.Some? && mtype.Some? && quantity.Some? && unit.Some? && user.Some?
      && ParseType(mtype.value).Some? && ParseUnit(unit.value).Some?
    ensures r.Some? ==>
      r.value.product == product.value && r.value.clubId == clubId.value
      && TypeName(r.value.mtype) == mtype.value && UnitName(r.value.unit) == unit.value
      && r.value.quantity == quantity.value && r.value.description == description
      && r.value.user == user.value && r.value.date == now
  {
    if product.None? || clubId.None? || mtype.None? || quantity.None? || unit.None? || user.None? then None
    else
      match (ParseType(mtype.value), ParseUnit(unit.value))
      case (Some(t), Some(u)) =>
        Some(Movement(product.value, clubId.value, t, quantity.value, u, description, user.value, now))
      case _ => None
  }
}
