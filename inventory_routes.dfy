// `POST /movement` and `GET /movements/:inventoryId` of routes/inventory.js:
// the general movement handler, the only copy of the engine that handles all
// four movement types and rejects negative results.

module InventoryRoutes {
  import opened Common
  import opened JsStrings
  import opened InventorySchema
  import opened StockEffect
  import opened Documents
  import opened Ledger

  /** The request body; an absent JSON field is `None`. */
  datatype MovementRequest = MovementRequest(
    productId: Option<Id>, clubId: Option<Id>, mtype: Option<string>, quantity: Option<int>,
    unit: Option<string>, description: Option<string>, purchasePrice: Option<int>)

  datatype Response =
    | Recorded(movement: Movement)   // 200 'Movimiento registrado correctamente'
    | BadRequest(message: string)    // 400
    | Failed(message: string)        // 500 with the error's message

  const MissingFields := "Faltan datos requeridos"
  const NonPositive := "La cantidad debe ser mayor a 0"
  const NoStock := "Stock insuficiente"
  const NoPortions := "Porciones insuficientes"
  const MovementInvalid := "Movement validation failed"

  /** JavaScript truthiness of an optional string and of an optional number. */
  predicate Truthy(s: Option<string>)
  {
    s.Some? && s.value != ""
  }

  predicate TruthyNumber(n: Option<int>)
  {
    n.Some? && n.value != 0
  }

  /**
   * The two 400 checks: a falsy productId, clubId, type, quantity (0 included) or unit, then a
   * non-positive quantity. `None` means the request passes both.
   */
  function Precheck(req: MovementRequest): (r: Option<string>)
    ensures r.None? <==>
      req.productId.Some? && req.clubId.Some? && Truthy(req.mtype) && Truthy(req.unit)
      && req.quantity.Some? && req.quantity.value > 0
    ensures r.Some? ==> r.value == MissingFields || r.value == NonPositive
    ensures r == Some(NonPositive) ==> req.quantity.Some? && req.quantity.value < 0
  {
    if req.productId.None? || req.clubId.None? || !Truthy(req.mtype) || !TruthyNumber(req.quantity)
       || !Truthy(req.unit) then Some(MissingFields)
    else if req.quantity.value <= 0 then Some(NonPositive)
    else None
  }

  /** What the dispatch does to the looked-up record. */
  datatype Step = Apply(rec: Record) | Keep | Reject(message: string)

  /**
   * The dispatch of the handler: `compra` acts only when a price is given, `venta` and `uso`
   * on portions reject a negative result, `uso` on sealed stock and a price-less `compra` keep
   * the record as it is.
   */
  function StockStep(t: MovementType, u: Unit, q: int, priced: bool, r: Record): Step
  {
    if t == Compra && !priced then Keep
    else
      var r' := Effect(t, u, q, r);
      if t == Venta && u == Sealed && r'.sealed < 0 then Reject(NoStock)
      else if !Adds(t) && u == Portion && r'.preparation.currentPortions < 0 then Reject(NoPortions)
      else Apply(r')
  }

  /** A step is rejected exactly when a subtraction would take its axis below zero. */
  lemma StockStepRejectsIff(t: MovementType, u: Unit, q: int, priced: bool, r: Record)
    ensures StockStep(t, u, q, priced, r).Reject? <==>
      (t == Venta && u == Sealed && r.sealed < q)
      || (t in {Venta, Uso} && u == Portion && r.preparation.currentPortions < q)
    ensures StockStep(t, u, q, priced, r) == Reject(NoStock) <==> t == Venta && u == Sealed && r.sealed < q
  {
  }

  /** A price-less purchase, or a sealed `uso`, leaves every balance as it was. */
  lemma StockStepNoOp(u: Unit, q: int, priced: bool, r: Record)
    ensures StockStep(Compra, u, q, false, r) == Keep
    ensures StockStep(Uso, Sealed, q, priced, r) == Apply(r)
  {
  }

  /**
   * Whatever the record, the handler never stores a negative result of a subtraction; with
   * non-negative balances, a positive quantity and a non-negative portions-per-unit, an accepted
   * step keeps all three balances non-negative.
   */
  lemma StockStepNonNegative(t: MovementType, u: Unit, q: int, priced: bool, r: Record)
    requires q > 0 && r.preparation.portionsPerUnit >= 0
    requires r.sealed >= 0 && r.preparation.units >= 0 && r.preparation.currentPortions >= 0
    ensures StockStep(t, u, q, priced, r).Apply? ==>
      var r' := StockStep(t, u, q, priced, r).rec;
      r'.sealed >= 0 && r'.preparation.units >= 0 && r'.preparation.currentPortions >= 0
  {
    EffectIsTranslation(t, u, q, r);
  }

  /** An adjustment is never rejected and, with q > 0, only increases stock. */
  lemma AjusteOnlyIncreases(u: Unit, q: int, priced: bool, r: Record)
    requires q > 0 && r.preparation.portionsPerUnit >= 0
    ensures StockStep(Ajuste, u, q, priced, r).Apply?
    ensures StockStep(Ajuste, u, q, priced, r) == StockStep(Compra, u, q, true, r)
    ensures var r' := StockStep(Ajuste, u, q, priced, r).rec;
      r'.sealed >= r.sealed && r'.preparation.units >= r.preparation.units
      && r'.preparation.currentPortions >= r.preparation.currentPortions
  {
    EffectMonotone(Ajuste, u, q, r);
  }

  /** `${description}` of an optional string: an absent description prints as `undefined`. */
  function Interpolate(s: Option<string>): string
  {
    if s.Some? then s.value else "undefined"
  }

  /** The expense a priced purchase writes: category 'producto', amount quantity × price. */
  function PurchaseExpense(m: Movement, price: int): (e: Expense)
    ensures e.clubId == m.clubId && e.product == Some(m.product) && e.user == m.user && e.date == m.date
    ensures e.category == Some("producto") && e.amount == m.quantity * price
    ensures e.description == Some("Compra de inventario: " + Interpolate(m.description))
  {
    Expense(m.clubId, Some(m.product), Some("producto"), m.quantity * price,
            Some("Compra de inventario: " + Interpolate(m.description)), m.date, m.user)
  }

  /** The movement a request stores: `None` when the request is refused before any write. */
  function AcceptedMovement(req: MovementRequest, userId: Id, now: int): Option<Movement>
  {
    if Precheck(req).Some? then None
    else ValidateMovement(req.productId, req.clubId, req.mtype, req.quantity, req.unit,
                          req.description, Some(userId), now)
  }

  /**
   * The in-place dispatch on the looked-up document: fields are reassigned one branch at a time
   * and the two insufficiency checks follow their subtraction.
   */
  method Dispatch(t: MovementType, u: Unit, q: int, priced: bool, rec: Record) returns (step: Step)
    ensures step == StockStep(t, u, q, priced, rec)
  {
    var inv := rec;
    if t == Compra && priced {
      if u == Sealed {
        inv := inv.(sealed := inv.sealed + q);
      } else {
        var p := inv.preparation;
        inv := inv.(preparation := p.(units := p.units + q,
                                      currentPortions := p.currentPortions + q * PortionFactor(p.portionsPerUnit)));
      }
    } else if t == Venta {
      if u == Sealed {
        inv := inv.(sealed := inv.sealed - q);
        if inv.sealed < 0 {
          return Reject(NoStock);
        }
      } else {
        inv := inv.(preparation := inv.preparation.(currentPortions := inv.preparation.currentPortions - q));
        if inv.preparation.currentPortions < 0 {
          return Reject(NoPortions);
        }
      }
    } else if t == Uso && u == Portion {
      inv := inv.(preparation := inv.preparation.(currentPortions := inv.preparation.currentPortions - q));
      if inv.preparation.currentPortions < 0 {
        return Reject(NoPortions);
      }
    } else if t == Ajuste {
      if u == Sealed {
        inv := inv.(sealed := inv.sealed + q);
      } else {
        var p := inv.preparation;
        inv := inv.(preparation := p.(units := p.units + q,
                                      currentPortions := p.currentPortions + q * PortionFactor(p.portionsPerUnit)));
      }
    }
    if t == Compra && !priced {
      step := Keep;
    } else {
      step := Apply(inv);
    }
  }

  /**
   * `POST /movement`. The movement is saved before the stock check, so a rejected `venta`/`uso`
   * leaves its entry in the log and the stored record untouched; a priced `compra` also writes
   * an expense.
   */
  method PostMovement(st: Store, req: MovementRequest, userId: Id, now: int) returns (resp: Response)
    requires st.Valid()
    modifies st
    ensures st.Valid()
    ensures st.products == old(st.products) && st.sales == old(st.sales) && st.clients == old(st.clients)
    ensures Precheck(req).Some? ==> resp == BadRequest(Precheck(req).value)
    ensures Precheck(req).None? && AcceptedMovement(req, userId, now).None? ==> resp == Failed(MovementInvalid)
    ensures AcceptedMovement(req, userId, now).None? ==>
      st.inventory == old(st.inventory) && st.movements == old(st.movements) && st.expenses == old(st.expenses)
      && st.origin == old(st.origin) && st.applied == old(st.applied)
    ensures AcceptedMovement(req, userId, now).Some? ==>
      var m := AcceptedMovement(req, userId, now).value;
      var k := MovementKey(m);
      var priced := TruthyNumber(req.purchasePrice);
      var step := StockStep(m.mtype, m.unit, m.quantity, priced, old(st.Lookup(k, now)));
      st.movements == old(st.movements) + [m]
      && st.applied == old(st.applied) + [step.Apply?]
      && st.origin == (if step.Reject? then old(st.origin) else Seeded(old(st.origin), old(st.inventory), k, DefaultRecord(k, now)))
      && st.expenses == old(st.expenses)
           + (if m.mtype == Compra && priced then [PurchaseExpense(m, req.purchasePrice.value)] else [])
      && (step.Reject? ==> resp == Failed(step.message) && st.inventory == old(st.inventory))
      && (step.Keep? ==>
            resp == Recorded(m) && st.inventory == old(st.inventory)[k := old(st.Lookup(k, now)).(updatedAt := now)])
      && (step.Apply? ==> resp == Recorded(m) && st.inventory == old(st.inventory)[k := step.rec.(updatedAt := now)])
  {
    var pre := Precheck(req);
    if pre.Some? {
      return BadRequest(pre.value);
    }
    var checked := ValidateMovement(req.productId, req.clubId, req.mtype, req.quantity, req.unit,
                                    req.description, Some(userId), now);
    if checked.None? {
      return Failed(MovementInvalid);
    }
    var m := checked.value;
    st.SaveMovement(m);
    resp := ApplyLogged(st, m, req.purchasePrice, now);
  }

  /**
   * The part of `POST /movement` after the movement is saved: the purchase expense, the dispatch
   * on the looked-up (or fresh) record and its save.
   */
  method ApplyLogged(st: Store, m: Movement, purchasePrice: Option<int>, now: int) returns (resp: Response)
    requires st.Valid()
    requires |st.movements| > 0 && st.movements[|st.movements| - 1] == m && !st.applied[|st.applied| - 1]
    modifies st`inventory, st`expenses, st`origin, st`applied
    ensures st.Valid()
    ensures var k := MovementKey(m);
      var priced := TruthyNumber(purchasePrice);
      var step := StockStep(m.mtype, m.unit, m.quantity, priced, old(st.Lookup(k, now)));
      st.applied == old(st.applied)[|old(st.applied)| - 1 := step.Apply?]
      && st.origin == (if step.Reject? then old(st.origin) else Seeded(old(st.origin), old(st.inventory), k, DefaultRecord(k, now)))
      && st.expenses == old(st.expenses)
           + (if m.mtype == Compra && priced then [PurchaseExpense(m, purchasePrice.value)] else [])
      && (step.Reject? ==> resp == Failed(step.message) && st.inventory == old(st.inventory))
      && (step.Keep? ==>
            resp == Recorded(m) && st.inventory == old(st.inventory)[k := old(st.Lookup(k, now)).(updatedAt := now)])
      && (step.Apply? ==> resp == Recorded(m) && st.inventory == old(st.inventory)[k := step.rec.(updatedAt := now)])
  {
    var k := MovementKey(m);
    var rec := st.Lookup(k, now);
    var priced := TruthyNumber(purchasePrice);
    if m.mtype == Compra && priced {
      st.expenses := st.expenses + [PurchaseExpense(m, purchasePrice.value)];
    }
    var step := Dispatch(m.mtype, m.unit, m.quantity, priced, rec);
    match step
    case Reject(msg) =>
      resp := Failed(msg);
    case Keep =>
      st.SaveUnchanged(rec.(updatedAt := now));
      resp := Recorded(m);
    case Apply(r) =>
      st.SaveEffect(r.(updatedAt := now));
      resp := Recorded(m);
  }

  // ---------------------------------------------------------------- GET /movements/:inventoryId

  /** The log entries of one product, in log order, over every club. */
  function ProductMovements(ms: seq<Movement>, product: Id): (r: seq<Movement>)
    ensures |r| <= |ms|
    ensures forall i :: 0 <= i < |r| ==> r[i].product == product
    ensures forall i :: 0 <= i < |ms| && ms[i].product == product ==> ms[i] in r
  {
    if ms == [] then []
    else
      ProductMovements(ms[..|ms| - 1], product)
        + (if ms[|ms| - 1].product == product then [ms[|ms| - 1]] else [])
  }

  /**
   * `GET /movements/:inventoryId`: `None` is the 404 for an id that designates no record; the
   * history is looked up by the record's product only.
   */
  function MovementHistory(inventory: map<Key, Record>, ms: seq<Movement>, k: Key): (r: Option<seq<Movement>>)
    ensures r.None? <==> k !in inventory
    ensures r.Some? ==> r.value == ProductMovements(ms, k.product)
  {
    if k !in inventory then None else Some(ProductMovements(ms, k.product))
  }

  /** The history is not restricted to the record's club: another club's entry for the product is listed. */
  lemma HistorySpansClubs(inventory: map<Key, Record>, m: Movement, k: Key)
    requires k in inventory && m.product == k.product && m.clubId != k.clubId
    ensures MovementHistory(inventory, [m], k) == Some([m])
  {
    assert [m][..0] == [];
    assert ProductMovements([], k.product) == [];
    assert ProductMovements([m], k.product) == ProductMovements([], k.product) + [m];
    assert [] + [m] == [m];
  }
}
