// `POST /` and `GET /kpis` of routes/expenses.js: the purchase path (the third
// copy of the stock engine, which only acts on `compra`) and the monthly
// category totals with their top category.

module ExpensesRoutes {
  import opened Common
  import opened JsStrings
  import opened ObjectKeys
  import opened InventorySchema
  import opened StockEffect
  import opened Documents
  import opened Ledger
  import InventoryRoutes

  /** The request body; an absent JSON field is `None`. */
  datatype ExpenseRequest = ExpenseRequest(
    clubId: Option<Id>, category: Option<string>, productId: Option<Id>, mtype: Option<string>,
    quantity: Option<int>, unit: Option<string>, expenseAmount: Option<int>, description: Option<string>)

  datatype Response =
    | Recorded(expense: Expense)  // 201 'Gasto registrado correctamente'
    | BadRequest(message: string) // 400
    | Failed(message: string)     // 500 with the error's message

  const MissingExpenseFields := "Faltan datos requeridos en el gasto"
  const MissingPurchaseFields := "Faltan datos requeridos para el gasto de compra de producto"

  /** The category that triggers the stock path. */
  const PurchaseCategory := "purchase"

  predicate IsPurchase(req: ExpenseRequest)
  {
    req.category == Some(PurchaseCategory)
  }

  /**
   * The 400 checks, in order: a falsy clubId, category or expenseAmount; then, for a purchase, a
   * falsy productId, type, quantity or unit; then a non-positive quantity. `None` means the
   * request passes all of them.
   */
  function Precheck(req: ExpenseRequest): (r: Option<string>)
    ensures r.None? <==>
      req.clubId.Some? && InventoryRoutes.Truthy(req.category) && InventoryRoutes.TruthyNumber(req.expenseAmount)
      && (IsPurchase(req) ==>
            req.productId.Some? && InventoryRoutes.Truthy(req.mtype) && InventoryRoutes.Truthy(req.unit)
            && req.quantity.Some? && req.quantity.value > 0)
    ensures r.Some? ==> r.value in {MissingExpenseFields, MissingPurchaseFields, InventoryRoutes.NonPositive}
    ensures r.Some? && !IsPurchase(req) ==> r.value == MissingExpenseFields
  {
    if req.clubId.None? || !InventoryRoutes.Truthy(req.category) || !InventoryRoutes.TruthyNumber(req.expenseAmount) then
      Some(MissingExpenseFields)
    else if IsPurchase(req) then
      if req.productId.None? || !InventoryRoutes.Truthy(req.mtype) || !InventoryRoutes.TruthyNumber(req.quantity)
         || !InventoryRoutes.Truthy(req.unit) then Some(MissingPurchaseFields)
      else if req.quantity.value <= 0 then Some(InventoryRoutes.NonPositive)
      else None
    else None
  }

  /** `${description} - Gasto: $${expenseAmount}`, or `Gasto de compra: $${expenseAmount}` without a description. */
  function MovementDescription(description: Option<string>, amount: int): string
  {
    if InventoryRoutes.Truthy(description) then description.value + " - Gasto: $" + IntToString(amount)
    else "Gasto de compra: $" + IntToString(amount)
  }

  /** The amount can be read back from the movement's description: it is everything after the last `$`. */
  lemma DescriptionCarriesAmount(description: Option<string>, amount: int)
    ensures var d := MovementDescription(description, amount);
      var s := IntToString(amount);
      |s| < |d| && d[|d| - |s| - 1] == '$' && d[|d| - |s|..] == s && ParseInt(d[|d| - |s|..]) == Some(amount)
  {
    var s := IntToString(amount);
    var d := MovementDescription(description, amount);
    var prefix := if InventoryRoutes.Truthy(description) then description.value + " - Gasto: $" else "Gasto de compra: $";
    assert d == prefix + s;
    assert d[|d| - |s|..] == s;
    ParseIntOfIntToString(amount);
  }

  /** The movement a purchase stores; `None` when the movement fails validation. */
  function PurchaseMovement(req: ExpenseRequest, userId: Id, now: int): Option<Movement>
    requires req.expenseAmount.Some?
  {
    ValidateMovement(req.productId, req.clubId, req.mtype, req.quantity, req.unit,
                     Some(MovementDescription(req.description, req.expenseAmount.value)), Some(userId), now)
  }

  /** The expense every accepted request stores: `product` only when a productId is given. */
  function ExpenseDoc(req: ExpenseRequest, userId: Id, now: int): (e: Expense)
    requires req.clubId.Some? && req.expenseAmount.Some?
    ensures e.product.Some? <==> req.productId.Some?
    ensures e.product.Some? ==> e.product == req.productId
    ensures e.clubId == req.clubId.value && e.amount == req.expenseAmount.value
    ensures e.category == req.category && e.description == req.description
    ensures e.user == userId && e.date == now
  {
    Expense(req.clubId.value, req.productId, req.category, req.expenseAmount.value, req.description, now, userId)
  }

  /** What the purchase path does to the record: only `compra` changes stock. */
  function PurchaseStep(m: Movement, r: Record): Record
  {
    if m.mtype == Compra then Effect(Compra, m.unit, m.quantity, r) else r
  }

  /**
   * The purchase path agrees with the general handler's priced `compra`, and a purchase whose type
   * is not `compra` leaves every balance alone.
   */
  lemma PurchaseStepAgrees(m: Movement, r: Record)
    ensures m.mtype == Compra ==> InventoryRoutes.StockStep(Compra, m.unit, m.quantity, true, r) == InventoryRoutes.Apply(PurchaseStep(m, r))
    ensures m.mtype != Compra ==> PurchaseStep(m, r) == r
    ensures m.mtype == Compra && m.unit == Sealed ==>
      PurchaseStep(m, r).sealed == r.sealed + m.quantity && PurchaseStep(m, r).preparation == r.preparation
    ensures m.mtype == Compra && m.unit == Portion ==>
      PurchaseStep(m, r).sealed == r.sealed
      && PurchaseStep(m, r).preparation.units == r.preparation.units + m.quantity
      && PurchaseStep(m, r).preparation.currentPortions
         == r.preparation.currentPortions + m.quantity * PortionFactor(r.preparation.portionsPerUnit)
  {
    EffectIsTranslation(m.mtype, m.unit, m.quantity, r);
  }

  /**
   * The purchase path after the movement is saved: the looked-up (or fresh) record is updated,
   * for `compra` only, and saved.
   */
  method ApplyPurchase(st: Store, m: Movement, now: int)
    requires st.Valid()
    requires |st.movements| > 0 && st.movements[|st.movements| - 1] == m && !st.applied[|st.applied| - 1]
    modifies st`inventory, st`origin, st`applied
    ensures st.Valid()
    ensures var k := MovementKey(m);
      st.inventory == old(st.inventory)[k := PurchaseStep(m, old(st.Lookup(k, now))).(updatedAt := now)]
    // Only a `compra` takes effect; either way a record that did not exist starts from the default.
    ensures st.applied == old(st.applied)[|old(st.applied)| - 1 := m.mtype == Compra]
    ensures var k := MovementKey(m);
      st.origin == Seeded(old(st.origin), old(st.inventory), k, DefaultRecord(k, now))
  {
    var k := MovementKey(m);
    var inventory := st.Lookup(k, now);
    if m.mtype == Compra {
      if m.unit == Sealed {
        inventory := inventory.(sealed := inventory.sealed + m.quantity);
      } else {
        var p := inventory.preparation;
        var portionsToAdd := m.quantity * PortionFactor(p.portionsPerUnit);
        inventory := inventory.(preparation := p.(units := p.units + m.quantity,
                                                  currentPortions := p.currentPortions + portionsToAdd));
      }
      st.SaveEffect(inventory.(updatedAt := now));
    } else {
      st.SaveUnchanged(inventory.(updatedAt := now));
    }
  }

  /**
   * `POST /`. Every accepted request writes exactly one expense; a purchase first writes its
   * movement and its record.
   */
  method PostExpense(st: Store, req: ExpenseRequest, userId: Id, now: int) returns (resp: Response)
    requires st.Valid()
    modifies st
    ensures st.Valid()
    ensures st.products == old(st.products) && st.sales == old(st.sales) && st.clients == old(st.clients)
    ensures Precheck(req).Some? ==> resp == BadRequest(Precheck(req).value)
    ensures Precheck(req).None? && IsPurchase(req) && PurchaseMovement(req, userId, now).None? ==>
      resp == Failed(InventoryRoutes.MovementInvalid)
    ensures Precheck(req).Some? || (IsPurchase(req) && PurchaseMovement(req, userId, now).None?) ==>
      st.expenses == old(st.expenses) && st.movements == old(st.movements) && st.inventory == old(st.inventory)
    ensures !(Precheck(req).None? && IsPurchase(req) && PurchaseMovement(req, userId, now).Some?) ==>
      st.applied == old(st.applied) && st.origin == old(st.origin)
    ensures Precheck(req).None? && !IsPurchase(req) ==>
      resp == Recorded(ExpenseDoc(req, userId, now))
      && st.expenses == old(st.expenses) + [ExpenseDoc(req, userId, now)]
      && st.movements == old(st.movements) && st.inventory == old(st.inventory)
    ensures Precheck(req).None? && IsPurchase(req) && PurchaseMovement(req, userId, now).Some? ==>
      var m := PurchaseMovement(req, userId, now).value;
      var k := MovementKey(m);
      resp == Recorded(ExpenseDoc(req, userId, now))
      && st.expenses == old(st.expenses) + [ExpenseDoc(req, userId, now)]
      && st.movements == old(st.movements) + [m]
      && st.inventory == old(st.inventory)[k := PurchaseStep(m, old(st.Lookup(k, now))).(updatedAt := now)]
      && st.applied == old(st.applied) + [m.mtype == Compra]
      && st.origin == Seeded(old(st.origin), old(st.inventory), k, DefaultRecord(k, now))
  {
    var pre := Precheck(req);
    if pre.Some? {
      return BadRequest(pre.value);
    }
    if IsPurchase(req) {
      var checked := PurchaseMovement(req, userId, now);
      if checked.None? {
        return Failed(InventoryRoutes.MovementInvalid);
      }
      var m := checked.value;
      st.SaveMovement(m);
      ApplyPurchase(st, m, now);
    }
    var expense := ExpenseDoc(req, userId, now);
    st.expenses := st.expenses + [expense];
    resp := Recorded(expense);
  }

  // ---------------------------------------------------------------- GET /kpis

  /** `reduce((sum, expense) => sum + expense.amount, 0)`. */
  function TotalAmount(es: seq<Expense>): int
  {
    if es == [] then 0 else TotalAmount(es[..|es| - 1]) + es[|es| - 1].amount
  }

  /** The property name an expense is counted under: an absent category becomes the key "undefined". */
  function CategoryKey(e: Expense): string
  {
    InventoryRoutes.Interpolate(e.category)
  }

  /** The sum of the amounts of the expenses counted under `c`. */
  function CategoryTotal(es: seq<Expense>, c: string): int
  {
    if es == [] then 0
    else CategoryTotal(es[..|es| - 1], c) + (if CategoryKey(es[|es| - 1]) == c then es[|es| - 1].amount else 0)
  }

  /** The properties of `categoryTotals` in the order the loop creates them. */
  function Categories(es: seq<Expense>): (ks: seq<string>)
  {
    if es == [] then []
    else
      var ks := Categories(es[..|es| - 1]);
      if CategoryKey(es[|es| - 1]) in ks then ks else ks + [CategoryKey(es[|es| - 1])]
  }

  /** The `categoryTotals` object, as a map; `Object.keys` lists it as `OwnKeys(Categories(es))`. */
  function TotalsOf(es: seq<Expense>): (totals: map<string, int>)
  {
    map c | c in Categories(es) :: CategoryTotal(es, c)
  }

  /** The keys are distinct and are exactly the categories that occur. */
  lemma {:induction false} CategoriesExact(es: seq<Expense>)
    ensures forall i, j :: 0 <= i < j < |Categories(es)| ==> Categories(es)[i] != Categories(es)[j]
    ensures forall c :: c in Categories(es) <==> exists i :: 0 <= i < |es| && CategoryKey(es[i]) == c
    decreases |es|
  {
    if es != [] {
      var init := es[..|es| - 1];
      CategoriesExact(init);
      assert forall i :: 0 <= i < |init| ==> init[i] == es[i];
    }
  }

  /** A category that does not occur totals 0. */
  lemma {:induction false} AbsentCategoryTotal(es: seq<Expense>, c: string)
    requires c !in Categories(es)
    ensures CategoryTotal(es, c) == 0
    decreases |es|
  {
    if es != [] {
      var init := es[..|es| - 1];
      assert c !in Categories(init);
      AbsentCategoryTotal(init, c);
    }
  }

  function TotalsAt(es: seq<Expense>, ks: seq<string>): seq<int>
  {
    seq(|ks|, i requires 0 <= i < |ks| => CategoryTotal(es, ks[i]))
  }

  /** The category totals partition the overall total: no amount is lost or counted twice. */
  lemma {:induction false} TotalsPartition(es: seq<Expense>)
    ensures Sum(TotalsAt(es, Categories(es))) == TotalAmount(es)
    decreases |es|
  {
    if es != [] {
      var init := es[..|es| - 1];
      var e := es[|es| - 1];
      var c := CategoryKey(e);
      var ks := Categories(init);
      TotalsPartition(init);
      var before := TotalsAt(init, ks);
      if c in ks {
        var j :| 0 <= j < |ks| && ks[j] == c;
        CategoriesExact(init);
        SumChangeOne(before, TotalsAt(es, ks), j, e.amount);
      } else {
        AbsentCategoryTotal(init, c);
        assert TotalsAt(es, ks + [c])[..|ks|] == before;
        SumAppend(before, [e.amount]);
        assert TotalsAt(es, ks + [c]) == before + [e.amount];
      }
    }
  }

  /** One more expense adds its amount to its own category's total, creating the category at 0 if needed. */
  lemma TotalsSnoc(es: seq<Expense>, e: Expense)
    ensures Categories(es + [e]) == if CategoryKey(e) in Categories(es) then Categories(es) else Categories(es) + [CategoryKey(e)]
    ensures TotalsOf(es + [e])
         == TotalsOf(es)[CategoryKey(e) := (if CategoryKey(e) in TotalsOf(es) then TotalsOf(es)[CategoryKey(e)] else 0) + e.amount]
  {
    var c := CategoryKey(e);
    assert (es + [e])[..|es|] == es;
    if c !in Categories(es) {
      AbsentCategoryTotal(es, c);
    }
    var lhs := TotalsOf(es + [e]);
    var rhs := TotalsOf(es)[c := (if c in TotalsOf(es) then TotalsOf(es)[c] else 0) + e.amount];
    assert lhs.Keys == rhs.Keys;
    forall d | d in lhs.Keys
      ensures lhs[d] == rhs[d]
    {
    }
  }

  /**
   * The `forEach` over the current month's expenses: each category's total is created at 0 the
   * first time the category is met and then accumulated.
   */
  method CategoryTotals(es: seq<Expense>) returns (keys: seq<string>, totals: map<string, int>)
    ensures keys == Categories(es) && totals == TotalsOf(es)
  {
    keys, totals := [], map[];
    for i := 0 to |es|
      invariant keys == Categories(es[..i])
      invariant totals == TotalsOf(es[..i])
    {
      assert es[..i + 1] == es[..i] + [es[i]];
      TotalsSnoc(es[..i], es[i]);
      var cat := CategoryKey(es[i]);
      if cat !in totals || totals[cat] == 0 {
        if cat !in totals {
          keys := keys + [cat];
        }
        totals := totals[cat := 0];
      }
      totals := totals[cat := totals[cat] + es[i].amount];
    }
    assert es[..|es|] == es;
  }

  /** `Object.keys(categoryTotals).reduce((a, b) => categoryTotals[a] > categoryTotals[b] ? a : b)`. */
  function TopKey(keys: seq<string>, totals: map<string, int>): (top: string)
    requires keys != [] && forall k :: k in keys ==> k in totals
    ensures top in keys
  {
    if |keys| == 1 then keys[0]
    else
      var a := TopKey(keys[..|keys| - 1], totals);
      var b := keys[|keys| - 1];
      if totals[a] > totals[b] then a else b
  }

  /** The position the reduction ends on. */
  function TopIndex(keys: seq<string>, totals: map<string, int>): (j: nat)
    requires keys != [] && forall k :: k in keys ==> k in totals
    ensures j < |keys|
  {
    if |keys| == 1 then 0
    else
      var a := TopIndex(keys[..|keys| - 1], totals);
      if totals[keys[a]] > totals[keys[|keys| - 1]] then a else |keys| - 1
  }

  /**
   * The reduction picks a maximal key, and among equal maxima the last one in key order: every
   * key after the chosen position has a strictly smaller total.
   */
  lemma {:induction false} TopKeyIsLastMax(keys: seq<string>, totals: map<string, int>)
    requires keys != [] && forall k :: k in keys ==> k in totals
    ensures TopKey(keys, totals) == keys[TopIndex(keys, totals)]
    ensures forall i :: 0 <= i < |keys| ==> totals[keys[i]] <= totals[TopKey(keys, totals)]
    ensures forall i :: TopIndex(keys, totals) < i < |keys| ==> totals[keys[i]] < totals[TopKey(keys, totals)]
    decreases |keys|
  {
    if |keys| > 1 {
      var init := keys[..|keys| - 1];
      assert forall i :: 0 <= i < |init| ==> init[i] == keys[i];
      TopKeyIsLastMax(init, totals);
    }
  }

  /** Of two keys with equal totals the reduction ends on the second. */
  lemma TieOfTwoGoesToSecond(x: string, y: string, totals: map<string, int>)
    requires x in totals && y in totals && totals[x] == totals[y]
    ensures TopKey([x, y], totals) == y
  {
    assert [x, y][..1] == [x];
  }

  /** The month figures the handler returns; the average and the percentage are left out. */
  datatype Kpis = Kpis(totalExpenses: int, previousMonthExpenses: int, topCategory: string)

  const NoCategory := "N/A"

  /** A non-empty month has at least one category. */
  lemma CategoriesNonEmpty(es: seq<Expense>)
    requires es != []
    ensures Categories(es) != []
  {
    CategoriesExact(es);
    assert CategoryKey(es[0]) in Categories(es);
  }

  /** The top category of a non-empty month: the reduction over the totals in `Object.keys` order. */
  function TopCategory(es: seq<Expense>): (c: string)
    requires es != []
    ensures c in Categories(es)
  {
    CategoriesNonEmpty(es);
    OwnKeysPermutes(Categories(es));
    TopKey(OwnKeys(Categories(es)), TotalsOf(es))
  }

  /**
   * `GET /kpis` on the expenses of the current and of the previous month: the top category is the
   * reduction over the category totals in `Object.keys` order, or 'N/A' when the month's total is
   * not positive.
   */
  method ExpenseKpis(current: seq<Expense>, previous: seq<Expense>) returns (k: Kpis)
    ensures k.totalExpenses == TotalAmount(current) && k.previousMonthExpenses == TotalAmount(previous)
    ensures k.totalExpenses <= 0 ==> k.topCategory == NoCategory
    ensures k.totalExpenses > 0 ==>
      current != [] && k.topCategory == TopCategory(current)
  {
    var keys, totals := CategoryTotals(current);
    var top := NoCategory;
    var total := TotalAmount(current);
    if total > 0 {
      assert current != [];
      CategoriesNonEmpty(current);
      OwnKeysPermutes(keys);
      top := TopKey(OwnKeys(keys), totals);
    }
    k := Kpis(total, TotalAmount(previous), top);
  }

  /** The top category's total is at least every other category's. */
  lemma TopCategoryIsMax(current: seq<Expense>, c: string)
    requires current != [] && c in Categories(current)
    ensures CategoryTotal(current, c) <= CategoryTotal(current, TopCategory(current))
  {
    var keys := OwnKeys(Categories(current));
    CategoriesNonEmpty(current);
    OwnKeysPermutes(Categories(current));
    TopKeyIsLastMax(keys, TotalsOf(current));
    var i :| 0 <= i < |keys| && keys[i] == c;
  }

  /**
   * On a tie between a word created first and an integer-like category created second,
   * `Object.keys` lists the integer-like one first, so the reduction ends on the word.
   */
  lemma TieGoesToWordAfterIndex(current: seq<Expense>, a: string, b: string)
    requires current != [] && Categories(current) == [a, b] && !IsArrayIndex(a) && IsArrayIndex(b)
    requires CategoryTotal(current, a) == CategoryTotal(current, b)
    ensures TopCategory(current) == a
    ensures TopKey(Categories(current), TotalsOf(current)) == b
  {
    IndexKeyListedFirst(a, b);
    var totals := TotalsOf(current);
    assert totals[a] == totals[b];
    TieOfTwoGoesToSecond(b, a, totals);
    TieOfTwoGoesToSecond(a, b, totals);
  }
}
