// `POST /` of routes/sales.js and its helper `registerMovement`: the second
// copy of the stock engine, which only knows `venta` and never checks that a
// balance stays non-negative.

module SalesRoutes {
  import opened Common
  import opened JsStrings
  import opened InventorySchema
  import opened StockEffect
  import opened Documents
  import opened Ledger
  import InventoryRoutes

  /** An item of the request body as sent; an absent JSON field is `None`. */
  datatype RawItem = RawItem(productId: Option<Id>, itype: Option<string>, quantity: Option<int>, unitPrice: Option<int>)

  /** A group of the request body as sent. */
  datatype RawGroup = RawGroup(name: Option<string>, items: seq<RawItem>)

  /** The request body; an absent JSON field is `None`. */
  datatype SaleRequest = SaleRequest(
    itemGroups: Option<seq<RawGroup>>, total: Option<int>, clientId: Option<Id>, clubId: Option<Id>)

  /**
   * The item schema of models/Sale.js: product id, quantity and unit price are required and the
   * type must be 'sealed' or 'prepared'.
   */
  function CastItem(r: RawItem): (item: Option<SaleItem>)
    ensures item.Some? <==> r.productId.Some? && r.quantity.Some? && r.unitPrice.Some?
                            && r.itype.Some? && r.itype.value in {"sealed", "prepared"}
    ensures item.Some? ==>
      item.value.productId == r.productId.value && item.value.quantity == r.quantity.value
      && item.value.unitPrice == r.unitPrice.value
      && (item.value.itype == SealedItem <==> r.itype.value == "sealed")
  {
    if r.productId.None? || r.quantity.None? || r.unitPrice.None? || r.itype.None? then None
    else if r.itype.value == "sealed" then Some(SaleItem(r.productId.value, SealedItem, r.quantity.value, r.unitPrice.value))
    else if r.itype.value == "prepared" then Some(SaleItem(r.productId.value, PreparedItem, r.quantity.value, r.unitPrice.value))
    else None
  }

  function CastItems(rs: seq<RawItem>): (items: Option<seq<SaleItem>>)
    ensures items.Some? <==> forall i :: 0 <= i < |rs| ==> CastItem(rs[i]).Some?
    ensures items.Some? ==> |items.value| == |rs| && forall i :: 0 <= i < |rs| ==> CastItem(rs[i]) == Some(items.value[i])
  {
    if rs == [] then Some([])
    else
      var init := CastItems(rs[..|rs| - 1]);
      var last := CastItem(rs[|rs| - 1]);
      if init.None? || last.None? then
        (if init.None? then
          var i :| 0 <= i < |rs| - 1 && CastItem(rs[..|rs| - 1][i]).None?;
          assert rs[..|rs| - 1][i] == rs[i];
          None
        else None)
      else Some(init.value + [last.value])
  }

  /** The group schema: a name is required, and Mongoose's required check refuses the empty string. */
  function CastGroup(g: RawGroup): (group: Option<SaleGroup>)
    ensures group.Some? <==> g.name.Some? && g.name.value != "" && CastItems(g.items).Some?
    ensures group.Some? ==> group.value == SaleGroup(g.name.value, CastItems(g.items).value)
  {
    if g.name.None? || g.name.value == "" then None
    else
      var items := CastItems(g.items);
      if items.None? then None else Some(SaleGroup(g.name.value, items.value))
  }

  /** Validation of `itemGroups` when the sale is saved: every group and every item must fit its schema. */
  function CastGroups(gs: seq<RawGroup>): (groups: Option<seq<SaleGroup>>)
    ensures groups.Some? <==> forall i :: 0 <= i < |gs| ==> CastGroup(gs[i]).Some?
    ensures groups.Some? ==> |groups.value| == |gs| && forall i :: 0 <= i < |gs| ==> CastGroup(gs[i]) == Some(groups.value[i])
  {
    if gs == [] then Some([])
    else
      var init := CastGroups(gs[..|gs| - 1]);
      var last := CastGroup(gs[|gs| - 1]);
      if init.None? || last.None? then
        (if init.None? then
          var i :| 0 <= i < |gs| - 1 && CastGroup(gs[..|gs| - 1][i]).None?;
          assert gs[..|gs| - 1][i] == gs[i];
          None
        else None)
      else Some(init.value + [last.value])
  }

  /**
   * `sale.save()` succeeds: `total` is required and the groups fit the schema. An absent
   * `itemGroups` is stored as an empty list.
   */
  predicate SaleValidates(req: SaleRequest)
  {
    req.total.Some? && (req.itemGroups.None? || CastGroups(req.itemGroups.value).Some?)
  }

  /** The groups as the saved sale holds them. */
  function SavedGroups(req: SaleRequest): (groups: seq<SaleGroup>)
    requires SaleValidates(req)
    ensures req.itemGroups.Some? ==> |groups| == |req.itemGroups.value|
    ensures req.itemGroups.None? ==> groups == []
  {
    if req.itemGroups.None? then [] else CastGroups(req.itemGroups.value).value
  }

  /**
   * Which database write fails, counting the items of the sale in group-then-item order:
   * the one that stores the movement of item `index`, or the one that stores its record.
   */
  datatype Fault = NoFault | MovementWriteFails(index: nat) | RecordWriteFails(index: nat)

  /** The outcome of the two writes of one `registerMovement` call. */
  datatype WriteOutcome = Written | EntryFails | RecordFails

  datatype Response =
    | Created(sale: Sale)         // 201 'Venta registrada correctamente'
    | BadRequest(message: string) // 400
    | Failed(message: string)     // 500 with the error's message

  const ClubRequired := "El clubId es requerido."
  const SaleInvalid := "Sale validation failed"
  const NotIterable := "itemGroups is not iterable"
  const WriteFailed := "Error al registrar la venta"

  // ---------------------------------------------------------------- registerMovement

  /** What `registerMovement` does to the record: a `venta` subtracts on the unit's axis, nothing else changes it. */
  function SaleStep(t: MovementType, u: Unit, q: int, r: Record): Record
  {
    if t == Venta then Effect(Venta, u, q, r) else r
  }

  /** The entry `registerMovement` logs: the movement document with `date` stamped now. */
  function Entry(product: Id, clubId: Id, t: MovementType, q: int, u: Unit, description: string, user: Id, now: int)
    : (m: Movement)
    ensures MovementKey(m) == Key(product, clubId) && m.mtype == t && m.quantity == q && m.unit == u
    ensures m.description == Some(description) && m.user == user && m.date == now
  {
    Movement(product, clubId, t, q, u, Some(description), user, now)
  }

  /** A sale never refuses: it subtracts what the general handler would, but without its insufficiency checks. */
  lemma SaleStepAgreesWhenAccepted(u: Unit, q: int, priced: bool, r: Record)
    ensures InventoryRoutes.StockStep(Venta, u, q, priced, r).Apply? ==>
      InventoryRoutes.StockStep(Venta, u, q, priced, r).rec == SaleStep(Venta, u, q, r)
    ensures InventoryRoutes.StockStep(Venta, u, q, priced, r).Reject? ==>
      SaleStep(Venta, u, q, r).sealed < 0 || SaleStep(Venta, u, q, r).preparation.currentPortions < 0
  {
  }

  /** Any type other than `venta` changes no balance; `venta` subtracts exactly `q` from the selected axis. */
  lemma SaleStepBalances(t: MovementType, u: Unit, q: int, r: Record)
    ensures t != Venta ==> SaleStep(t, u, q, r) == r
    ensures t == Venta && u == Sealed ==>
      SaleStep(t, u, q, r).sealed == r.sealed - q && SaleStep(t, u, q, r).preparation == r.preparation
    ensures t == Venta && u == Portion ==>
      SaleStep(t, u, q, r).preparation.currentPortions == r.preparation.currentPortions - q
      && SaleStep(t, u, q, r).sealed == r.sealed
  {
    EffectIsTranslation(t, u, q, r);
  }

  /** A sale of one sealed unit on a fresh record stores a negative balance. */
  lemma SaleCanGoNegative(k: Key, now: int)
    ensures SaleStep(Venta, Sealed, 1, DefaultRecord(k, now)).sealed == -1
    ensures InventoryRoutes.StockStep(Venta, Sealed, 1, false, DefaultRecord(k, now))
         == InventoryRoutes.Reject(InventoryRoutes.NoStock)
  {
  }

  /**
   * `registerMovement`: the movement is saved first, then the record found for (product, club)
   * (or a fresh zero record) is updated and saved; `outcome` says which write fails.
   */
  method RegisterMovement(
    st: Store, product: Id, clubId: Id, t: MovementType, q: int, u: Unit, description: string,
    user: Id, now: int, outcome: WriteOutcome)
    returns (ok: bool)
    requires st.Valid()
    modifies st`inventory, st`movements, st`origin, st`applied
    ensures st.Valid()
    ensures ok <==> outcome == Written
    ensures outcome == EntryFails ==> st.movements == old(st.movements) && st.inventory == old(st.inventory)
    ensures outcome != EntryFails ==>
      st.movements == old(st.movements) + [Entry(product, clubId, t, q, u, description, user, now)]
    ensures outcome == RecordFails ==> st.inventory == old(st.inventory)
    ensures outcome == Written ==>
      var k := Key(product, clubId);
      st.inventory == old(st.inventory)[k := SaleStep(t, u, q, old(st.Lookup(k, now))).(updatedAt := now)]
    // Only a saved `venta` record makes its entry effective; a failed record write leaves a dangling entry.
    ensures st.applied == old(st.applied) + (if outcome == EntryFails then [] else [outcome == Written && t == Venta])
    ensures st.origin == if outcome == Written then Seeded(old(st.origin), old(st.inventory), Key(product, clubId),
                                                          DefaultRecord(Key(product, clubId), now))
                         else old(st.origin)
  {
    if outcome == EntryFails {
      return false;
    }
    var m := Entry(product, clubId, t, q, u, description, user, now);
    st.SaveMovement(m);
    if outcome == RecordFails {
      return false;
    }
    var k := Key(product, clubId);
    var inv := st.Lookup(k, now);
    if t == Venta {
      if u == Sealed {
        inv := inv.(sealed := inv.sealed - q);
      } else {
        inv := inv.(preparation := inv.preparation.(currentPortions := inv.preparation.currentPortions - q));
      }
      st.SaveEffect(inv.(updatedAt := now));
    } else {
      st.SaveUnchanged(inv.(updatedAt := now));
    }
    ok := true;
  }

  // ---------------------------------------------------------------- the sale loop

  /** The items of all groups, group by group, in order. */
  function FlatItems(groups: seq<SaleGroup>): (items: seq<SaleItem>)
  {
    if groups == [] then [] else groups[0].items + FlatItems(groups[1..])
  }

  lemma {:induction false} FlatItemsAppend(a: seq<SaleGroup>, b: seq<SaleGroup>)
    ensures FlatItems(a + b) == FlatItems(a) + FlatItems(b)
    decreases |a|
  {
    if a == [] {
      assert a + b == b;
    } else {
      assert (a + b)[1..] == a[1..] + b;
      FlatItemsAppend(a[1..], b);
    }
  }

  /** `item.type === 'sealed' ? 'sealed' : 'portion'`. */
  function UnitOf(t: SaleItemType): (u: Unit)
    ensures u == Sealed <==> t == SealedItem
  {
    if t == SealedItem then Sealed else Portion
  }

  /** `Venta de ${quantity} unidades` or `... porciones`. */
  function SaleDescription(q: int, u: Unit): string
  {
    "Venta de " + IntToString(q) + " " + (if u == Sealed then "unidades" else "porciones")
  }

  function ItemEntry(item: SaleItem, clubId: Id, user: Id, now: int): Movement
  {
    Entry(item.productId, clubId, Venta, item.quantity, UnitOf(item.itype),
          SaleDescription(item.quantity, UnitOf(item.itype)), user, now)
  }

  /** The entries logged for `items`, one per item, in order. */
  function ItemEntries(items: seq<SaleItem>, clubId: Id, user: Id, now: int): (ms: seq<Movement>)
    ensures |ms| == |items|
  {
    seq(|items|, i requires 0 <= i < |items| => ItemEntry(items[i], clubId, user, now))
  }

  /** The inventory after the records of `items` have been updated one after the other. */
  function AfterItems(inventory: map<Key, Record>, items: seq<SaleItem>, clubId: Id, now: int): map<Key, Record>
  {
    if items == [] then inventory
    else
      ItemStep(AfterItems(inventory, items[..|items| - 1], clubId, now), items[|items| - 1], clubId, now)
  }

  /** The inventory after the record of one item has been updated. */
  function ItemStep(inventory: map<Key, Record>, item: SaleItem, clubId: Id, now: int): map<Key, Record>
  {
    var k := Key(item.productId, clubId);
    inventory[k := SaleStep(Venta, UnitOf(item.itype), item.quantity, LookupIn(inventory, k, now)).(updatedAt := now)]
  }

  /** The quantities a list of items takes from the sealed count of `k`. */
  function SealedTaken(items: seq<SaleItem>, clubId: Id, k: Key): int
  {
    if items == [] then 0
    else
      var item := items[|items| - 1];
      SealedTaken(items[..|items| - 1], clubId, k)
        + (if Key(item.productId, clubId) == k && item.itype == SealedItem then item.quantity else 0)
  }

  /** The quantities a list of items takes from the portion count of `k`. */
  function PortionsTaken(items: seq<SaleItem>, clubId: Id, k: Key): int
  {
    if items == [] then 0
    else
      var item := items[|items| - 1];
      PortionsTaken(items[..|items| - 1], clubId, k)
        + (if Key(item.productId, clubId) == k && item.itype != SealedItem then item.quantity else 0)
  }

  /** Whether some item of the list belongs to `k`. */
  predicate Touches(items: seq<SaleItem>, clubId: Id, k: Key)
  {
    exists i :: 0 <= i < |items| && Key(items[i].productId, clubId) == k
  }

  /**
   * What a sale does to one record: a record some item touches ends with its stored (or zero)
   * balance minus the sealed and portion quantities sold, with no floor; the others are untouched.
   */
  lemma {:induction false} AfterItemsBalance(
    inventory: map<Key, Record>, items: seq<SaleItem>, clubId: Id, now: int, k: Key)
    ensures var after := AfterItems(inventory, items, clubId, now);
      (k in after <==> k in inventory || Touches(items, clubId, k))
      && (k in after ==>
            after[k].sealed == LookupIn(inventory, k, now).sealed - SealedTaken(items, clubId, k)
            && after[k].preparation.currentPortions
               == LookupIn(inventory, k, now).preparation.currentPortions - PortionsTaken(items, clubId, k)
            && after[k].preparation.units == LookupIn(inventory, k, now).preparation.units
            && after[k].preparation.portionsPerUnit == LookupIn(inventory, k, now).preparation.portionsPerUnit)
      && (!Touches(items, clubId, k) && k in inventory ==> after[k] == inventory[k])
    decreases |items|
  {
    if items != [] {
      var init := items[..|items| - 1];
      var item := items[|items| - 1];
      AfterItemsBalance(inventory, init, clubId, now, k);
      var prev := AfterItems(inventory, init, clubId, now);
      var j := Key(item.productId, clubId);
      SaleStepBalances(Venta, UnitOf(item.itype), item.quantity, LookupIn(prev, j, now));
      assert forall i :: 0 <= i < |init| ==> init[i] == items[i];
      assert Touches(items, clubId, k) <==> Touches(init, clubId, k) || j == k;
      if Touches(init, clubId, k) {
        var i :| 0 <= i < |init| && Key(init[i].productId, clubId) == k;
        assert items[i] == init[i];
      } else {
        UntouchedTakesNothing(init, clubId, k);
      }
    }
  }

  lemma {:induction false} UntouchedTakesNothing(items: seq<SaleItem>, clubId: Id, k: Key)
    requires !Touches(items, clubId, k)
    ensures SealedTaken(items, clubId, k) == 0 && PortionsTaken(items, clubId, k) == 0
    decreases |items|
  {
    if items != [] {
      var init := items[..|items| - 1];
      assert forall i :: 0 <= i < |init| ==> init[i] == items[i];
      assert Key(items[|items| - 1].productId, clubId) != k;
      UntouchedTakesNothing(init, clubId, k);
    }
  }

  /** The number of items whose two writes both succeed before the fault strikes. */
  function ItemsDone(fault: Fault, count: nat): (n: nat)
    ensures n <= count
    ensures fault.NoFault? ==> n == count
    ensures !fault.NoFault? ==> n == if fault.index < count then fault.index else count
  {
    match fault
    case NoFault => count
    case MovementWriteFails(i) => if i < count then i else count
    case RecordWriteFails(i) => if i < count then i else count
  }

  /** The outcome of the writes of item `idx`. */
  function OutcomeAt(fault: Fault, idx: nat): WriteOutcome
  {
    match fault
    case NoFault => Written
    case MovementWriteFails(i) => if i == idx then EntryFails else Written
    case RecordWriteFails(i) => if i == idx then RecordFails else Written
  }

  /** The sale document: `client: client_id || null`, status 'completed', the caller as employee. */
  function NewSale(groups: seq<SaleGroup>, total: int, clientId: Option<Id>, clubId: Id, userId: Id, now: int)
    : (s: Sale)
    ensures s.status == Completed && s.client == clientId && s.employee == userId && s.clubId == clubId
    ensures s.itemGroups == groups && s.total == total && s.createdAt == now
  {
    Sale(groups, total, clientId, Completed, userId, clubId, now)
  }

  /**
   * `Client.findOneAndUpdate({ _id: client_id, clubId }, { $inc: { total_spent: total }, last_purchase })`:
   * only a client of the sale's own club is updated; `visitCount` is not touched.
   */
  function ClientsAfterSale(clients: map<Id, Client>, clientId: Option<Id>, clubId: Id, total: int, now: int)
    : (r: map<Id, Client>)
    ensures r.Keys == clients.Keys
    ensures forall id :: id in clients && (clientId != Some(id) || clients[id].clubId != clubId) ==>
      r[id] == clients[id]
    ensures clientId.Some? && clientId.value in clients && clients[clientId.value].clubId == clubId ==>
      var c := clients[clientId.value];
      r[clientId.value] == c.(totalSpent := c.totalSpent + total, lastPurchase := Some(now))
  {
    if clientId.Some? && clientId.value in clients && clients[clientId.value].clubId == clubId then
      var c := clients[clientId.value];
      clients[clientId.value := c.(totalSpent := c.totalSpent + total, lastPurchase := Some(now))]
    else clients
  }

  /** The entry of the item whose record write failed, if that is how the sale stopped. */
  function DanglingEntry(fault: Fault, items: seq<SaleItem>, clubId: Id, user: Id, now: int): seq<Movement>
  {
    var n := ItemsDone(fault, |items|);
    if fault.RecordWriteFails? && n < |items| then [ItemEntry(items[n], clubId, user, now)] else []
  }

  /** The flags of `n` entries that all took effect. */
  function Trues(n: nat): (bs: seq<bool>)
    ensures |bs| == n && forall i :: 0 <= i < n ==> bs[i]
  {
    seq(n, _ => true)
  }

  /** The flag of the dangling entry, which never takes effect. */
  function DanglingFlags(fault: Fault, items: seq<SaleItem>): (bs: seq<bool>)
    ensures forall i :: 0 <= i < |bs| ==> !bs[i]
  {
    if fault.RecordWriteFails? && ItemsDone(fault, |items|) < |items| then [false] else []
  }

  /**
   * The original balances after the records of `items` have been stored one after the other:
   * each record the sale creates starts from the fresh default.
   */
  ghost function OriginAfter(
    origin: map<Key, Record>, inventory: map<Key, Record>, items: seq<SaleItem>, clubId: Id, now: int)
    : map<Key, Record>
  {
    if items == [] then origin
    else
      var init := items[..|items| - 1];
      var k := Key(items[|items| - 1].productId, clubId);
      Seeded(OriginAfter(origin, inventory, init, clubId, now), AfterItems(inventory, init, clubId, now),
             k, DefaultRecord(k, now))
  }

  /** A sale keeps every original balance and seeds every record it creates with the fresh default. */
  lemma {:induction false} OriginAfterSeedsDefaults(
    origin: map<Key, Record>, inventory: map<Key, Record>, items: seq<SaleItem>, clubId: Id, now: int)
    requires origin.Keys == inventory.Keys
    ensures OriginAfter(origin, inventory, items, clubId, now).Keys == AfterItems(inventory, items, clubId, now).Keys
    ensures SeedsDefaults(origin, OriginAfter(origin, inventory, items, clubId, now), now)
    decreases |items|
  {
    if items != [] {
      var init := items[..|items| - 1];
      OriginAfterSeedsDefaults(origin, inventory, init, clubId, now);
      var prev := OriginAfter(origin, inventory, init, clubId, now);
      var k := Key(items[|items| - 1].productId, clubId);
      assert SeedsDefaults(prev, OriginAfter(origin, inventory, items, clubId, now), now);
      SeedsDefaultsTrans(origin, prev, OriginAfter(origin, inventory, items, clubId, now), now);
    }
  }

  lemma AfterItemsSnoc(inventory: map<Key, Record>, items: seq<SaleItem>, n: nat, clubId: Id, now: int)
    requires n < |items|
    ensures AfterItems(inventory, items[..n + 1], clubId, now)
         == ItemStep(AfterItems(inventory, items[..n], clubId, now), items[n], clubId, now)
    ensures forall origin: map<Key, Record> {:trigger OriginAfter(origin, inventory, items[..n + 1], clubId, now)} ::
      OriginAfter(origin, inventory, items[..n + 1], clubId, now)
      == Seeded(OriginAfter(origin, inventory, items[..n], clubId, now), AfterItems(inventory, items[..n], clubId, now),
                Key(items[n].productId, clubId), DefaultRecord(Key(items[n].productId, clubId), now))
  {
    assert items[..n + 1][..n] == items[..n];
  }

  lemma ItemEntriesSnoc(items: seq<SaleItem>, n: nat, clubId: Id, user: Id, now: int)
    requires n < |items|
    ensures ItemEntries(items[..n + 1], clubId, user, now)
         == ItemEntries(items[..n], clubId, user, now) + [ItemEntry(items[n], clubId, user, now)]
  {
  }

  /** Locating item `idx` of the flat list inside group `g`. */
  lemma ItemAt(groups: seq<SaleGroup>, g: nat, i: nat, idx: nat)
    requires g < |groups| && i < |groups[g].items|
    requires idx == |FlatItems(groups[..g])| + i
    ensures idx < |FlatItems(groups)| && FlatItems(groups)[idx] == groups[g].items[i]
    ensures FlatItems(groups)[..idx + 1] == FlatItems(groups[..g]) + groups[g].items[..i + 1]
  {
    assert groups == groups[..g] + groups[g..];
    FlatItemsAppend(groups[..g], groups[g..]);
    assert groups[g..][1..] == groups[g + 1..];
    assert FlatItems(groups[g..]) == groups[g].items + FlatItems(groups[g + 1..]);
  }

  /** Group `g` occupies the flat positions that follow the items of the groups before it. */
  lemma GroupSlice(groups: seq<SaleGroup>, g: nat)
    requires g < |groups|
    ensures var start := |FlatItems(groups[..g])|;
      start + |groups[g].items| <= |FlatItems(groups)|
      && FlatItems(groups)[start..start + |groups[g].items|] == groups[g].items
  {
    assert groups == groups[..g] + groups[g..];
    FlatItemsAppend(groups[..g], groups[g..]);
    assert groups[g..][1..] == groups[g + 1..];
    assert FlatItems(groups[g..]) == groups[g].items + FlatItems(groups[g + 1..]);
  }

  /** Closing group `g`: the items up to its end are the flat items of the first g + 1 groups. */
  lemma GroupDone(groups: seq<SaleGroup>, g: nat)
    requires g < |groups|
    ensures FlatItems(groups[..g + 1]) == FlatItems(groups[..g]) + groups[g].items
    ensures |FlatItems(groups[..g])| + |groups[g].items| <= |FlatItems(groups)|
  {
    assert groups[..g + 1] == groups[..g] + [groups[g]];
    FlatItemsAppend(groups[..g], [groups[g]]);
    assert [groups[g]][1..] == [];
    assert groups == groups[..g + 1] + groups[g + 1..];
    FlatItemsAppend(groups[..g + 1], groups[g + 1..]);
  }

  /**
   * One `registerMovement` call of the sale loop, for item `idx` of the flat list: on success the
   * ledger has advanced past that item; otherwise the sale stops there.
   */
  method RegisterItem(
    st: Store, item: SaleItem, idx: nat, clubId: Id, userId: Id, now: int, fault: Fault,
    ghost items: seq<SaleItem>, ghost inventory0: map<Key, Record>, ghost movements0: seq<Movement>,
    ghost applied0: seq<bool>, ghost origin0: map<Key, Record>)
    returns (written: bool)
    requires st.Valid()
    requires idx < |items| && items[idx] == item && idx <= ItemsDone(fault, |items|)
    requires st.movements == movements0 + ItemEntries(items[..idx], clubId, userId, now)
    requires st.inventory == AfterItems(inventory0, items[..idx], clubId, now)
    requires st.applied == applied0 + Trues(idx)
    requires st.origin == OriginAfter(origin0, inventory0, items[..idx], clubId, now)
    modifies st`inventory, st`movements, st`origin, st`applied
    ensures st.Valid()
    ensures written ==>
      idx + 1 <= ItemsDone(fault, |items|)
      && st.movements == movements0 + ItemEntries(items[..idx + 1], clubId, userId, now)
      && st.inventory == AfterItems(inventory0, items[..idx + 1], clubId, now)
      && st.applied == applied0 + Trues(idx + 1)
      && st.origin == OriginAfter(origin0, inventory0, items[..idx + 1], clubId, now)
    ensures !written ==>
      idx == ItemsDone(fault, |items|)
      && st.movements == movements0 + ItemEntries(items[..idx], clubId, userId, now)
                         + DanglingEntry(fault, items, clubId, userId, now)
      && st.inventory == AfterItems(inventory0, items[..idx], clubId, now)
      && st.applied == applied0 + Trues(idx) + DanglingFlags(fault, items)
      && st.origin == OriginAfter(origin0, inventory0, items[..idx], clubId, now)
  {
    ghost var entries := ItemEntries(items[..idx], clubId, userId, now);
    ItemEntriesSnoc(items, idx, clubId, userId, now);
    AfterItemsSnoc(inventory0, items, idx, clubId, now);
    var unit := UnitOf(item.itype);
    written := RegisterMovement(st, item.productId, clubId, Venta, item.quantity, unit,
                                SaleDescription(item.quantity, unit), userId, now, OutcomeAt(fault, idx));
    if OutcomeAt(fault, idx) != EntryFails {
      assert st.movements == (movements0 + entries) + [ItemEntry(item, clubId, userId, now)];
    }
    if OutcomeAt(fault, idx) == Written {
      assert Trues(idx + 1) == Trues(idx) + [true];
    }
  }

  /**
   * The inner loop of the sale: the items of one group, which sit at flat position `start`
   * of `items`, each go through `registerMovement` until the first failing write.
   */
  method RegisterGroup(
    st: Store, group: SaleGroup, start: nat, clubId: Id, userId: Id, now: int, fault: Fault,
    ghost items: seq<SaleItem>, ghost inventory0: map<Key, Record>, ghost movements0: seq<Movement>,
    ghost applied0: seq<bool>, ghost origin0: map<Key, Record>)
    returns (ok: bool, idx: nat)
    requires st.Valid()
    requires start + |group.items| <= |items| && items[start..start + |group.items|] == group.items
    requires start <= ItemsDone(fault, |items|)
    requires st.movements == movements0 + ItemEntries(items[..start], clubId, userId, now)
    requires st.inventory == AfterItems(inventory0, items[..start], clubId, now)
    requires st.applied == applied0 + Trues(start)
    requires st.origin == OriginAfter(origin0, inventory0, items[..start], clubId, now)
    modifies st`inventory, st`movements, st`origin, st`applied
    ensures st.Valid()
    ensures ok ==> idx == start + |group.items| <= ItemsDone(fault, |items|)
    ensures !ok ==> idx == ItemsDone(fault, |items|) < |items|
    ensures st.movements == movements0 + ItemEntries(items[..idx], clubId, userId, now)
                            + (if ok then [] else DanglingEntry(fault, items, clubId, userId, now))
    ensures st.inventory == AfterItems(inventory0, items[..idx], clubId, now)
    ensures st.applied == applied0 + Trues(idx) + (if ok then [] else DanglingFlags(fault, items))
    ensures st.origin == OriginAfter(origin0, inventory0, items[..idx], clubId, now)
  {
    idx := start;
    for i := 0 to |group.items|
      invariant st.Valid()
      invariant idx == start + i <= ItemsDone(fault, |items|)
      invariant st.movements == movements0 + ItemEntries(items[..idx], clubId, userId, now)
      invariant st.inventory == AfterItems(inventory0, items[..idx], clubId, now)
      invariant st.applied == applied0 + Trues(idx)
      invariant st.origin == OriginAfter(origin0, inventory0, items[..idx], clubId, now)
    {
      assert items[idx] == items[start..start + |group.items|][i];
      var written := RegisterItem(st, group.items[i], idx, clubId, userId, now, fault, items, inventory0, movements0,
                                  applied0, origin0);
      if !written {
        return false, idx;
      }
      idx := idx + 1;
    }
    ok := true;
  }

  /** Every item, in group-then-item order, goes through `registerMovement` until the first failing write. */
  method RegisterItems(st: Store, groups: seq<SaleGroup>, clubId: Id, userId: Id, now: int, fault: Fault)
    returns (ok: bool)
    requires st.Valid()
    modifies st`inventory, st`movements, st`origin, st`applied
    ensures st.Valid()
    ensures var items := FlatItems(groups);
      var n := ItemsDone(fault, |items|);
      (ok <==> n == |items|)
      && st.movements == old(st.movements) + ItemEntries(items[..n], clubId, userId, now)
                         + DanglingEntry(fault, items, clubId, userId, now)
      && st.inventory == AfterItems(old(st.inventory), items[..n], clubId, now)
      && st.applied == old(st.applied) + Trues(n) + DanglingFlags(fault, items)
      && st.origin == OriginAfter(old(st.origin), old(st.inventory), items[..n], clubId, now)
  {
    ghost var items := FlatItems(groups);
    ghost var inventory0 := st.inventory;
    ghost var movements0 := st.movements;
    ghost var applied0 := st.applied;
    ghost var origin0 := st.origin;
    var idx := 0;
    for g := 0 to |groups|
      invariant st.Valid()
      invariant idx == |FlatItems(groups[..g])| <= ItemsDone(fault, |items|)
      invariant st.movements == movements0 + ItemEntries(items[..idx], clubId, userId, now)
      invariant st.inventory == AfterItems(inventory0, items[..idx], clubId, now)
      invariant st.applied == applied0 + Trues(idx)
      invariant st.origin == OriginAfter(origin0, inventory0, items[..idx], clubId, now)
    {
      GroupDone(groups, g);
      GroupSlice(groups, g);
      var done;
      done, idx := RegisterGroup(st, groups[g], idx, clubId, userId, now, fault, items, inventory0, movements0,
                                 applied0, origin0);
      if !done {
        return false;
      }
    }
    assert groups[..|groups|] == groups;
    return true;
  }

  /**
   * The part of `POST /` after validation: the sale is saved with status 'completed' before any
   * item is processed, so a failing write part-way leaves the sale and the effects of the
   * earlier items in place. `itemGroups` is `None` when the request had no groups.
   */
  method SaveSale(st: Store, itemGroups: Option<seq<SaleGroup>>, total: int, clientId: Option<Id>,
                  clubId: Id, userId: Id, now: int, fault: Fault) returns (resp: Response)
    requires st.Valid()
    modifies st
    ensures st.Valid()
    ensures st.products == old(st.products) && st.expenses == old(st.expenses)
    ensures itemGroups.None? ==> st.applied == old(st.applied) && st.origin == old(st.origin)
    // Every item that got through left an effective entry; a failed record write leaves one that is not.
    ensures itemGroups.Some? ==>
      var items := FlatItems(itemGroups.value);
      var n := ItemsDone(fault, |items|);
      st.applied == old(st.applied) + Trues(n) + DanglingFlags(fault, items)
      && st.origin == OriginAfter(old(st.origin), old(st.inventory), items[..n], clubId, now)
    ensures
      var groups := itemGroups.GetOr([]);
      var sale := NewSale(groups, total, clientId, clubId, userId, now);
      var items := FlatItems(groups);
      var n := ItemsDone(fault, |items|);
      st.sales == old(st.sales) + [sale]
      && st.movements == old(st.movements) + ItemEntries(items[..n], clubId, userId, now)
                         + DanglingEntry(fault, items, clubId, userId, now)
      && st.inventory == AfterItems(old(st.inventory), items[..n], clubId, now)
      && (itemGroups.None? ==> resp == Failed(NotIterable) && st.clients == old(st.clients))
      && (itemGroups.Some? && n < |items| ==> resp == Failed(WriteFailed) && st.clients == old(st.clients))
      && (itemGroups.Some? && n == |items| ==>
            resp == Created(sale) && st.clients == ClientsAfterSale(old(st.clients), clientId, clubId, total, now))
  {
    var sale := NewSale(itemGroups.GetOr([]), total, clientId, clubId, userId, now);
    st.sales := st.sales + [sale];
    if itemGroups.None? {
      return Failed(NotIterable);
    }
    var ok := RegisterItems(st, itemGroups.value, clubId, userId, now, fault);
    if !ok {
      return Failed(WriteFailed);
    }
    st.clients := ClientsAfterSale(st.clients, clientId, clubId, total, now);
    resp := Created(sale);
  }

  /**
   * `POST /`. No clubId is 400. A sale that fails the schema is refused by `sale.save()` with 500
   * before anything is written. Otherwise the sale is saved and its items processed as
   * `SaveSale` states. The loop reads the request's items, which for a valid sale agree with the
   * saved ones in product, type and quantity.
   */
  method PostSale(st: Store, req: SaleRequest, userId: Id, now: int, fault: Fault) returns (resp: Response)
    requires st.Valid()
    modifies st
    ensures st.Valid()
    ensures st.products == old(st.products) && st.expenses == old(st.expenses)
    ensures req.clubId.None? ==> resp == BadRequest(ClubRequired)
    ensures req.clubId.Some? && !SaleValidates(req) ==> resp == Failed(SaleInvalid)
    ensures req.clubId.None? || !SaleValidates(req) ==>
      st.sales == old(st.sales) && st.movements == old(st.movements)
      && st.inventory == old(st.inventory) && st.clients == old(st.clients)
      && st.applied == old(st.applied) && st.origin == old(st.origin)
    ensures req.clubId.Some? && SaleValidates(req) && req.itemGroups.None? ==>
      resp == Failed(NotIterable) && st.applied == old(st.applied) && st.origin == old(st.origin)
    ensures req.clubId.Some? && SaleValidates(req) ==>
      var groups := SavedGroups(req);
      var clubId := req.clubId.value;
      var sale := NewSale(groups, req.total.value, req.clientId, clubId, userId, now);
      var items := FlatItems(groups);
      var n := ItemsDone(fault, |items|);
      st.sales == old(st.sales) + [sale]
      && st.movements == old(st.movements) + ItemEntries(items[..n], clubId, userId, now)
                         + DanglingEntry(fault, items, clubId, userId, now)
      && st.inventory == AfterItems(old(st.inventory), items[..n], clubId, now)
      && st.applied == old(st.applied) + (if req.itemGroups.None? then [] else Trues(n) + DanglingFlags(fault, items))
      && (req.itemGroups.Some? ==> st.origin == OriginAfter(old(st.origin), old(st.inventory), items[..n], clubId, now))
      && (req.itemGroups.None? ==> st.clients == old(st.clients))
      && (req.itemGroups.Some? && n < |items| ==> resp == Failed(WriteFailed) && st.clients == old(st.clients))
      && (req.itemGroups.Some? && n == |items| ==>
            resp == Created(sale)
            && st.clients == ClientsAfterSale(old(st.clients), req.clientId, req.clubId.value, req.total.value, now))
  {
    if req.clubId.None? {
      return BadRequest(ClubRequired);
    }
    if !SaleValidates(req) {
      return Failed(SaleInvalid);
    }
    var groups := if req.itemGroups.None? then None else Some(SavedGroups(req));
    resp := SaveSale(st, groups, req.total.value, req.clientId, req.clubId.value, userId, now, fault);
  }
}
