// The stored state the stock engine works on: one inventory record per
// (product, club) pair, the append-only movement log and the other
// collections the handlers write. The ghost part records, per log entry,
// whether its effect reached a stored record, which is what makes the
// balance-versus-log relationship exact.

module Ledger {
  import opened Common
  import opened InventorySchema
  import opened StockEffect
  import opened Documents

  /** The log entries for key `k` whose effect reached the stored record, in log order. */
  function Effective(ms: seq<Movement>, applied: seq<bool>, k: Key): (es: seq<Movement>)
    requires |ms| == |applied|
    ensures |es| <= |ms|
  {
    if ms == [] then []
    else
      var m := ms[|ms| - 1];
      Effective(ms[..|ms| - 1], applied[..|applied| - 1], k)
        + (if applied[|applied| - 1] && MovementKey(m) == k then [m] else [])
  }

  /** Appending an entry extends the effective list of its key exactly when the entry is effective. */
  lemma EffectiveSnoc(ms: seq<Movement>, applied: seq<bool>, m: Movement, b: bool, k: Key)
    requires |ms| == |applied|
    ensures Effective(ms + [m], applied + [b], k)
         == Effective(ms, applied, k) + (if b && MovementKey(m) == k then [m] else [])
  {
    assert (ms + [m])[..|ms|] == ms;
    assert (applied + [b])[..|applied|] == applied;
  }

  /** A key none of whose entries is effective has an empty effective list. */
  lemma {:induction false} EffectiveEmpty(ms: seq<Movement>, applied: seq<bool>, k: Key)
    requires |ms| == |applied|
    requires forall i :: 0 <= i < |ms| && applied[i] ==> MovementKey(ms[i]) != k
    ensures Effective(ms, applied, k) == []
  {
    if ms != [] {
      EffectiveEmpty(ms[..|ms| - 1], applied[..|applied| - 1], k);
    }
  }

  /** Every stored record sits under its own key. */
  ghost predicate KeysMatch(inventory: map<Key, Record>)
  {
    forall k :: k in inventory ==> KeyOf(inventory[k]) == k
  }

  /** The stored balance of `k` is its original balance with the effective entries of `k` replayed. */
  ghost predicate KeyBalanced(
    inventory: map<Key, Record>, movements: seq<Movement>, origin: map<Key, Record>, applied: seq<bool>, k: Key)
    requires |applied| == |movements|
  {
    k in inventory && k in origin ==>
      SameStock(inventory[k], Replay(origin[k], Effective(movements, applied, k)))
  }

  /** Every stored balance is its original balance with the effective entries of its key replayed. */
  ghost predicate Balanced(
    inventory: map<Key, Record>, movements: seq<Movement>, origin: map<Key, Record>, applied: seq<bool>)
    requires |applied| == |movements|
  {
    forall k {:trigger KeyBalanced(inventory, movements, origin, applied, k)} ::
      KeyBalanced(inventory, movements, origin, applied, k)
  }

  /** An effective entry always belongs to a stored record. */
  ghost predicate EffectsStored(inventory: map<Key, Record>, movements: seq<Movement>, applied: seq<bool>)
    requires |applied| == |movements|
  {
    forall i :: 0 <= i < |movements| && applied[i] ==> MovementKey(movements[i]) in inventory
  }

  /**
   * The ledger invariant on stored values: every stored balance is its original balance with
   * exactly the effective log entries of its key replayed on it, and an effective entry always
   * belongs to a stored record.
   */
  ghost predicate Consistent(
    inventory: map<Key, Record>, movements: seq<Movement>, origin: map<Key, Record>, applied: seq<bool>)
  {
    |applied| == |movements|
    && inventory.Keys == origin.Keys
    && KeysMatch(inventory)
    && Balanced(inventory, movements, origin, applied)
    && EffectsStored(inventory, movements, applied)
  }

  /** The effect of a movement only depends on the stored balances, not on the stamp. */
  lemma EffectSameStock(t: MovementType, u: Unit, q: int, a: Record, b: Record)
    requires SameStock(a, b)
    ensures SameStock(Effect(t, u, q, a), Effect(t, u, q, b))
  {
  }

  lemma SameStockTrans(a: Record, b: Record, c: Record)
    requires SameStock(a, b) && SameStock(b, c)
    ensures SameStock(a, c)
  {
  }

  /** Logging an entry that has not taken effect keeps the ledger consistent. */
  lemma LogPreservesConsistent(
    inventory: map<Key, Record>, ms: seq<Movement>, origin: map<Key, Record>, applied: seq<bool>, m: Movement)
    requires Consistent(inventory, ms, origin, applied)
    ensures Consistent(inventory, ms + [m], origin, applied + [false])
  {
    forall k
      ensures KeyBalanced(inventory, ms + [m], origin, applied + [false], k)
    {
      EffectiveSnoc(ms, applied, m, false, k);
      assert Effective(ms + [m], applied + [false], k) == Effective(ms, applied, k);
      assert KeyBalanced(inventory, ms, origin, applied, k);
    }
    assert forall i :: 0 <= i < |ms| ==> (ms + [m])[i] == ms[i] && (applied + [false])[i] == applied[i];
  }

  /** Marking the last entry effective changes the effective list of its own key only. */
  lemma MarkLastEffective(ms: seq<Movement>, applied: seq<bool>, j: Key)
    requires |ms| == |applied| > 0 && !applied[|applied| - 1]
    ensures Effective(ms, applied[|applied| - 1 := true], j)
         == Effective(ms, applied, j) + (if MovementKey(ms[|ms| - 1]) == j then [ms[|ms| - 1]] else [])
  {
    var n := |ms| - 1;
    assert applied[n := true][..n] == applied[..n];
  }

  /** The balance half of `MarkLastPreservesConsistent`. */
  lemma MarkLastPreservesBalanced(
    inventory: map<Key, Record>, ms: seq<Movement>, origin: map<Key, Record>, applied: seq<bool>,
    r: Record, base: Record)
    requires |ms| == |applied| > 0 && !applied[|applied| - 1]
    requires Balanced(inventory, ms, origin, applied)
    requires KeyOf(r) in inventory ==> KeyOf(r) in origin && base == inventory[KeyOf(r)]
    requires KeyOf(r) !in inventory ==> Effective(ms, applied, KeyOf(r)) == []
    requires MovementKey(ms[|ms| - 1]) == KeyOf(r)
    requires SameStock(r, Effect(ms[|ms| - 1].mtype, ms[|ms| - 1].unit, ms[|ms| - 1].quantity, base))
    ensures Balanced(inventory[KeyOf(r) := r], ms,
      if KeyOf(r) in inventory then origin else origin[KeyOf(r) := base], applied[|applied| - 1 := true])
  {
    var k := KeyOf(r);
    var m := ms[|ms| - 1];
    var applied' := applied[|applied| - 1 := true];
    var inventory' := inventory[k := r];
    var origin' := if k in inventory then origin else origin[k := base];
    forall j
      ensures KeyBalanced(inventory', ms, origin', applied', j)
    {
      MarkLastEffective(ms, applied, j);
      if j != k {
        assert KeyBalanced(inventory, ms, origin, applied, j);
      } else {
        var before := Effective(ms, applied, k);
        if k in inventory {
          assert KeyBalanced(inventory, ms, origin, applied, k);
          ReplaySnoc(origin[k], before, m);
          EffectSameStock(m.mtype, m.unit, m.quantity, inventory[k], Replay(origin[k], before));
          SameStockTrans(r, Effect(m.mtype, m.unit, m.quantity, inventory[k]), Replay(origin[k], before + [m]));
        } else {
          assert before + [m] == [] + [m];
          ReplaySnoc(base, [], m);
        }
      }
    }
  }

  /**
   * Storing the result of applying the last (not yet effective) entry to the looked-up record
   * makes that entry effective and keeps the ledger consistent.
   */
  lemma MarkLastPreservesConsistent(
    inventory: map<Key, Record>, ms: seq<Movement>, origin: map<Key, Record>, applied: seq<bool>, r: Record)
    requires Consistent(inventory, ms, origin, applied)
    requires |ms| > 0 && !applied[|applied| - 1]
    requires MovementKey(ms[|ms| - 1]) == KeyOf(r)
    requires SameStock(r, Effect(ms[|ms| - 1].mtype, ms[|ms| - 1].unit, ms[|ms| - 1].quantity,
      if KeyOf(r) in inventory then inventory[KeyOf(r)] else DefaultRecord(KeyOf(r), r.updatedAt)))
    ensures Consistent(inventory[KeyOf(r) := r], ms,
      if KeyOf(r) in inventory then origin else origin[KeyOf(r) := DefaultRecord(KeyOf(r), r.updatedAt)],
      applied[|applied| - 1 := true])
  {
    var k := KeyOf(r);
    var base := if k in inventory then inventory[k] else DefaultRecord(k, r.updatedAt);
    if k !in inventory {
      EffectiveEmpty(ms, applied, k);
    }
    MarkLastPreservesBalanced(inventory, ms, origin, applied, r, base);
    MarkLastPreservesStored(inventory, ms, applied, r);
  }

  /** The storage half of `MarkLastPreservesConsistent`. */
  lemma MarkLastPreservesStored(inventory: map<Key, Record>, ms: seq<Movement>, applied: seq<bool>, r: Record)
    requires |ms| == |applied| > 0
    requires EffectsStored(inventory, ms, applied)
    requires MovementKey(ms[|ms| - 1]) == KeyOf(r)
    ensures EffectsStored(inventory[KeyOf(r) := r], ms, applied[|applied| - 1 := true])
  {
  }

  /** Storing a record whose balances no entry changed keeps the ledger consistent. */
  lemma UnchangedPreservesConsistent(
    inventory: map<Key, Record>, ms: seq<Movement>, origin: map<Key, Record>, applied: seq<bool>, r: Record)
    requires Consistent(inventory, ms, origin, applied)
    requires KeyOf(r) in inventory ==> SameStock(r, inventory[KeyOf(r)])
    ensures Consistent(inventory[KeyOf(r) := r], ms,
      if KeyOf(r) in inventory then origin else origin[KeyOf(r) := r], applied)
  {
    var k := KeyOf(r);
    var inventory' := inventory[k := r];
    var origin' := if k in inventory then origin else origin[k := r];
    if k !in inventory {
      EffectiveEmpty(ms, applied, k);
    }
    forall j
      ensures KeyBalanced(inventory', ms, origin', applied, j)
    {
      assert KeyBalanced(inventory, ms, origin, applied, j);
      if j == k && k in inventory {
        SameStockTrans(r, inventory[k], Replay(origin[k], Effective(ms, applied, k)));
      }
    }
  }

  /** The original balances after storing `r` under `k`: a key seen for the first time starts at `r`. */
  ghost function Seeded(origin: map<Key, Record>, inventory: map<Key, Record>, k: Key, r: Record): map<Key, Record>
  {
    if k in inventory then origin else origin[k := r]
  }

  /**
   * `after` keeps every original balance of `before`, and every key it adds starts at the fresh
   * default record stamped `now`.
   */
  ghost predicate SeedsDefaults(before: map<Key, Record>, after: map<Key, Record>, now: int)
  {
    (forall k :: k in before ==> k in after && after[k] == before[k])
    && (forall k :: k in after && k !in before ==> after[k] == DefaultRecord(k, now))
  }

  lemma SeedsDefaultsTrans(a: map<Key, Record>, b: map<Key, Record>, c: map<Key, Record>, now: int)
    requires SeedsDefaults(a, b, now) && SeedsDefaults(b, c, now)
    ensures SeedsDefaults(a, c, now)
  {
  }

  /** The record stored under `k`, or the fresh default record a handler creates when there is none. */
  function LookupIn(inventory: map<Key, Record>, k: Key, now: int): (r: Record)
    ensures k in inventory ==> r == inventory[k]
    ensures k !in inventory ==> r == DefaultRecord(k, now)
  {
    if k in inventory then inventory[k] else DefaultRecord(k, now)
  }

  class Store {
    /** `Inventory` collection: the record located by each (product, club) pair. */
    var inventory: map<Key, Record>
    /** `Movement` collection, in insertion order. */
    var movements: seq<Movement>
    var expenses: seq<Expense>
    var products: map<Id, Product>
    var sales: seq<Sale>
    var clients: map<Id, Client>

    /** Each record as it stood when it was first stored. */
    ghost var origin: map<Key, Record>
    /** Whether each log entry's effect reached a stored record. */
    ghost var applied: seq<bool>

    ghost predicate Valid()
      reads this`inventory, this`movements, this`origin, this`applied
    {
      Consistent(inventory, movements, origin, applied)
    }

    constructor ()
      ensures Valid()
      ensures inventory == map[] && movements == [] && expenses == [] && products == map[]
      ensures sales == [] && clients == map[]
    {
      inventory, movements, expenses, products, sales, clients := map[], [], [], map[], [], map[];
      origin, applied := map[], [];
    }

    /** `Inventory.findOne({ product, clubId })`, or `new Inventory({ product, clubId })` when none exists. */
    function Lookup(k: Key, now: int): (r: Record)
      reads this`inventory
      ensures r == LookupIn(inventory, k, now)
    {
      if k in inventory then inventory[k] else DefaultRecord(k, now)
    }

    /** `movement.save()`: the entry is logged and has affected no balance yet. */
    method SaveMovement(m: Movement)
      requires Valid()
      modifies this`movements, this`applied
      ensures Valid()
      ensures movements == old(movements) + [m] && applied == old(applied) + [false]
    {
      LogPreservesConsistent(inventory, movements, origin, applied, m);
      movements := movements + [m];
      applied := applied + [false];
    }

    /**
     * `inventory.save()` of the record produced by applying the last logged entry to the
     * looked-up record: that entry becomes effective.
     */
    method SaveEffect(r: Record)
      requires Valid()
      requires |movements| > 0 && !applied[|applied| - 1]
      requires MovementKey(movements[|movements| - 1]) == KeyOf(r)
      requires SameStock(r, Effect(movements[|movements| - 1].mtype, movements[|movements| - 1].unit,
                                   movements[|movements| - 1].quantity, Lookup(KeyOf(r), r.updatedAt)))
      modifies this`inventory, this`origin, this`applied
      ensures Valid()
      ensures inventory == old(inventory)[KeyOf(r) := r]
      ensures applied == old(applied)[|old(applied)| - 1 := true]
      ensures origin == Seeded(old(origin), old(inventory), KeyOf(r), DefaultRecord(KeyOf(r), r.updatedAt))
    {
      var k := KeyOf(r);
      var inventory' := inventory[k := r];
      ghost var origin' := if k in inventory then origin else origin[k := DefaultRecord(k, r.updatedAt)];
      ghost var applied' := applied[|applied| - 1 := true];
      MarkLastPreservesConsistent(inventory, movements, origin, applied, r);
      assert Consistent(inventory', movements, origin', applied');
      inventory, origin, applied := inventory', origin', applied';
    }

    /** `inventory.save()` of a record whose balances no logged entry changed (a new record, or a re-stamp). */
    method SaveUnchanged(r: Record)
      requires Valid()
      requires KeyOf(r) in inventory ==> SameStock(r, inventory[KeyOf(r)])
      modifies this`inventory, this`origin
      ensures Valid()
      ensures inventory == old(inventory)[KeyOf(r) := r]
      ensures origin == Seeded(old(origin), old(inventory), KeyOf(r), r)
    {
      UnchangedPreservesConsistent(inventory, movements, origin, applied, r);
      if KeyOf(r) !in inventory {
        origin := origin[KeyOf(r) := r];
      }
      inventory := inventory[KeyOf(r) := r];
    }
  }

  /** The naive reading of the log: replay every entry of the key, effective or not. */
  function NaiveBalance(origin: Record, ms: seq<Movement>, k: Key): Record
  {
    Replay(origin, Filter(ms, k))
  }

  function Filter(ms: seq<Movement>, k: Key): seq<Movement>
  {
    if ms == [] then []
    else Filter(ms[..|ms| - 1], k) + (if MovementKey(ms[|ms| - 1]) == k then [ms[|ms| - 1]] else [])
  }

  /** When every entry took effect the naive reading is exact. */
  lemma {:induction false} EffectiveAllApplied(ms: seq<Movement>, applied: seq<bool>, k: Key)
    requires |ms| == |applied|
    requires forall i :: 0 <= i < |applied| ==> applied[i]
    ensures Effective(ms, applied, k) == Filter(ms, k)
  {
    if ms != [] {
      EffectiveAllApplied(ms[..|ms| - 1], applied[..|applied| - 1], k);
    }
  }

  /**
   * A purchase logged without a price (or a rejected sale) leaves an entry that the naive reading
   * replays but the stored balance never saw: on a fresh record the naive sealed count is 3
   * while the stored one is 0.
   */
  lemma NaiveReadingDiverges(k: Key, now: int, user: Id)
    ensures var m := Movement(k.product, k.clubId, Compra, 3, Sealed, None, user, now);
      NaiveBalance(DefaultRecord(k, now), [m], k).sealed == 3
      && Replay(DefaultRecord(k, now), Effective([m], [false], k)).sealed == 0
  {
    var m := Movement(k.product, k.clubId, Compra, 3, Sealed, None, user, now);
    assert Filter([m], k) == [m] by {
      assert [m][..0] == [];
    }
    ReplaySnoc(DefaultRecord(k, now), [], m);
    assert [] + [m] == [m];
    assert Effective([m], [false], k) == [] by {
      assert [m][..0] == [];
      assert [false][..0] == [];
    }
  }
}
