// The directional effect of one movement on an inventory record, and the
// replay of a sequence of movements. The three handlers that change stock
// (routes/inventory.js, routes/sales.js, routes/expenses.js) each apply this
// table under their own conditions; see their modules.

module StockEffect {
  import opened Common
  import opened InventorySchema

  /** `portionsPerUnit || 1`: an unset or zero portions-per-unit counts as 1. */
  function PortionFactor(portionsPerUnit: int): (f: int)
    ensures f != 0
    ensures portionsPerUnit != 0 ==> f == portionsPerUnit
  {
    if portionsPerUnit == 0 then 1 else portionsPerUnit
  }

  /** Movement kinds that add stock. */
  predicate Adds(t: MovementType)
  {
    t == Compra || t == Ajuste
  }

  /**
   * The dispatch on (type, unit):
   *   compra/ajuste, sealed  -> sealed += q
   *   compra/ajuste, portion -> units += q, currentPortions += q * (portionsPerUnit || 1)
   *   venta, sealed          -> sealed -= q
   *   venta/uso, portion     -> currentPortions -= q
   *   uso, sealed            -> no change
   * It never checks signs: callers decide whether a negative result is rejected.
   */
  function Effect(t: MovementType, u: Unit, q: int, r: Record): (r': Record)
    // nothing but the balances changes
    ensures r'.product == r.product && r'.clubId == r.clubId && r'.updatedAt == r.updatedAt
    ensures r'.preparation.portionsPerUnit == r.preparation.portionsPerUnit
    // the unit selects the axis
    ensures u == Sealed ==> r'.preparation == r.preparation
    ensures u == Portion ==> r'.sealed == r.sealed
    // only additions touch the container count
    ensures !Adds(t) ==> r'.preparation.units == r.preparation.units
    ensures t == Uso && u == Sealed ==> r' == r
  {
    var p := r.preparation;
    match u
    case Sealed =>
      if Adds(t) then r.(sealed := r.sealed + q)
      else if t == Venta then r.(sealed := r.sealed - q)
      else r
    case Portion =>
      if Adds(t) then
        r.(preparation := p.(units := p.units + q,
                             currentPortions := p.currentPortions + q * PortionFactor(p.portionsPerUnit)))
      else r.(preparation := p.(currentPortions := p.currentPortions - q))
  }

  /** Change of the sealed count caused by one movement. */
  function SealedDelta(t: MovementType, u: Unit, q: int): int
  {
    if u != Sealed then 0 else if Adds(t) then q else if t == Venta then -q else 0
  }

  /** Change of the portion count caused by one movement on a record with the given portions-per-unit. */
  function PortionDelta(t: MovementType, u: Unit, q: int, portionsPerUnit: int): int
  {
    if u != Portion then 0 else if Adds(t) then q * PortionFactor(portionsPerUnit) else -q
  }

  /** Change of the container count caused by one movement. */
  function UnitsDelta(t: MovementType, u: Unit, q: int): int
  {
    if u == Portion && Adds(t) then q else 0
  }

  /** The effect is a translation of the three balances by deltas that depend only on the request. */
  lemma EffectIsTranslation(t: MovementType, u: Unit, q: int, r: Record)
    ensures Effect(t, u, q, r).sealed == r.sealed + SealedDelta(t, u, q)
    ensures Effect(t, u, q, r).preparation.units == r.preparation.units + UnitsDelta(t, u, q)
    ensures Effect(t, u, q, r).preparation.currentPortions
         == r.preparation.currentPortions + PortionDelta(t, u, q, r.preparation.portionsPerUnit)
  {
  }

  /** Two movements of the same kind compose into one carrying the summed quantity. */
  lemma EffectAdditive(t: MovementType, u: Unit, a: int, b: int, r: Record)
    ensures Effect(t, u, a, Effect(t, u, b, r)) == Effect(t, u, a + b, r)
  {
    var f := PortionFactor(r.preparation.portionsPerUnit);
    assert a * f + b * f == (a + b) * f;
  }

  /** Movements commute: the balance does not depend on the order in which movements are applied. */
  lemma EffectCommutes(t1: MovementType, u1: Unit, q1: int, t2: MovementType, u2: Unit, q2: int, r: Record)
    ensures Effect(t1, u1, q1, Effect(t2, u2, q2, r)) == Effect(t2, u2, q2, Effect(t1, u1, q1, r))
  {
    EffectIsTranslation(t1, u1, q1, r);
    EffectIsTranslation(t2, u2, q2, r);
    EffectIsTranslation(t1, u1, q1, Effect(t2, u2, q2, r));
    EffectIsTranslation(t2, u2, q2, Effect(t1, u1, q1, r));
  }

  /** With a non-negative quantity an addition never lowers a balance and a subtraction never raises one. */
  lemma EffectMonotone(t: MovementType, u: Unit, q: int, r: Record)
    requires q >= 0 && r.preparation.portionsPerUnit >= 0
    ensures Adds(t) ==>
      (Effect(t, u, q, r).sealed >= r.sealed
       && Effect(t, u, q, r).preparation.currentPortions >= r.preparation.currentPortions
       && Effect(t, u, q, r).preparation.units >= r.preparation.units)
    ensures !Adds(t) ==>
      (Effect(t, u, q, r).sealed <= r.sealed
       && Effect(t, u, q, r).preparation.currentPortions <= r.preparation.currentPortions)
  {
    EffectIsTranslation(t, u, q, r);
  }

  // ---------------------------------------------------------------- replaying a log

  /** The record that results from applying `ms` in order to `r`. */
  function Replay(r: Record, ms: seq<Movement>): Record
  {
    if ms == [] then r
    else
      var m := ms[|ms| - 1];
      Effect(m.mtype, m.unit, m.quantity, Replay(r, ms[..|ms| - 1]))
  }

  lemma ReplaySnoc(r: Record, ms: seq<Movement>, m: Movement)
    ensures Replay(r, ms + [m]) == Effect(m.mtype, m.unit, m.quantity, Replay(r, ms))
  {
    assert (ms + [m])[..|ms|] == ms;
  }

  function SealedDeltas(ms: seq<Movement>): seq<int>
  {
    seq(|ms|, i requires 0 <= i < |ms| => SealedDelta(ms[i].mtype, ms[i].unit, ms[i].quantity))
  }

  function PortionDeltas(ms: seq<Movement>, portionsPerUnit: int): seq<int>
  {
    seq(|ms|, i requires 0 <= i < |ms| => PortionDelta(ms[i].mtype, ms[i].unit, ms[i].quantity, portionsPerUnit))
  }

  /**
   * Replaying a log adds up the per-movement deltas; the portions-per-unit of the record
   * (and everything but the balances) is never changed by a replay.
   */
  lemma {:induction false} ReplayIsSum(r: Record, ms: seq<Movement>)
    ensures Replay(r, ms).preparation.portionsPerUnit == r.preparation.portionsPerUnit
    ensures KeyOf(Replay(r, ms)) == KeyOf(r) && Replay(r, ms).updatedAt == r.updatedAt
    ensures Replay(r, ms).sealed == r.sealed + Sum(SealedDeltas(ms))
    ensures Replay(r, ms).preparation.currentPortions
         == r.preparation.currentPortions + Sum(PortionDeltas(ms, r.preparation.portionsPerUnit))
    decreases |ms|
  {
    if ms != [] {
      var init := ms[..|ms| - 1];
      var m := ms[|ms| - 1];
      ReplayIsSum(r, init);
      EffectIsTranslation(m.mtype, m.unit, m.quantity, Replay(r, init));
      assert SealedDeltas(ms)[..|ms| - 1] == SealedDeltas(init);
      assert PortionDeltas(ms, r.preparation.portionsPerUnit)[..|ms| - 1]
          == PortionDeltas(init, r.preparation.portionsPerUnit);
    }
  }

  /** Replaying the concatenation of two logs replays the first, then the second. */
  lemma {:induction false} ReplayAppend(r: Record, ms: seq<Movement>, ns: seq<Movement>)
    ensures Replay(r, ms + ns) == Replay(Replay(r, ms), ns)
    decreases |ns|
  {
    if ns == [] {
      assert ms + ns == ms;
    } else {
      var init := ns[..|ns| - 1];
      assert (ms + ns)[..|ms + ns| - 1] == ms + init;
      ReplayAppend(r, ms, init);
    }
  }

  /**
   * On a fresh record, a run of purchases leaves `sealed` equal to the sum of the sealed quantities and `currentPortions` equal to the
   * sum of quantity times one portion factor per portion purchase.
   */
  lemma PurchasesFromFresh(k: Key, now: int, ms: seq<Movement>)
    requires forall i :: 0 <= i < |ms| ==> ms[i].mtype == Compra
    ensures Replay(DefaultRecord(k, now), ms).sealed
         == Sum(seq(|ms|, i requires 0 <= i < |ms| => if ms[i].unit == Sealed then ms[i].quantity else 0))
    ensures Replay(DefaultRecord(k, now), ms).preparation.currentPortions
         == Sum(seq(|ms|, i requires 0 <= i < |ms| => if ms[i].unit == Portion then ms[i].quantity else 0))
  {
    ReplayIsSum(DefaultRecord(k, now), ms);
    assert SealedDeltas(ms)
        == seq(|ms|, i requires 0 <= i < |ms| => if ms[i].unit == Sealed then ms[i].quantity else 0);
    assert PortionDeltas(ms, 0)
        == seq(|ms|, i requires 0 <= i < |ms| => if ms[i].unit == Portion then ms[i].quantity else 0);
  }
}
