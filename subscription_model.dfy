// models/Subscription.js: the subscription document and its pre-save hook, which sets the limits
// and the price of the plan and refuses a second free trial.

module SubscriptionModel {
  import opened Common

  const Day: int := 24 * 60 * 60 * 1000
  const TrialLength: int := 3 * Day
  const TrialAlreadyUsed := "El usuario ya ha usado la prueba gratuita."

  /** The fields the hook reads or writes. */
  datatype Terms = Terms(
    plan: string, fechaInicio: int, fechaExpiracion: Option<int>, clubsMax: int, empleadosMax: int,
    clubesExtra: int, empleadosExtra: int, costoClubExtra: int, costoEmpleadoExtra: int, precio: int,
    pruebaUsada: bool)

  /** A plan whose branch rewrites the limits. */
  predicate Priced(plan: string)
  {
    plan in {"prueba", "basico", "intermedio", "premium", "personalizado"}
  }

  /**
   * What the hook leaves: `None` when it refuses the save (a trial already used), the new terms
   * otherwise.
   */
  function PreSaveRule(t: Terms): (r: Option<Terms>)
    // A used trial is refused; no other plan is.
    ensures r.None? <==> t.plan == "prueba" && t.pruebaUsada
    // Only the limits, the price and (for a trial) the expiry ever change.
    ensures r.Some? ==>
      r.value.(fechaExpiracion := t.fechaExpiracion, clubsMax := t.clubsMax, empleadosMax := t.empleadosMax,
               precio := t.precio) == t
    // The trial branch is the only one that touches the expiry.
    ensures r.Some? && t.plan != "prueba" ==> r.value.fechaExpiracion == t.fechaExpiracion
    ensures r.Some? && t.plan == "prueba" ==>
      r.value.fechaExpiracion == Some(t.fechaInicio + TrialLength)
      && r.value.clubsMax == 1 && r.value.empleadosMax == 2 && r.value.precio == 0
    ensures !Priced(t.plan) ==> r == Some(t)
  {
    if t.plan == "prueba" then
      if t.pruebaUsada then None
      else Some(t.(fechaExpiracion := Some(t.fechaInicio + TrialLength), clubsMax := 1, empleadosMax := 2, precio := 0))
    else if t.plan == "basico" then Some(t.(clubsMax := 1, empleadosMax := 2, precio := 110))
    else if t.plan == "intermedio" then Some(t.(clubsMax := 2, empleadosMax := 4, precio := 150))
    else if t.plan == "premium" then Some(t.(clubsMax := 3, empleadosMax := 10, precio := 200))
    else if t.plan == "personalizado" then
      Some(t.(clubsMax := 1 + t.clubesExtra, empleadosMax := 2 + t.empleadosExtra,
              precio := 100 + t.clubesExtra * t.costoClubExtra + t.empleadosExtra * t.costoEmpleadoExtra))
    else Some(t)
  }

  /** The three fixed plans: limits and monthly price. */
  lemma FixedPlans(t: Terms)
    ensures t.plan == "basico" ==> PreSaveRule(t).value.clubsMax == 1 && PreSaveRule(t).value.empleadosMax == 2 && PreSaveRule(t).value.precio == 110
    ensures t.plan == "intermedio" ==> PreSaveRule(t).value.clubsMax == 2 && PreSaveRule(t).value.empleadosMax == 4 && PreSaveRule(t).value.precio == 150
    ensures t.plan == "premium" ==> PreSaveRule(t).value.clubsMax == 3 && PreSaveRule(t).value.empleadosMax == 10 && PreSaveRule(t).value.precio == 200
  {
  }

  /** Every branch assigns from fields it does not write, so a second save changes nothing. */
  lemma PreSaveIdempotent(t: Terms)
    requires PreSaveRule(t).Some?
    ensures PreSaveRule(PreSaveRule(t).value) == PreSaveRule(t)
  {
  }

  /** With the default extra costs, a custom plan costs 100 + 50 per extra club + 20 per extra employee. */
  lemma CustomPlanDefaultCosts(t: Terms)
    requires t.plan == "personalizado" && t.costoClubExtra == 50 && t.costoEmpleadoExtra == 20
    ensures PreSaveRule(t).value.precio == 100 + 50 * t.clubesExtra + 20 * t.empleadosExtra
    ensures PreSaveRule(t).value.clubsMax == 1 + t.clubesExtra
    ensures PreSaveRule(t).value.empleadosMax == 2 + t.empleadosExtra
  {
  }

  /** A subscription document. */
  class Subscription {
    var user: Id
    var plan: string
    var fechaInicio: int
    var fechaExpiracion: Option<int>
    var clubsMax: int
    var empleadosMax: int
    var clubesExtra: int
    var empleadosExtra: int
    var costoClubExtra: int
    var costoEmpleadoExtra: int
    var precio: int
    var pruebaUsada: bool

    /** `new Subscription({ user })` at time `now`: the schema's defaults. */
    constructor (user: Id, now: int)
      ensures this.user == user
      ensures Current() == Terms("prueba", now, None, 1, 2, 0, 0, 50, 20, 0, false)
    {
      this.user := user;
      plan, fechaInicio, fechaExpiracion := "prueba", now, None;
      clubsMax, empleadosMax, clubesExtra, empleadosExtra := 1, 2, 0, 0;
      costoClubExtra, costoEmpleadoExtra, precio, pruebaUsada := 50, 20, 0, false;
    }

    function Current(): Terms
      reads this
    {
      Terms(plan, fechaInicio, fechaExpiracion, clubsMax, empleadosMax, clubesExtra, empleadosExtra,
            costoClubExtra, costoEmpleadoExtra, precio, pruebaUsada)
    }

    /** The `pre('save')` hook; `err` is the error handed to `next`, which aborts the save. */
    method PreSave() returns (err: Option<string>)
      modifies this
      ensures err.Some? <==> PreSaveRule(old(Current())).None?
      ensures err.Some? ==> err.value == TrialAlreadyUsed && Current() == old(Current())
      ensures err.None? ==> Current() == PreSaveRule(old(Current())).value
      ensures user == old(user)
    {
      if plan == "prueba" {
        if pruebaUsada {
          return Some(TrialAlreadyUsed);
        }
        fechaExpiracion := Some(fechaInicio + TrialLength);
        clubsMax := 1;
        empleadosMax := 2;
        precio := 0;
      } else if plan == "basico" {
        clubsMax := 1;
        empleadosMax := 2;
        precio := 110;
      } else if plan == "intermedio" {
        clubsMax := 2;
        empleadosMax := 4;
        precio := 150;
      } else if plan == "premium" {
        clubsMax := 3;
        empleadosMax := 10;
        precio := 200;
      } else if plan == "personalizado" {
        clubsMax := 1 + clubesExtra;
        empleadosMax := 2 + empleadosExtra;
        precio := 100 + (clubesExtra * costoClubExtra) + (empleadosExtra * costoEmpleadoExtra);
      }
      err := None;
    }
  }

  /** Saving a fresh subscription starts a 3-day trial. */
  method NewTrial(user: Id, now: int) returns (s: Subscription, err: Option<string>)
    ensures fresh(s)
    ensures err.None?
    ensures s.Current() == Terms("prueba", now, Some(now + TrialLength), 1, 2, 0, 0, 50, 20, 0, false)
  {
    s := new Subscription(user, now);
    err := s.PreSave();
  }
}
