// The subscription endpoints (routes/subscription.js): `POST /update` changes the plan,
// `POST /cancel` ends the subscription now. Both finish with `user.save()`, so the user
// document's pre-save hook (models/User.js) has the last word on the stored subscription.

module SubscriptionRoutes {
  import opened Common
  import opened UserModel
  import opened Accounts

  const UserNotFound := "Usuario no encontrado"
  const TrialAlreadyUsed := "La prueba gratuita ya fue utilizada."
  const SubscriptionNotFound := "Suscripción no encontrada"

  datatype Response = Ok(suscripcion: Suscripcion) | BadRequest(message: string) | NotFound(message: string) | ServerError

  /** `x || 0` on a numeric request field. */
  function OrZero(x: Option<int>): (r: int)
    ensures x.None? ==> r == 0
    ensures x.Some? ==> r == x.value
  {
    x.GetOr(0)
  }

  /** The trial guard: a trial is refused to a user whose subscription records a used trial. */
  predicate TrialRefused(plan: Option<string>, current: Option<Suscripcion>)
  {
    plan == Some("prueba") && current.Some? && current.value.trialUsed
  }

  /**
   * The subscription `/update` hands to `save()`: the current one (or a default one), with the
   * requested plan, the custom plan's `empleadosExtra`, and the trial's or the new plan's dates.
   */
  function Requested(current: Option<Suscripcion>, plan: Option<string>, empleadosExtra: Option<int>, now: int)
    : (s: Suscripcion)
    ensures s.plan == plan && s.fechaInicio == now
    ensures plan == Some("prueba") ==> s.trialUsed
    ensures plan != Some("prueba") ==> s.fechaExpiracion.None?
    ensures var base := current.GetOr(DefaultSuscripcion(now));
      && s.clubsMax == base.clubsMax && s.empleadosMax == base.empleadosMax && s.precio == base.precio
      && s.tiendasExtra == base.tiendasExtra
      && s.empleadosExtra == (if plan == Some("personalizado") then OrZero(empleadosExtra) else base.empleadosExtra)
      && (plan == Some("prueba") ==> s.fechaExpiracion == base.fechaExpiracion)
      && (plan != Some("prueba") ==> s.trialUsed == base.trialUsed)
  {
    var base := current.GetOr(DefaultSuscripcion(now));
    var withPlan := base.(plan := plan);
    var withExtras :=
      if plan == Some("personalizado") then withPlan.(empleadosExtra := OrZero(empleadosExtra)) else withPlan;
    if plan == Some("prueba") then withExtras.(trialUsed := true, fechaInicio := now)
    else withExtras.(fechaInicio := now, fechaExpiracion := None)
  }

  /** `POST /update` for the user `userId` at time `now`. */
  method Update(
    dir: Directory, userId: Id, plan: Option<string>, clubsExtra: Option<int>, empleadosExtra: Option<int>,
    now: int) returns (resp: Response)
    requires dir.Valid()
    modifies dir
    ensures dir.Valid()
    ensures userId !in old(dir.users) ==> resp == NotFound(UserNotFound) && dir.users == old(dir.users)
    ensures userId in old(dir.users) && TrialRefused(plan, old(dir.users)[userId].suscripcion) ==>
      resp == BadRequest(TrialAlreadyUsed) && dir.users == old(dir.users)
    // Only the plans of the enum can be saved; 'intermedio', 'premium' and 'personalizado' fail.
    ensures userId in old(dir.users) && !TrialRefused(plan, old(dir.users)[userId].suscripcion) && !ValidPlan(plan) ==>
      resp == ServerError && dir.users == old(dir.users)
    ensures userId in old(dir.users) && !TrialRefused(plan, old(dir.users)[userId].suscripcion) && ValidPlan(plan) ==>
      var u := old(dir.users)[userId];
      var s := PlanRule(Requested(u.suscripcion, plan, empleadosExtra, now), OrZero(clubsExtra));
      && resp == Ok(s)
      && dir.users == old(dir.users)[userId := u.(suscripcion := Some(s))]
    ensures dir.tiendas == old(dir.tiendas) && dir.employees == old(dir.employees)
    ensures dir.payments == old(dir.payments) && dir.resetTokens == old(dir.resetTokens)
  {
    if userId !in dir.users {
      return NotFound(UserNotFound);
    }
    var u := dir.users[userId];
    if TrialRefused(plan, u.suscripcion) {
      return BadRequest(TrialAlreadyUsed);
    }
    var s := Requested(u.suscripcion, plan, empleadosExtra, now);
    // `clubsExtra` is not a path of the schema: it lives on the in-memory document only.
    var extra := if plan == Some("personalizado") then OrZero(clubsExtra) else 0;
    var candidate := u.(suscripcion := Some(s));
    var ok := dir.SaveUser(userId, candidate, extra);
    if !ok {
      return ServerError;
    }
    resp := Ok(dir.users[userId].suscripcion.value);
    EnumPlansReachOnlyTwoBranches(candidate, extra, OrZero(clubsExtra));
  }

  /** A plan change through `/update` starts the subscription now; 'basico' gets its fixed terms. */
  lemma UpdateToBasico(current: Option<Suscripcion>, e: Option<int>, c: int, now: int)
    ensures var s := PlanRule(Requested(current, Some("basico"), e, now), c);
      s.fechaInicio == now && s.fechaExpiracion.None? && s.clubsMax == 1 && s.empleadosMax == 2 && s.precio == 110
  {
  }

  /** 'medio' and 'superior' pass validation but have no branch: they keep the previous limits and price. */
  lemma UpdateToUnpricedPlan(current: Suscripcion, plan: string, e: Option<int>, c: int, now: int)
    requires plan in {"medio", "superior"}
    ensures var s := PlanRule(Requested(Some(current), Some(plan), e, now), c);
      && s.plan == Some(plan) && s.fechaExpiracion.None?
      && s.clubsMax == current.clubsMax && s.empleadosMax == current.empleadosMax && s.precio == current.precio
  {
  }

  /**
   * `/update` marks the trial as used before saving, so the hook's trial branch never runs for a
   * trial granted here: the stored trial keeps the previous expiration, limits and price.
   */
  lemma TrialGrantSkipsHook(current: Option<Suscripcion>, e: Option<int>, c: int, now: int)
    ensures var base := current.GetOr(DefaultSuscripcion(now));
      var s := PlanRule(Requested(current, Some("prueba"), e, now), c);
      && s.trialUsed && s.fechaInicio == now
      && s.fechaExpiracion == base.fechaExpiracion
      && s.clubsMax == base.clubsMax && s.empleadosMax == base.empleadosMax && s.precio == base.precio
  {
  }

  /** The subscription `/cancel` hands to `save()`, and what the hook makes of it. */
  function CancelOutcome(s: Suscripcion, now: int): Suscripcion
  {
    PlanRule(s.(fechaExpiracion := Some(now)), 0)
  }

  /** `POST /cancel` for the user `userId` at time `now`. */
  method Cancel(dir: Directory, userId: Id, now: int) returns (resp: Response)
    requires dir.Valid()
    modifies dir
    ensures dir.Valid()
    ensures userId !in old(dir.users) || old(dir.users)[userId].suscripcion.None? ==>
      resp == NotFound(SubscriptionNotFound) && dir.users == old(dir.users)
    ensures userId in old(dir.users) && old(dir.users)[userId].suscripcion.Some? ==>
      var u := old(dir.users)[userId];
      var s := CancelOutcome(u.suscripcion.value, now);
      resp == Ok(s) && dir.users == old(dir.users)[userId := u.(suscripcion := Some(s))]
    ensures dir.tiendas == old(dir.tiendas) && dir.employees == old(dir.employees)
    ensures dir.payments == old(dir.payments) && dir.resetTokens == old(dir.resetTokens)
  {
    if userId !in dir.users || dir.users[userId].suscripcion.None? {
      return NotFound(SubscriptionNotFound);
    }
    var u := dir.users[userId];
    var candidate := u.(suscripcion := Some(u.suscripcion.value.(fechaExpiracion := Some(now))));
    var ok := dir.SaveUser(userId, candidate, 0);
    if !ok {
      assert false;
      return ServerError;
    }
    resp := Ok(dir.users[userId].suscripcion.value);
  }

  /**
   * What a cancellation stores, plan by plan: it takes effect only for a used trial and for plans
   * without a branch. On 'basico' the hook clears the expiration again, and on an unused trial it
   * puts back the three-day end.
   */
  lemma CancelOutcomeByPlan(s: Suscripcion, now: int)
    ensures s.plan == Some("basico") ==> CancelOutcome(s, now).fechaExpiracion.None?
    ensures s.plan == Some("prueba") && !s.trialUsed ==>
      CancelOutcome(s, now).fechaExpiracion == Some(s.fechaInicio + TrialLength)
    ensures (s.plan == Some("prueba") && s.trialUsed) || s.plan.None? || s.plan == Some("medio") || s.plan == Some("superior") ==>
      CancelOutcome(s, now).fechaExpiracion == Some(now)
  {
  }

  /** A concrete cancellation that is lost: a 'basico' subscriber cancels and stays subscribed. */
  lemma CancelLostOnBasico()
    ensures var s := Suscripcion(Some("basico"), 0, None, 1, 2, 0, 0, 110, false);
      CancelOutcome(s, 1000).fechaExpiracion != Some(1000)
  {
    var s := Suscripcion(Some("basico"), 0, None, 1, 2, 0, 0, 110, false);
    CancelOutcomeByPlan(s, 1000);
  }

  /**
   * The hook as it is evidently meant to run: it derives a plan's terms when the plan is new
   * (`before` is the plan the stored document had, `None` for a new subscription) and leaves an
   * unchanged plan's terms alone.
   */
  function PlanRuleOnChange(before: Option<Option<string>>, s: Suscripcion, clubsExtra: int): Suscripcion
  {
    if before == Some(s.plan) then s else PlanRule(s, clubsExtra)
  }

  /** A cancellation under that hook. */
  function CancelOutcomeCorrected(s: Suscripcion, now: int): Suscripcion
  {
    PlanRuleOnChange(Some(s.plan), s.(fechaExpiracion := Some(now)), 0)
  }

  /**
   * Under the corrected hook a cancellation always takes effect and changes nothing else, while
   * every plan change (and every new subscription) is still priced exactly as before.
   */
  lemma CancelCorrectedTakesEffect(s: Suscripcion, now: int, before: Option<Option<string>>, t: Suscripcion, c: int)
    ensures CancelOutcomeCorrected(s, now) == s.(fechaExpiracion := Some(now))
    ensures before != Some(t.plan) ==> PlanRuleOnChange(before, t, c) == PlanRule(t, c)
  {
  }
}
