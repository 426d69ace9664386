// The user document (models/User.js): its embedded subscription, the schema's defaults and
// validators, and the pre-save hook that derives a plan's limits and price.

module UserModel {
  import opened Common

  /** Milliseconds in a day; dates are integer milliseconds since the epoch. */
  const Day: int := 24 * 60 * 60 * 1000

  /** Length of the free trial the hook grants: 3 days. */
  const TrialLength: int := 3 * Day

  /** The values the subscription's `plan` enum accepts. */
  const PlanEnum: set<string> := {"basico", "medio", "superior", "prueba"}

  /**
   * The embedded `suscripcion` sub-document. `plan` is `None` when the path is unset;
   * `fechaExpiracion` is `None` when it is unset.
   */
  datatype Suscripcion = Suscripcion(
    plan: Option<string>, fechaInicio: int, fechaExpiracion: Option<int>,
    clubsMax: int, empleadosMax: int, tiendasExtra: int, empleadosExtra: int,
    precio: int, trialUsed: bool)

  /** What Mongoose makes of an empty sub-document `{}`: every default filled in at time `now`. */
  function DefaultSuscripcion(now: int): (s: Suscripcion)
    ensures s.plan == Some("prueba") && s.fechaInicio == now && s.fechaExpiracion.None?
    ensures s.clubsMax == 1 && s.empleadosMax == 2 && s.precio == 0 && !s.trialUsed
    ensures s.tiendasExtra == 0 && s.empleadosExtra == 0
  {
    Suscripcion(Some("prueba"), now, None, 1, 2, 0, 0, 0, false)
  }

  /** Onboarding's `preferenciasOperativas` object. */
  datatype Preferencias = Preferencias(moneda: string, horario: string, notificaciones: seq<string>, tema: string)

  /**
   * A user document. Required strings that a request may leave undefined are `Option`s;
   * `preferencias` is `None` for the default `{}` object.
   */
  datatype UserDoc = UserDoc(
    nombre: Option<string>, displayName: Option<string>, email: Option<string>, password: string,
    suscripcion: Option<Suscripcion>, clubPrincipal: Option<Id>, clubs: seq<Id>, employees: seq<Id>,
    preferencias: Option<Preferencias>, metaVentasMensual: Option<int>, tieneColaboradores: bool,
    passwordChangeAttempts: int, passwordChangeLockUntil: Option<int>,
    createdAt: int, updatedAt: int, onboardingCompleted: bool, inventarioIdeal: int)

  /** A user as `new User({nombre, email, password, suscripcion})` creates it at time `now`. */
  function NewUser(nombre: string, email: string, password: string, s: Suscripcion, now: int): (u: UserDoc)
    ensures u.nombre == Some(nombre) && u.email == Some(email) && u.password == password
    ensures u.suscripcion == Some(s)
    ensures u.clubPrincipal.None? && u.clubs == [] && u.employees == []
    ensures u.passwordChangeAttempts == 0 && u.passwordChangeLockUntil.None?
    ensures u.inventarioIdeal == 5 && !u.onboardingCompleted
    ensures u.createdAt == now && u.updatedAt == now
  {
    UserDoc(Some(nombre), None, Some(email), password, Some(s), None, [], [], None, None, false,
            0, None, now, now, false, 5)
  }

  /** A plan the enum validator lets through: unset, or one of the four enum values. */
  predicate ValidPlan(plan: Option<string>)
  {
    plan.None? || plan.value in PlanEnum
  }

  /** A `required` string: present and not empty. */
  predicate Present(s: Option<string>)
  {
    s.Some? && s.value != ""
  }

  /** The schema validators a document must pass before it can be saved. */
  predicate Validates(u: UserDoc)
  {
    && Present(u.nombre)
    && Present(u.email)
    && u.password != ""
    && (u.suscripcion.Some? ==> ValidPlan(u.suscripcion.value.plan))
    && u.inventarioIdeal >= 1
  }

  /** The plans the hook has a branch for. */
  predicate HookedPlan(plan: Option<string>)
  {
    plan.Some? && plan.value in {"prueba", "basico", "intermedio", "premium", "personalizado"}
  }

  /**
   * The pre-save hook on a subscription. `clubsExtra` is the value the document holds in memory
   * under `clubsExtra`, a path the schema does not store; only the 'personalizado' branch reads it.
   */
  function PlanRule(s: Suscripcion, clubsExtra: int): (r: Suscripcion)
    // The hook only ever writes the expiration, the two limits and the price.
    ensures r.plan == s.plan && r.fechaInicio == s.fechaInicio && r.trialUsed == s.trialUsed
    ensures r.tiendasExtra == s.tiendasExtra && r.empleadosExtra == s.empleadosExtra
    // A used trial, and any plan without a branch, are left exactly as they are.
    ensures (s.plan == Some("prueba") && s.trialUsed) || !HookedPlan(s.plan) ==> r == s
    // Every plan other than the trial is an open-ended subscription.
    ensures HookedPlan(s.plan) && s.plan != Some("prueba") ==> r.fechaExpiracion.None?
    // An unused trial lasts three days from its start, with the basic limits and no charge.
    ensures s.plan == Some("prueba") && !s.trialUsed ==>
      r.fechaExpiracion == Some(s.fechaInicio + TrialLength) && r.clubsMax == 1 && r.empleadosMax == 2 && r.precio == 0
  {
    if s.plan == Some("prueba") then
      if !s.trialUsed then
        s.(fechaExpiracion := Some(s.fechaInicio + TrialLength), clubsMax := 1, empleadosMax := 2, precio := 0)
      else s
    else if s.plan == Some("basico") then
      s.(fechaExpiracion := None, clubsMax := 1, empleadosMax := 2, precio := 110)
    else if s.plan == Some("intermedio") then
      s.(fechaExpiracion := None, clubsMax := 2, empleadosMax := 4, precio := 150)
    else if s.plan == Some("premium") then
      s.(fechaExpiracion := None, clubsMax := 3, empleadosMax := 10, precio := 200)
    else if s.plan == Some("personalizado") then
      s.(fechaExpiracion := None, clubsMax := 1 + clubsExtra, empleadosMax := 2 + s.empleadosExtra,
         precio := 100 + clubsExtra * 50 + s.empleadosExtra * 20)
    else s
  }

  /** The limits and prices of the branches, as a table. */
  lemma PlanTable(s: Suscripcion, c: int)
    ensures s.plan == Some("basico") ==> (var r := PlanRule(s, c); r.clubsMax == 1 && r.empleadosMax == 2 && r.precio == 110)
    ensures s.plan == Some("intermedio") ==> (var r := PlanRule(s, c); r.clubsMax == 2 && r.empleadosMax == 4 && r.precio == 150)
    ensures s.plan == Some("premium") ==> (var r := PlanRule(s, c); r.clubsMax == 3 && r.empleadosMax == 10 && r.precio == 200)
    ensures s.plan == Some("personalizado") ==>
      (var r := PlanRule(s, c);
       r.clubsMax == 1 + c && r.empleadosMax == 2 + s.empleadosExtra && r.precio == 100 + 50 * c + 20 * s.empleadosExtra)
  {
  }

  /** Each branch writes only from fields it does not write, so a second run changes nothing. */
  lemma PlanRuleIdempotent(s: Suscripcion, c: int)
    ensures PlanRule(PlanRule(s, c), c) == PlanRule(s, c)
  {
  }

  /** The hook as the document sees it; a user without a subscription is untouched. */
  function Hook(u: UserDoc, clubsExtra: int): UserDoc
  {
    match u.suscripcion
    case None => u
    case Some(s) => u.(suscripcion := Some(PlanRule(s, clubsExtra)))
  }

  /**
   * Validation runs before the hook, so the only plans that reach it are the enum's. Of those only
   * 'prueba' and 'basico' have a branch: the 'intermedio', 'premium' and 'personalizado' branches
   * can never run, and the in-memory `clubsExtra` never matters.
   */
  lemma EnumPlansReachOnlyTwoBranches(u: UserDoc, c: int, d: int)
    requires Validates(u)
    ensures u.suscripcion.Some? && HookedPlan(u.suscripcion.value.plan) ==>
      u.suscripcion.value.plan.value in {"prueba", "basico"}
    ensures Hook(u, c) == Hook(u, d)
  {
  }

  /** A validated document still validates after the hook. */
  lemma HookKeepsValid(u: UserDoc, c: int)
    requires Validates(u)
    ensures Validates(Hook(u, c))
  {
  }

  /** A stored document: it passed validation, and the hook's outcome is what was written. */
  predicate Stored(u: UserDoc)
  {
    Validates(u) && Hook(u, 0) == u
  }

  /** What a successful `save()` writes: the hooked document, which is again a stored one. */
  function Saved(u: UserDoc, clubsExtra: int): (r: UserDoc)
    requires Validates(u)
    ensures Stored(r)
    ensures r.suscripcion.Some? <==> u.suscripcion.Some?
    ensures r == u.(suscripcion := r.suscripcion)
  {
    var r := Hook(u, clubsExtra);
    EnumPlansReachOnlyTwoBranches(u, clubsExtra, 0);
    HookKeepsValid(u, clubsExtra);
    if u.suscripcion.Some? then PlanRuleIdempotent(u.suscripcion.value, 0); r else r
  }

  /** Saving a stored document whose subscription was not touched writes exactly that document. */
  lemma SavedUnchangedSubscription(u: UserDoc, v: UserDoc, clubsExtra: int)
    requires Stored(u) && Validates(v) && v.suscripcion == u.suscripcion
    ensures Saved(v, clubsExtra) == v
  {
    EnumPlansReachOnlyTwoBranches(v, clubsExtra, 0);
  }
}
