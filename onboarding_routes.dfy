// `POST /` of routes/onboarding.js: stores the owner's preferences with their defaults, creates
// the principal club and, when the subscription allows more than one, an additional club.

module OnboardingRoutes {
  import opened Common
  import opened UserModel
  import opened Accounts

  const StoreNameRequired := "El nombre de la tienda es requerido"
  const UserNotFound := "Usuario no encontrado"
  const NoPrincipal := "No se pudo definir el club principal"
  const NoMoreClubs := "Tu suscripción actual no permite agregar más clubes"

  datatype Adicional = Adicional(clubNombre: Option<string>, direccion: Option<string>)

  datatype Step1 = Step1(
    tiendaNombre: Option<string>, direccion: Option<string>, clubPrincipal: Option<string>,
    adicional: Option<Adicional>, tienesColaboradores: bool)

  datatype Step2 = Step2(
    moneda: Option<string>, horario: Option<string>, notificaciones: Option<seq<string>>,
    tema: Option<string>, displayName: Option<string>)

  datatype Step3 = Step3(metaVentasMensual: Option<int>, diasInventario: Option<int>)

  datatype Response =
    | Completed(principal: Id, clubs: seq<Id>)
    | BadRequest(message: string)
    | NotFound(message: string)
    | ServerError

  /** `s || fallback` on an optional string. */
  function StrOr(s: Option<string>, fallback: string): (r: string)
    ensures s.Some? && s.value != "" ==> r == s.value
    ensures s.None? || s.value == "" ==> r == fallback
  {
    if s.Some? && s.value != "" then s.value else fallback
  }

  /** `n || fallback` on an optional number. */
  function IntOr(n: Option<int>, fallback: int): (r: int)
    ensures n.Some? && n.value != 0 ==> r == n.value
    ensures n.None? || n.value == 0 ==> r == fallback
  {
    if n.Some? && n.value != 0 then n.value else fallback
  }

  /** The preferences, with 'MXN', '09:00-18:00', no notifications and 'Claro' as defaults. */
  function PreferencesOf(step2: Step2): Preferencias
  {
    Preferencias(StrOr(step2.moneda, "MXN"), StrOr(step2.horario, "09:00-18:00"),
                 step2.notificaciones.GetOr([]), StrOr(step2.tema, "Claro"))
  }

  lemma PreferenceDefaults(step2: Step2)
    requires step2.moneda.None? && step2.horario.None? && step2.notificaciones.None? && step2.tema.None?
    ensures PreferencesOf(step2) == Preferencias("MXN", "09:00-18:00", [], "Claro")
  {
  }

  function MetaOf(step3: Option<Step3>): Option<int>
  {
    if step3.Some? then step3.value.metaVentasMensual else None
  }

  /** `step3?.diasInventario || 5`. */
  function InventarioIdealOf(step3: Option<Step3>): (r: int)
    ensures step3.None? || step3.value.diasInventario.None? || step3.value.diasInventario.value == 0 ==> r == 5
    ensures step3.Some? && step3.value.diasInventario.Some? && step3.value.diasInventario.value != 0 ==>
      r == step3.value.diasInventario.value
  {
    IntOr(if step3.Some? then step3.value.diasInventario else None, 5)
  }

  /** The owner's document with the onboarding answers, before any club is added. */
  function Profile(u: UserDoc, step1: Step1, step2: Step2, step3: Option<Step3>): UserDoc
  {
    u.(preferencias := Some(PreferencesOf(step2)),
       metaVentasMensual := MetaOf(step3),
       inventarioIdeal := InventarioIdealOf(step3),
       tieneColaboradores := step1.tienesColaboradores,
       displayName := if step2.displayName.Some? && step2.displayName.value != "" then step2.displayName else u.displayName)
  }

  /** A club of the owner built from a name and an address, with the monthly goal of step 3. */
  function ClubFrom(owner: Id, nombre: Option<string>, direccion: Option<string>, step3: Option<Step3>, now: int): Tienda
  {
    NewTienda(owner, nombre, Some(StrOr(direccion, "")), IntOr(MetaOf(step3), 0), map[], [], map[], None, now)
  }

  /**
   * The principal club: from step 1 for 'principal', from the additional club's data for
   * 'adicional' (when there is such data), none otherwise.
   */
  function PrincipalOf(owner: Id, step1: Step1, step3: Option<Step3>, now: int): (r: Option<Tienda>)
    ensures step1.clubPrincipal == Some("principal") ==>
      r == Some(ClubFrom(owner, step1.tiendaNombre, step1.direccion, step3, now))
    ensures step1.clubPrincipal == Some("adicional") && step1.adicional.Some? ==>
      r == Some(ClubFrom(owner, step1.adicional.value.clubNombre, step1.adicional.value.direccion, step3, now))
    ensures r.None? <==> !(step1.clubPrincipal == Some("principal") || (step1.clubPrincipal == Some("adicional") && step1.adicional.Some?))
  {
    if step1.clubPrincipal == Some("principal") then
      Some(ClubFrom(owner, step1.tiendaNombre, step1.direccion, step3, now))
    else if step1.clubPrincipal == Some("adicional") && step1.adicional.Some? then
      Some(ClubFrom(owner, step1.adicional.value.clubNombre, step1.adicional.value.direccion, step3, now))
    else None
  }

  /** The subscription allows a second club. */
  predicate AllowsMoreClubs(u: UserDoc)
  {
    u.suscripcion.Some? && u.suscripcion.value.clubsMax > 1
  }

  /**
   * `POST /` by `userId` at time `now`; `principalId` and `extraId` are the ids the database gives
   * the principal and the additional club.
   */
  method Onboard(
    dir: Directory, userId: Id, step1: Option<Step1>, step2: Option<Step2>, step3: Option<Step3>,
    principalId: Id, extraId: Id, now: int) returns (resp: Response)
    requires dir.Valid() && principalId !in dir.tiendas && extraId !in dir.tiendas && principalId != extraId
    modifies dir
    ensures dir.Valid()
    ensures step1.None? || !Present(step1.value.tiendaNombre) ==>
      resp == BadRequest(StoreNameRequired) && dir.users == old(dir.users) && dir.tiendas == old(dir.tiendas)
    ensures step1.Some? && Present(step1.value.tiendaNombre) && userId !in old(dir.users) ==>
      resp == NotFound(UserNotFound) && dir.users == old(dir.users) && dir.tiendas == old(dir.tiendas)
    // Reading `step2.displayName` throws when there is no step 2, before anything is written.
    ensures step1.Some? && Present(step1.value.tiendaNombre) && userId in old(dir.users) && step2.None? ==>
      resp == ServerError && dir.users == old(dir.users) && dir.tiendas == old(dir.tiendas)
    ensures step1.Some? && Present(step1.value.tiendaNombre) && userId in old(dir.users) && step2.Some? ==>
      var u := old(dir.users)[userId];
      var p := PrincipalOf(userId, step1.value, step3, now);
      var extra := step1.value.adicional;
      var v := Profile(u, step1.value, step2.value, step3).(clubPrincipal := Some(principalId));
      if p.None? then
        resp == BadRequest(NoPrincipal) && dir.users == old(dir.users) && dir.tiendas == old(dir.tiendas)
      else if !TiendaValidates(p.value) then
        resp == ServerError && dir.users == old(dir.users) && dir.tiendas == old(dir.tiendas)
      else if extra.None? then
        // Only a valid inventory target lets the user be saved; the club stays saved either way.
        && dir.tiendas == old(dir.tiendas)[principalId := p.value]
        && if v.inventarioIdeal >= 1 then
             var w := v.(clubs := u.clubs + [principalId], onboardingCompleted := true);
             resp == Completed(principalId, w.clubs) && dir.users == old(dir.users)[userId := w]
           else resp == ServerError && dir.users == old(dir.users)
      else if !AllowsMoreClubs(u) then
        // Refused after the principal club has been saved.
        resp == BadRequest(NoMoreClubs) && dir.users == old(dir.users)
        && dir.tiendas == old(dir.tiendas)[principalId := p.value]
      else
        var e := ClubFrom(userId, extra.value.clubNombre, extra.value.direccion, step3, now);
        if !TiendaValidates(e) then
          resp == ServerError && dir.users == old(dir.users) && dir.tiendas == old(dir.tiendas)[principalId := p.value]
        else
          && dir.tiendas == old(dir.tiendas)[principalId := p.value][extraId := e]
          && if v.inventarioIdeal >= 1 then
               var w := v.(clubs := u.clubs + [principalId, extraId], onboardingCompleted := true);
               resp == Completed(principalId, w.clubs) && dir.users == old(dir.users)[userId := w]
             else resp == ServerError && dir.users == old(dir.users)
    ensures dir.employees == old(dir.employees) && dir.payments == old(dir.payments)
    ensures dir.resetTokens == old(dir.resetTokens)
  {
    if step1.None? || !Present(step1.value.tiendaNombre) {
      return BadRequest(StoreNameRequired);
    }
    if userId !in dir.users {
      return NotFound(UserNotFound);
    }
    if step2.None? {
      return ServerError;
    }
    var u := dir.users[userId];
    var v := Profile(u, step1.value, step2.value, step3);
    var p := PrincipalOf(userId, step1.value, step3, now);
    if p.None? {
      return BadRequest(NoPrincipal);
    }
    var ok := dir.SaveTienda(principalId, p.value);
    if !ok {
      return ServerError;
    }
    resp := Finish(dir, userId, v.(clubPrincipal := Some(principalId)), principalId, step1.value.adicional,
                   step3, extraId, now);
  }

  /**
   * The rest of `POST /` once the principal club `principalId` is saved: the additional club, then
   * the owner's document `v` with its clubs and the completion flag.
   */
  method Finish(
    dir: Directory, userId: Id, v: UserDoc, principalId: Id, extra: Option<Adicional>, step3: Option<Step3>,
    extraId: Id, now: int) returns (resp: Response)
    requires dir.Valid() && userId in dir.users && extraId !in dir.tiendas
    requires var u := dir.users[userId];
      v.nombre == u.nombre && v.email == u.email && v.password == u.password && v.suscripcion == u.suscripcion
      && v.clubs == u.clubs
    modifies dir
    ensures dir.Valid()
    ensures var u := old(dir.users)[userId];
      if extra.None? then
        && dir.tiendas == old(dir.tiendas)
        && if v.inventarioIdeal >= 1 then
             var w := v.(clubs := u.clubs + [principalId], onboardingCompleted := true);
             resp == Completed(principalId, w.clubs) && dir.users == old(dir.users)[userId := w]
           else resp == ServerError && dir.users == old(dir.users)
      else if !AllowsMoreClubs(u) then
        resp == BadRequest(NoMoreClubs) && dir.users == old(dir.users) && dir.tiendas == old(dir.tiendas)
      else
        var e := ClubFrom(userId, extra.value.clubNombre, extra.value.direccion, step3, now);
        if !TiendaValidates(e) then
          resp == ServerError && dir.users == old(dir.users) && dir.tiendas == old(dir.tiendas)
        else
          && dir.tiendas == old(dir.tiendas)[extraId := e]
          && if v.inventarioIdeal >= 1 then
               var w := v.(clubs := u.clubs + [principalId, extraId], onboardingCompleted := true);
               resp == Completed(principalId, w.clubs) && dir.users == old(dir.users)[userId := w]
             else resp == ServerError && dir.users == old(dir.users)
    ensures dir.employees == old(dir.employees) && dir.payments == old(dir.payments)
    ensures dir.resetTokens == old(dir.resetTokens)
  {
    var u := dir.users[userId];
    var clubs := v.clubs + [principalId];
    if extra.Some? {
      if !AllowsMoreClubs(u) {
        return BadRequest(NoMoreClubs);
      }
      var ok := dir.SaveTienda(extraId, ClubFrom(userId, extra.value.clubNombre, extra.value.direccion, step3, now));
      if !ok {
        return ServerError;
      }
      clubs := clubs + [extraId];
      assert clubs == u.clubs + [principalId, extraId];
    }
    var w := v.(clubs := clubs, onboardingCompleted := true);
    assert Validates(w) <==> w.inventarioIdeal >= 1;
    if Validates(w) {
      SavedUnchangedSubscription(u, w, 0);
    }
    var ok := dir.SaveUser(userId, w, 0);
    resp := if ok then Completed(principalId, clubs) else ServerError;
  }

  /**
   * Choosing 'adicional' as the principal club with a subscription that allows more clubs creates
   * the additional club twice: the principal and the additional club are built from the same data.
   */
  lemma AdicionalPrincipalDuplicates(owner: Id, step1: Step1, step3: Option<Step3>, now: int)
    requires step1.clubPrincipal == Some("adicional") && step1.adicional.Some?
    ensures PrincipalOf(owner, step1, step3, now) ==
      Some(ClubFrom(owner, step1.adicional.value.clubNombre, step1.adicional.value.direccion, step3, now))
  {
  }
}
