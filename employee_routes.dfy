// routes/employee.js: the employee limit a subscription allows, `POST /` (validation, role
// resolution, the owner's employee list), the status shown for an employee, the temporary-password
// guard and the default sales goal.

module EmployeeRoutes {
  import opened Common
  import opened UserModel
  import opened Accounts

  const Unauthorized := "No autorizado"
  const LimitReached := "Haz registrado la cantidad máxima de empleados, mejora tu suscripción contactanos para un plan personalizado."
  const MissingFields := "Por favor, completa todos los campos requeridos"
  const ClubNotOwned := "El club seleccionado no pertenece a su cuenta"
  const NewRoleMissing := "Por favor, ingresa el nuevo rol"
  const EmployeeNotFound := "Empleado no encontrado"
  const PasswordAlreadyChanged := "El empleado ya cambió la contraseña; la contraseña temporal ya no es válida"

  /** The goal shown when an employee has none: `salesGoal || 10000`. */
  const FallbackGoal: int := 10000

  /** `empleadosMax + (empleadosExtra || 0)`. */
  function MaxEmployees(s: Suscripcion): int
  {
    s.empleadosMax + s.empleadosExtra
  }

  /** The owner has no room for another employee. */
  predicate AtLimit(u: UserDoc)
    requires u.suscripcion.Some?
  {
    |u.employees| >= MaxEmployees(u.suscripcion.value)
  }

  datatype LimitReport = LimitReport(exceedsLimit: bool, currentCount: int, maxAllowed: int)

  datatype Response =
    | Created(tempPassword: string, id: Id, employee: Employee)
    | Limit(report: LimitReport)
    | TempPassword(password: string)
    | BadRequest(message: string)
    | NotAuthorized(message: string)
    | NotFound(message: string)
    | ServerError

  /** `GET /check-limit` on the owner's document (`None`: no such user). */
  function CheckLimit(owner: Option<UserDoc>): (r: Response)
    ensures owner.None? ==> r == NotAuthorized(Unauthorized)
    // A user without a subscription makes the handler throw.
    ensures owner.Some? && owner.value.suscripcion.None? ==> r == ServerError
    ensures owner.Some? && owner.value.suscripcion.Some? ==>
      && r.Limit?
      && r.report.currentCount == |owner.value.employees|
      && r.report.maxAllowed == owner.value.suscripcion.value.empleadosMax + owner.value.suscripcion.value.empleadosExtra
      && (r.report.exceedsLimit <==> r.report.currentCount >= r.report.maxAllowed)
  {
    match owner
    case None => NotAuthorized(Unauthorized)
    case Some(u) =>
      if u.suscripcion.None? then ServerError
      else Limit(LimitReport(AtLimit(u), |u.employees|, MaxEmployees(u.suscripcion.value)))
  }

  datatype EmployeeRequest = EmployeeRequest(
    name: Option<string>, email: Option<string>, phone: Option<string>, role: Option<string>,
    newRole: Option<string>, clubId: Option<Id>, avatar: Option<string>)

  /** The role the employee gets: the new role for 'nuevo', the requested role otherwise. */
  function FinalRole(req: EmployeeRequest): (r: Option<string>)
    ensures req.role == Some("nuevo") ==> r == req.newRole
    ensures req.role != Some("nuevo") ==> r == req.role
  {
    if req.role == Some("nuevo") then req.newRole else req.role
  }

  /** The request checks, in order, after the limit: the required fields, the club, the new role. */
  function Refusal(owner: UserDoc, req: EmployeeRequest): (r: Option<string>)
    ensures r.None? <==>
      Present(req.name) && Present(req.email) && Present(req.role) && req.clubId.Some?
      && req.clubId.value in owner.clubs && Present(FinalRole(req))
  {
    if !Present(req.name) || !Present(req.email) || !Present(req.role) || req.clubId.None? then Some(MissingFields)
    else if req.clubId.value !in owner.clubs then Some(ClubNotOwned)
    else if req.role == Some("nuevo") && !Present(req.newRole) then Some(NewRoleMissing)
    else None
  }

  /** The employee `POST /` creates, before its hook hashes the temporary password into `tempHash`. */
  function NewEmployee(ownerId: Id, req: EmployeeRequest, plain: string, tempHash: string, now: int): Employee
    requires req.clubId.Some?
  {
    Employee(req.name, req.email, req.phone, FinalRole(req), req.clubId.value, req.avatar, tempHash, plain,
             ownerId, true, None, false, Some(1000), now, now)
  }

  /**
   * `POST /` by the owner `ownerId` at time `now`. `plain` is the generated temporary password and
   * `tempHash` its bcrypt hash; `newId` is the id the database gives the employee.
   */
  method Create(
    dir: Directory, ownerId: Id, req: EmployeeRequest, plain: string, tempHash: string, newId: Id, now: int)
    returns (resp: Response)
    requires dir.Valid() && newId !in dir.employees
    requires tempHash != ""  // a bcrypt hash is never empty
    modifies dir
    ensures dir.Valid()
    ensures ownerId !in old(dir.users) ==> resp == NotAuthorized(Unauthorized) && dir.users == old(dir.users) && dir.employees == old(dir.employees)
    ensures ownerId in old(dir.users) && old(dir.users)[ownerId].suscripcion.None? ==>
      resp == ServerError && dir.users == old(dir.users) && dir.employees == old(dir.employees)
    // The limit is checked before any field of the request.
    ensures ownerId in old(dir.users) && old(dir.users)[ownerId].suscripcion.Some? && AtLimit(old(dir.users)[ownerId]) ==>
      resp == BadRequest(LimitReached) && dir.users == old(dir.users) && dir.employees == old(dir.employees)
    ensures ownerId in old(dir.users) && old(dir.users)[ownerId].suscripcion.Some? && !AtLimit(old(dir.users)[ownerId]) ==>
      var owner := old(dir.users)[ownerId];
      match Refusal(owner, req)
      case Some(message) => resp == BadRequest(message) && dir.users == old(dir.users) && dir.employees == old(dir.employees)
      case None =>
        var e := NewEmployee(ownerId, req, plain, tempHash, now);
        if EmployeeEmailFree(old(dir.employees), newId, e.email)
        then
          && resp == Created(plain, newId, e)
          && dir.employees == old(dir.employees)[newId := e]
          && dir.users == old(dir.users)[ownerId := owner.(employees := owner.employees + [newId])]
        else resp == ServerError && dir.users == old(dir.users) && dir.employees == old(dir.employees)
    ensures dir.tiendas == old(dir.tiendas) && dir.payments == old(dir.payments)
    ensures dir.resetTokens == old(dir.resetTokens)
  {
    if ownerId !in dir.users {
      return NotAuthorized(Unauthorized);
    }
    var owner := dir.users[ownerId];
    if owner.suscripcion.None? {
      return ServerError;
    }
    if |owner.employees| >= MaxEmployees(owner.suscripcion.value) {
      return BadRequest(LimitReached);
    }
    var refusal := Refusal(owner, req);
    if refusal.Some? {
      return BadRequest(refusal.value);
    }
    var e := NewEmployee(ownerId, req, plain, tempHash, now);
    var ok := dir.SaveEmployee(newId, e);
    if !ok {
      return ServerError;
    }
    dir.SaveUserFields(ownerId, owner.(employees := owner.employees + [newId]));
    resp := Created(plain, newId, e);
  }

  /** The status the employee list shows. */
  function StatusOf(e: Employee): (s: string)
    ensures s == "Pendiente" <==> e.lastAccess.None? && !e.passwordChanged
    ensures s == "Activo" <==> !(e.lastAccess.None? && !e.passwordChanged)
  {
    if e.lastAccess.None? && !e.passwordChanged then "Pendiente" else "Activo"
  }

  /** `GET /:employeeId/temp-password`: only the owner sees it, and only until the employee changes it. */
  function TempPasswordOf(employees: map<Id, Employee>, ownerId: Id, employeeId: Id): (r: Response)
    ensures employeeId !in employees || employees[employeeId].owner != ownerId ==> r == NotFound(EmployeeNotFound)
    ensures employeeId in employees && employees[employeeId].owner == ownerId ==>
      if employees[employeeId].passwordChanged then r == BadRequest(PasswordAlreadyChanged)
      else r == TempPassword(employees[employeeId].plainTempPassword)
  {
    if employeeId !in employees || employees[employeeId].owner != ownerId then NotFound(EmployeeNotFound)
    else if employees[employeeId].passwordChanged then BadRequest(PasswordAlreadyChanged)
    else TempPassword(employees[employeeId].plainTempPassword)
  }

  /** The performance goal: `salesGoal || 10000`. */
  function GoalOf(e: Employee): (g: int)
    ensures e.salesGoal.None? || e.salesGoal.value == 0 ==> g == FallbackGoal
    ensures e.salesGoal.Some? && e.salesGoal.value != 0 ==> g == e.salesGoal.value
  {
    if e.salesGoal.None? || e.salesGoal.value == 0 then FallbackGoal else e.salesGoal.value
  }

  /**
   * A new employee starts pending, and with the schema's default goal of 1000, so the fallback of
   * 10000 only shows once a goal of 0 (or none) has been set.
   */
  lemma NewEmployeeDefaults(ownerId: Id, req: EmployeeRequest, plain: string, h: string, now: int)
    requires req.clubId.Some?
    ensures StatusOf(NewEmployee(ownerId, req, plain, h, now)) == "Pendiente"
    ensures GoalOf(NewEmployee(ownerId, req, plain, h, now)) == 1000
  {
  }
}
