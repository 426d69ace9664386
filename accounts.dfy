// The account-side collections: users, clubs (models/Tienda.js), employees (models/Employee.js),
// payments (models/Payment.js) and password-reset tokens (models/PasswordResetToken.js), with the
// validators each `save()` runs and the unique indexes on e-mail addresses.

module Accounts {
  import opened Common
  import opened UserModel

  // ---------------------------------------------------------------- clubs

  /** One opening range of a day. */
  datatype Range = Range(open: string, close: string)

  datatype DaySchedule = DaySchedule(closed: bool, ranges: seq<Range>)

  /** The seven schedule paths of the club schema, Monday first. */
  const WeekDays: seq<string> := ["monday", "tuesday", "wednesday", "thursday", "friday", "saturday", "sunday"]

  /** A day sub-document built from `{}`: open, with the single range 00:00-00:00. */
  const DefaultDay: DaySchedule := DaySchedule(false, [Range("00:00", "00:00")])

  /** The values the `paymentMethods` enum accepts. */
  const PaymentMethods: seq<string> := ["cash", "card", "transfer"]

  /** The contact paths of the club schema. */
  const ContactKeys: set<string> := {"phone", "email"}

  /** A club (`Tienda`). `schedule` maps each week-day path to its sub-document. */
  datatype Tienda = Tienda(
    duenoId: Id, nombre: Option<string>, direccion: Option<string>, metaMensual: int,
    schedule: map<string, DaySchedule>, paymentMethods: seq<string>, contact: map<string, string>,
    image: Option<string>, createdAt: int, updatedAt: int)

  /** The schedule Mongoose builds from a supplied object: the week days it names, defaults for the rest. */
  function ScheduleOf(supplied: map<string, DaySchedule>): (m: map<string, DaySchedule>)
    ensures forall d :: d in m <==> d in WeekDays
    ensures forall d :: d in m ==> m[d] == (if d in supplied then supplied[d] else DefaultDay)
  {
    map d | d in WeekDays :: if d in supplied then supplied[d] else DefaultDay
  }

  /** The contact Mongoose builds from a supplied object: phone and e-mail, "" when not given. */
  function ContactOf(supplied: map<string, string>): (m: map<string, string>)
    ensures forall k :: k in m <==> k in ContactKeys
    ensures forall k :: k in m ==> m[k] == (if k in supplied then supplied[k] else "")
  {
    map k | k in ContactKeys :: if k in supplied then supplied[k] else ""
  }

  /** A club as `new Tienda({...})` creates it at time `now`, with the schema's defaults. */
  function NewTienda(
    dueno: Id, nombre: Option<string>, direccion: Option<string>, metaMensual: int,
    schedule: map<string, DaySchedule>, paymentMethods: seq<string>, contact: map<string, string>,
    image: Option<string>, now: int): Tienda
  {
    Tienda(dueno, nombre, direccion, metaMensual, ScheduleOf(schedule), paymentMethods,
           ContactOf(contact), image, now, now)
  }

  predicate TiendaValidates(t: Tienda)
  {
    Present(t.nombre) && forall i :: 0 <= i < |t.paymentMethods| ==> t.paymentMethods[i] in PaymentMethods
  }

  // ---------------------------------------------------------------- employees

  datatype Employee = Employee(
    name: Option<string>, email: Option<string>, phone: Option<string>, role: Option<string>,
    club: Id, avatar: Option<string>, tempPassword: string, plainTempPassword: string, owner: Id,
    isActive: bool, lastAccess: Option<int>, passwordChanged: bool, salesGoal: Option<int>,
    createdAt: int, updatedAt: int)

  predicate EmployeeValidates(e: Employee)
  {
    Present(e.name) && Present(e.email) && Present(e.role) && e.tempPassword != ""
  }

  // ---------------------------------------------------------------- payments and reset tokens

  /** A payment; `invoiceId` and `amount` are required, `status` is 'paid' or 'failed'. */
  datatype Payment = Payment(user: Id, invoiceId: Option<string>, amount: Option<int>, status: string, date: int)

  predicate PaymentValidates(p: Payment)
  {
    Present(p.invoiceId) && p.amount.Some? && p.status in {"paid", "failed"}
  }

  datatype ResetToken = ResetToken(userId: Id, token: string, expiresAt: int)

  // ---------------------------------------------------------------- the collections

  /** No other user than `id` has the e-mail address `email`. */
  predicate UserEmailFree(users: map<Id, UserDoc>, id: Id, email: Option<string>)
  {
    forall o :: o in users && o != id ==> users[o].email != email
  }

  predicate EmployeeEmailFree(employees: map<Id, Employee>, id: Id, email: Option<string>)
  {
    forall o :: o in employees && o != id ==> employees[o].email != email
  }

  class Directory {
    var users: map<Id, UserDoc>
    var tiendas: map<Id, Tienda>
    var employees: map<Id, Employee>
    var payments: seq<Payment>
    var resetTokens: map<Id, ResetToken>

    /** Every stored document passed its validators, users went through the hook, e-mails are unique. */
    ghost predicate Valid()
      reads this
    {
      && (forall id :: id in users ==> Stored(users[id]) && UserEmailFree(users, id, users[id].email))
      && (forall id :: id in tiendas ==> TiendaValidates(tiendas[id]))
      && (forall id :: id in employees ==> EmployeeValidates(employees[id]))
      && (forall id :: id in employees ==> EmployeeEmailFree(employees, id, employees[id].email))
    }

    /**
     * `user.save()` (or `new User(...).save()` under a fresh id): validation, then the unique
     * e-mail index, then the pre-save hook. A failed save writes nothing.
     */
    method SaveUser(id: Id, u: UserDoc, clubsExtra: int) returns (ok: bool)
      requires Valid()
      modifies this
      ensures Valid()
      ensures ok <==> Validates(u) && UserEmailFree(old(users), id, u.email)
      ensures ok ==> users == old(users)[id := Saved(u, clubsExtra)]
      ensures !ok ==> users == old(users)
      ensures tiendas == old(tiendas) && employees == old(employees)
      ensures payments == old(payments) && resetTokens == old(resetTokens)
    {
      ok := Validates(u) && UserEmailFree(users, id, u.email);
      if ok {
        users := users[id := Saved(u, clubsExtra)];
      }
    }

    /**
     * `user.save()` of a stored user whose subscription and e-mail are untouched: the save cannot
     * fail on the e-mail index, and the hook has nothing left to change.
     */
    method SaveUserFields(id: Id, u: UserDoc)
      requires Valid() && id in users && Validates(u)
      requires u.suscripcion == users[id].suscripcion && u.email == users[id].email
      modifies this
      ensures Valid()
      ensures users == old(users)[id := u]
      ensures tiendas == old(tiendas) && employees == old(employees)
      ensures payments == old(payments) && resetTokens == old(resetTokens)
    {
      SavedUnchangedSubscription(users[id], u, 0);
      var ok := SaveUser(id, u, 0);
      if !ok {
        assert false;
      }
    }

    /** `tienda.save()`: the club's validators; a failed save writes nothing. */
    method SaveTienda(id: Id, t: Tienda) returns (ok: bool)
      requires Valid()
      modifies this
      ensures Valid()
      ensures ok <==> TiendaValidates(t)
      ensures tiendas == if ok then old(tiendas)[id := t] else old(tiendas)
      ensures users == old(users) && employees == old(employees)
      ensures payments == old(payments) && resetTokens == old(resetTokens)
    {
      ok := TiendaValidates(t);
      if ok {
        tiendas := tiendas[id := t];
      }
    }

    /** `employee.save()`: the validators, then the unique e-mail index. */
    method SaveEmployee(id: Id, e: Employee) returns (ok: bool)
      requires Valid()
      modifies this
      ensures Valid()
      ensures ok <==> EmployeeValidates(e) && EmployeeEmailFree(old(employees), id, e.email)
      ensures employees == if ok then old(employees)[id := e] else old(employees)
      ensures users == old(users) && tiendas == old(tiendas)
      ensures payments == old(payments) && resetTokens == old(resetTokens)
    {
      ok := EmployeeValidates(e) && EmployeeEmailFree(employees, id, e.email);
      if ok {
        employees := employees[id := e];
      }
    }

    method SavePayment(p: Payment) returns (ok: bool)
      requires Valid()
      modifies this
      ensures Valid()
      ensures ok <==> PaymentValidates(p)
      ensures payments == if ok then old(payments) + [p] else old(payments)
      ensures users == old(users) && tiendas == old(tiendas)
      ensures employees == old(employees) && resetTokens == old(resetTokens)
    {
      ok := PaymentValidates(p);
      if ok {
        payments := payments + [p];
      }
    }
  }
}
