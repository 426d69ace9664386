// routes/club.js: the club limit, `POST /` (creation and the principal club), `PUT /:id`
// (name/address overwrite, contact overlay, per-day schedule rule, payment-method filter) and the
// ownership check of `GET /:id/summary` with its net total.

module ClubRoutes {
  import opened Common
  import opened UserModel
  import opened Accounts

  const LimitReached := "Límite de clubes alcanzado"
  const ClubNotFound := "Club no encontrado o no autorizado"

  datatype Response =
    | Created(id: Id, club: Tienda)
    | Updated(club: Tienda)
    | Summary(totalSales: int, totalExpenses: int, netTotal: int)
    | Forbidden(message: string)
    | NotFound(message: string)
    | ServerError

  /** `clubsMax + (tiendasExtra || 0)`. */
  function MaxClubs(s: Suscripcion): int
  {
    s.clubsMax + s.tiendasExtra
  }

  /**
   * `POST /` by `userId` at time `now`. The three JSON fields are given parsed (`None`: missing,
   * so `JSON.parse` throws); `newId` is the id the database gives the club.
   */
  method CreateClub(
    dir: Directory, userId: Id, name: Option<string>, address: Option<string>,
    contact: Option<map<string, string>>, schedule: Option<map<string, DaySchedule>>,
    paymentMethods: Option<seq<string>>, image: Option<string>, newId: Id, now: int)
    returns (resp: Response)
    requires dir.Valid() && newId !in dir.tiendas
    modifies dir
    ensures dir.Valid()
    // No user, or no subscription: the handler throws before writing.
    ensures userId !in old(dir.users) || old(dir.users)[userId].suscripcion.None? ==>
      resp == ServerError && dir.users == old(dir.users) && dir.tiendas == old(dir.tiendas)
    ensures userId in old(dir.users) && old(dir.users)[userId].suscripcion.Some? ==>
      var u := old(dir.users)[userId];
      if |u.clubs| >= MaxClubs(u.suscripcion.value) then
        resp == Forbidden(LimitReached) && dir.users == old(dir.users) && dir.tiendas == old(dir.tiendas)
      else if contact.None? || schedule.None? || paymentMethods.None? then
        resp == ServerError && dir.users == old(dir.users) && dir.tiendas == old(dir.tiendas)
      else
        var t := NewTienda(userId, name, address, 0, schedule.value, paymentMethods.value, contact.value,
                           if image.Some? then image else Some(""), now);
        if !TiendaValidates(t) then
          resp == ServerError && dir.users == old(dir.users) && dir.tiendas == old(dir.tiendas)
        else
          && resp == Created(newId, t)
          && dir.tiendas == old(dir.tiendas)[newId := t]
          // The new club is added, and becomes the principal club only when there was none.
          && dir.users == old(dir.users)[userId := u.(
               clubs := u.clubs + [newId],
               clubPrincipal := if u.clubPrincipal.None? then Some(newId) else u.clubPrincipal)]
    ensures dir.employees == old(dir.employees) && dir.payments == old(dir.payments)
    ensures dir.resetTokens == old(dir.resetTokens)
  {
    if userId !in dir.users || dir.users[userId].suscripcion.None? {
      return ServerError;
    }
    var u := dir.users[userId];
    if |u.clubs| >= MaxClubs(u.suscripcion.value) {
      return Forbidden(LimitReached);
    }
    if contact.None? || schedule.None? || paymentMethods.None? {
      return ServerError;
    }
    var t := NewTienda(userId, name, address, 0, schedule.value, paymentMethods.value, contact.value,
                       if image.Some? then image else Some(""), now);
    var ok := dir.SaveTienda(newId, t);
    if !ok {
      return ServerError;
    }
    u := u.(clubs := u.clubs + [newId]);
    if u.clubPrincipal.None? {
      u := u.(clubPrincipal := Some(newId));
    }
    dir.SaveUserFields(userId, u);
    resp := Created(newId, t);
  }

  /** The club answers to `clubId` and belongs to `userId`. */
  predicate Owns(tiendas: map<Id, Tienda>, userId: Id, clubId: Id)
  {
    clubId in tiendas && tiendas[clubId].duenoId == userId
  }

  /** `GET /:id/summary`, on the first row of each `$group` result (none: 0). */
  function ClubSummary(tiendas: map<Id, Tienda>, userId: Id, clubId: Id, sales: seq<int>, expenses: seq<int>)
    : (r: Response)
    ensures !Owns(tiendas, userId, clubId) ==> r == NotFound(ClubNotFound)
    ensures Owns(tiendas, userId, clubId) ==>
      && r.Summary?
      && r.totalSales == (if sales == [] then 0 else sales[0])
      && r.totalExpenses == (if expenses == [] then 0 else expenses[0])
      && r.netTotal == r.totalSales - r.totalExpenses
  {
    if !Owns(tiendas, userId, clubId) then NotFound(ClubNotFound)
    else
      var s := if sales == [] then 0 else sales[0];
      var e := if expenses == [] then 0 else expenses[0];
      Summary(s, e, s - e)
  }

  // ---------------------------------------------------------------- PUT /:id

  /** `str ? x : kept`: an empty or missing value leaves the field as it was. */
  function Overwrite(supplied: Option<string>, current: Option<string>): (r: Option<string>)
    ensures supplied.Some? && supplied.value != "" ==> r == supplied
    ensures supplied.None? || supplied.value == "" ==> r == current
  {
    if supplied.Some? && supplied.value != "" then supplied else current
  }

  /** `{...club.contact, ...c}` as the schema keeps it: supplied keys win, others are kept. */
  function MergeContact(current: map<string, string>, c: map<string, string>): (m: map<string, string>)
    ensures m.Keys == ContactKeys
    ensures forall k :: k in ContactKeys && k in c ==> m[k] == c[k]
    ensures forall k :: k in ContactKeys && k !in c && k in current ==> m[k] == current[k]
  {
    map k | k in ContactKeys :: if k in c then c[k] else if k in current then current[k] else ""
  }

  /** A day of the request's schedule: its `closed` flag (absent: false) and its ranges, if given. */
  datatype DayUpdate = DayUpdate(closed: bool, ranges: Option<seq<Range>>)

  /** The stored day a supplied day becomes: its ranges only when it is open and gives some. */
  function DayOf(d: DayUpdate): (r: DaySchedule)
    ensures r.closed == d.closed
    ensures r.ranges == (if !d.closed && d.ranges.Some? then d.ranges.value else [])
  {
    DaySchedule(d.closed, if !d.closed && d.ranges.Some? then d.ranges.value else [])
  }

  /**
   * The schedule after the update: every day the club already has and the request names is
   * replaced; days the club does not have are ignored.
   */
  function MergedSchedule(current: map<string, DaySchedule>, s: map<string, DayUpdate>): map<string, DaySchedule>
  {
    map d | d in current :: if d in s then DayOf(s[d]) else current[d]
  }

  /** The loop over the request's days, as a fold over `keys` once enumerated. */
  function ApplyDays(current: map<string, DaySchedule>, s: map<string, DayUpdate>, keys: seq<string>)
    : map<string, DaySchedule>
    requires forall i :: 0 <= i < |keys| ==> keys[i] in s
  {
    if keys == [] then current
    else
      var m := ApplyDays(current, s, keys[..|keys| - 1]);
      var d := keys[|keys| - 1];
      if d in m then m[d := DayOf(s[d])] else m
  }

  /** Folding over any prefix of the keys sets exactly the days named so far. */
  lemma {:induction false} ApplyDaysMeaning(
    current: map<string, DaySchedule>, s: map<string, DayUpdate>, keys: seq<string>)
    requires forall i :: 0 <= i < |keys| ==> keys[i] in s
    ensures ApplyDays(current, s, keys).Keys == current.Keys
    ensures forall d :: d in current ==>
      ApplyDays(current, s, keys)[d] == (if d in keys then DayOf(s[d]) else current[d])
  {
    if keys != [] {
      var n := |keys| - 1;
      ApplyDaysMeaning(current, s, keys[..n]);
      forall d | d in current
        ensures ApplyDays(current, s, keys)[d] == (if d in keys then DayOf(s[d]) else current[d])
      {
        if d != keys[n] {
          assert d in keys <==> d in keys[..n] by {
            if d in keys {
              var i :| 0 <= i < |keys| && keys[i] == d;
              assert keys[..n][i] == d;
            }
          }
        }
      }
    }
  }

  /** Whatever order `Object.keys` lists the days in, the loop builds the same schedule. */
  lemma ApplyAllDays(current: map<string, DaySchedule>, s: map<string, DayUpdate>, keys: seq<string>)
    requires forall i :: 0 <= i < |keys| ==> keys[i] in s
    requires forall d :: d in s ==> d in keys
    ensures ApplyDays(current, s, keys) == MergedSchedule(current, s)
  {
    ApplyDaysMeaning(current, s, keys);
  }

  /** The schedule loop of `PUT /:id`; `keys` is `Object.keys(s)`. */
  method UpdateSchedule(current: map<string, DaySchedule>, s: map<string, DayUpdate>, keys: seq<string>)
    returns (m: map<string, DaySchedule>)
    requires forall i :: 0 <= i < |keys| ==> keys[i] in s
    requires forall d :: d in s ==> d in keys
    ensures m == MergedSchedule(current, s)
  {
    m := current;
    for i := 0 to |keys|
      invariant m == ApplyDays(current, s, keys[..i])
    {
      assert keys[..i + 1][..i] == keys[..i];
      var d := keys[i];
      if d in m {
        m := m[d := DayOf(s[d])];
      }
    }
    assert keys[..|keys|] == keys;
    ApplyAllDays(current, s, keys);
  }

  /** `pm.filter(m => ['cash', 'card', 'transfer'].includes(m))`. */
  function FilterMethods(pm: seq<string>): (r: seq<string>)
    ensures |r| <= |pm|
    ensures forall x :: x in r <==> x in pm && x in PaymentMethods
    ensures (forall i :: 0 <= i < |pm| ==> pm[i] in PaymentMethods) ==> r == pm
  {
    if pm == [] then []
    else
      var rest := FilterMethods(pm[..|pm| - 1]);
      assert pm == pm[..|pm| - 1] + [pm[|pm| - 1]];
      if pm[|pm| - 1] in PaymentMethods then rest + [pm[|pm| - 1]] else rest
  }

  /** The filter keeps the order of what it keeps: filtering a concatenation filters each part. */
  lemma {:induction false} FilterMethodsAppend(a: seq<string>, b: seq<string>)
    ensures FilterMethods(a + b) == FilterMethods(a) + FilterMethods(b)
    decreases |b|
  {
    if b == [] {
      assert a + b == a;
    } else {
      var n := |b| - 1;
      assert (a + b)[..|a + b| - 1] == a + b[..n];
      FilterMethodsAppend(a, b[..n]);
    }
  }

  /** The club after `PUT /:id` at time `now`. */
  function UpdatedClub(
    club: Tienda, name: Option<string>, address: Option<string>, contact: Option<map<string, string>>,
    schedule: Option<map<string, DayUpdate>>, paymentMethods: Option<seq<string>>, image: Option<string>,
    now: int): Tienda
  {
    club.(
      nombre := Overwrite(name, club.nombre),
      direccion := Overwrite(address, club.direccion),
      contact := if contact.Some? then MergeContact(club.contact, contact.value) else club.contact,
      schedule := if schedule.Some? then MergedSchedule(club.schedule, schedule.value) else club.schedule,
      paymentMethods := if paymentMethods.Some? then FilterMethods(paymentMethods.value) else club.paymentMethods,
      image := if image.Some? then image else club.image,
      updatedAt := now)
  }

  /**
   * A JSON field of `PUT /:id`: not sent (or empty), sent but throwing when the handler parses or
   * uses it (`JSON.parse` fails, or `paymentMethods` is not an array so `filter` throws), or sent
   * and usable.
   */
  datatype JsonField<T> = Absent | Unparsable | Parsed(value: T)

  /** What the field contributes to the update when it does not throw. */
  function Given<T>(f: JsonField<T>): (o: Option<T>)
    ensures o.Some? <==> f.Parsed?
    ensures f.Parsed? ==> o.value == f.value
  {
    if f.Parsed? then Some(f.value) else None
  }

  /** One of the three JSON fields throws, so the handler answers 500 before saving. */
  predicate UpdateThrows(
    contact: JsonField<map<string, string>>, schedule: JsonField<map<string, DayUpdate>>,
    paymentMethods: JsonField<seq<string>>)
  {
    contact.Unparsable? || schedule.Unparsable? || paymentMethods.Unparsable?
  }

  /**
   * `PUT /:id` by `userId` at time `now`. `scheduleKeys` lists the keys of the supplied schedule
   * in the order `Object.keys` gives them.
   */
  method UpdateClub(
    dir: Directory, userId: Id, clubId: Id, name: Option<string>, address: Option<string>,
    contact: JsonField<map<string, string>>, schedule: JsonField<map<string, DayUpdate>>,
    scheduleKeys: seq<string>, paymentMethods: JsonField<seq<string>>, image: Option<string>, now: int)
    returns (resp: Response)
    requires dir.Valid()
    requires schedule.Parsed? ==>
      (forall i :: 0 <= i < |scheduleKeys| ==> scheduleKeys[i] in schedule.value)
      && (forall d :: d in schedule.value ==> d in scheduleKeys)
    modifies dir
    ensures dir.Valid()
    ensures !Owns(old(dir.tiendas), userId, clubId) ==> resp == NotFound(ClubNotFound) && dir.tiendas == old(dir.tiendas)
    // A field that throws is caught: 500, and the assignments made so far are never saved.
    ensures Owns(old(dir.tiendas), userId, clubId) && UpdateThrows(contact, schedule, paymentMethods) ==>
      resp == ServerError && dir.tiendas == old(dir.tiendas)
    ensures Owns(old(dir.tiendas), userId, clubId) && !UpdateThrows(contact, schedule, paymentMethods) ==>
      var t := UpdatedClub(old(dir.tiendas)[clubId], name, address, Given(contact), Given(schedule),
                           Given(paymentMethods), image, now);
      resp == Updated(t) && dir.tiendas == old(dir.tiendas)[clubId := t]
    ensures dir.users == old(dir.users) && dir.employees == old(dir.employees)
    ensures dir.payments == old(dir.payments) && dir.resetTokens == old(dir.resetTokens)
  {
    if !Owns(dir.tiendas, userId, clubId) {
      return NotFound(ClubNotFound);
    }
    var club := dir.tiendas[clubId];
    var contactNow := club.contact;
    if contact.Unparsable? {
      return ServerError;
    } else if contact.Parsed? {
      contactNow := MergeContact(club.contact, contact.value);
    }
    var days := club.schedule;
    if schedule.Unparsable? {
      return ServerError;
    } else if schedule.Parsed? {
      days := UpdateSchedule(club.schedule, schedule.value, scheduleKeys);
    }
    var methods := club.paymentMethods;
    if paymentMethods.Unparsable? {
      return ServerError;
    } else if paymentMethods.Parsed? {
      methods := FilterMethods(paymentMethods.value);
    }
    club := club.(
      nombre := Overwrite(name, club.nombre),
      direccion := Overwrite(address, club.direccion),
      contact := contactNow, schedule := days, paymentMethods := methods,
      image := if image.Some? then image else club.image,
      updatedAt := now);
    var ok := dir.SaveTienda(clubId, club);
    if !ok {
      assert false;
    }
    resp := Updated(club);
  }
}
