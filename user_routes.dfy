// routes/user.js: `PUT /me/password`, whose attempt counter and lock timestamp form a small
// state machine, and `PUT /me`, which overwrites the profile fields.

module UserRoutes {
  import opened Common
  import opened UserModel
  import opened Accounts

  /** How long a lock lasts: 5 minutes. */
  const LockLength: int := 5 * 60 * 1000

  /** The number of failed attempts that locks the password change. */
  const MaxAttempts: int := 5

  const PasswordsDiffer := "Las contraseñas nuevas no coinciden"
  const UserNotFound := "Usuario no encontrado"

  /** The counter and the lock a user document holds. */
  datatype LockState = LockState(attempts: int, lockUntil: Option<int>)

  /** What one password-change attempt decides once the user is found. */
  datatype Outcome = Locked(until: int) | WrongPassword(status: int, lockUntil: Option<int>) | Changed

  function LockOf(u: UserDoc): LockState
  {
    LockState(u.passwordChangeAttempts, u.passwordChangeLockUntil)
  }

  predicate IsLocked(st: LockState, now: int)
  {
    st.lockUntil.Some? && st.lockUntil.value > now
  }

  /** An expired lock is cleared, with the counter, before the password is checked. */
  function Unlocked(st: LockState): LockState
  {
    if st.lockUntil.Some? then LockState(0, None) else st
  }

  /**
   * One attempt at time `now`, `matches` being whether the current password is right: the outcome
   * and the state written back.
   */
  function Attempt(st: LockState, matches: bool, now: int): (r: (Outcome, LockState))
    // While locked, the request is refused and nothing moves.
    ensures IsLocked(st, now) ==> r == (Locked(st.lockUntil.value), st)
    // A right password resets the counter and the lock.
    ensures !IsLocked(st, now) && matches ==> r == (Changed, LockState(0, None))
    // A wrong one counts, from 0 again after an expired lock; the fifth locks for 5 minutes.
    ensures !IsLocked(st, now) && !matches ==>
      var a := Unlocked(st).attempts + 1;
      && r.1.attempts == a
      && r.1.lockUntil == (if a >= MaxAttempts then Some(now + LockLength) else None)
      && r.0.WrongPassword?
      && (r.0.status == 429 <==> a >= MaxAttempts)
      && (r.0.status == 400 <==> a < MaxAttempts)
      && r.0.lockUntil == (if a >= MaxAttempts then r.1.lockUntil else None)
  {
    if IsLocked(st, now) then (Locked(st.lockUntil.value), st)
    else
      var s1 := Unlocked(st);
      if !matches then
        var a := s1.attempts + 1;
        var lock := if a >= MaxAttempts then Some(now + LockLength) else s1.lockUntil;
        var status := if a >= MaxAttempts then 429 else 400;
        (WrongPassword(status, if status == 429 then lock else None), LockState(a, lock))
      else (Changed, LockState(0, None))
  }

  /** The state after a run of wrong passwords at the given times. */
  function Failures(st: LockState, times: seq<int>): LockState
    decreases |times|
  {
    if times == [] then st else Attempt(Failures(st, times[..|times| - 1]), false, times[|times| - 1]).1
  }

  /**
   * From a clear state, four wrong passwords leave the user unlocked (each answered with 400),
   * and the fifth locks them for 5 minutes from its own time.
   */
  lemma {:induction false} FiveFailuresLock(times: seq<int>)
    requires |times| == 5
    ensures forall k :: 0 <= k < 5 ==> Failures(LockState(0, None), times[..k]) == LockState(k, None)
    ensures forall k :: 0 <= k < 5 ==>
      Attempt(Failures(LockState(0, None), times[..k]), false, times[k]).0 == WrongPassword(if k == 4 then 429 else 400,
        if k == 4 then Some(times[4] + LockLength) else None)
    ensures Failures(LockState(0, None), times) == LockState(5, Some(times[4] + LockLength))
  {
    var z := LockState(0, None);
    assert times[..0] == [];
    assert Failures(z, times[..1]) == LockState(1, None) by { assert times[..1][..0] == []; }
    assert Failures(z, times[..2]) == LockState(2, None) by { assert times[..2][..1] == times[..1]; }
    assert Failures(z, times[..3]) == LockState(3, None) by { assert times[..3][..2] == times[..2]; }
    assert Failures(z, times[..4]) == LockState(4, None) by { assert times[..4][..3] == times[..3]; }
    assert times[..5] == times;
    assert times[..5][..4] == times[..4];
  }

  datatype Response = Ok | BadRequest(message: string) | NotFound(message: string)
    | TooManyAttempts(until: int) | WrongCurrent(status: int, lockUntil: Option<int>) | ServerError

  /** The user document with the counter and lock of `st`. */
  function WithLock(u: UserDoc, st: LockState): UserDoc
  {
    u.(passwordChangeAttempts := st.attempts, passwordChangeLockUntil := st.lockUntil)
  }

  /**
   * The whole request on a found user, as a function of the document: the response and the
   * document the handler leaves stored. `matches` is `None` when `bcrypt.compare` throws (no
   * current password was sent): that is a 500 after an expired lock has already been cleared.
   */
  function PasswordChange(u: UserDoc, matches: Option<bool>, newHash: Option<string>, now: int): (Response, UserDoc)
  {
    var st := LockOf(u);
    if matches.None? then
      if IsLocked(st, now) then (TooManyAttempts(st.lockUntil.value), u) else (ServerError, WithLock(u, Unlocked(st)))
    else
    var r := Attempt(st, matches.value, now);
    match r.0
    case Locked(until) => (TooManyAttempts(until), u)
    case WrongPassword(status, lock) => (WrongCurrent(status, lock), WithLock(u, r.1))
    case Changed =>
      if newHash.None? then (ServerError, WithLock(u, Unlocked(st)))
      else (Ok, WithLock(u, LockState(0, None)).(password := newHash.value, updatedAt := now))
  }

  /**
   * `PUT /me/password` at time `now`. `matches` is bcrypt's verdict on the current password
   * (`None`: the comparison throws) and `newHash` the hash of the new one (`None`: there is no new
   * password to hash, and hashing throws).
   */
  method ChangePassword(
    dir: Directory, userId: Id, newPassword: Option<string>, confirmPassword: Option<string>,
    matches: Option<bool>, newHash: Option<string>, now: int) returns (resp: Response)
    requires dir.Valid()
    requires newHash.Some? ==> newHash.value != ""  // a bcrypt hash is never empty
    modifies dir
    ensures dir.Valid()
    ensures newPassword != confirmPassword ==> resp == BadRequest(PasswordsDiffer) && dir.users == old(dir.users)
    ensures newPassword == confirmPassword && userId !in old(dir.users) ==>
      resp == NotFound(UserNotFound) && dir.users == old(dir.users)
    ensures newPassword == confirmPassword && userId in old(dir.users) ==>
      var (r, v) := PasswordChange(old(dir.users)[userId], matches, newHash, now);
      resp == r && dir.users == old(dir.users)[userId := v]
    ensures dir.tiendas == old(dir.tiendas) && dir.employees == old(dir.employees)
    ensures dir.payments == old(dir.payments) && dir.resetTokens == old(dir.resetTokens)
  {
    if newPassword != confirmPassword {
      return BadRequest(PasswordsDiffer);
    }
    if userId !in dir.users {
      return NotFound(UserNotFound);
    }
    resp := ChangeFound(dir, userId, matches, newHash, now);
  }

  /** The handler from step 2 on, once the user is found. */
  method ChangeFound(dir: Directory, userId: Id, matches: Option<bool>, newHash: Option<string>, now: int)
    returns (resp: Response)
    requires dir.Valid() && userId in dir.users
    requires newHash.Some? ==> newHash.value != ""
    modifies dir
    ensures dir.Valid()
    ensures var (r, v) := PasswordChange(old(dir.users)[userId], matches, newHash, now);
      resp == r && dir.users == old(dir.users)[userId := v]
    ensures dir.tiendas == old(dir.tiendas) && dir.employees == old(dir.employees)
    ensures dir.payments == old(dir.payments) && dir.resetTokens == old(dir.resetTokens)
  {
    var u := dir.users[userId];
    if u.passwordChangeLockUntil.Some? && u.passwordChangeLockUntil.value > now {
      assert dir.users == dir.users[userId := u];
      return TooManyAttempts(u.passwordChangeLockUntil.value);
    }
    if u.passwordChangeLockUntil.Some? {
      UnlockFirst(u, matches, newHash, now);
      dir.SaveUserFields(userId, u.(passwordChangeAttempts := 0, passwordChangeLockUntil := None));
    } else {
      assert dir.users == dir.users[userId := u];
    }
    resp := CheckCurrent(dir, userId, matches, newHash, now);
  }

  /** Clearing an expired lock before checking the password gives what the request would give anyway. */
  lemma UnlockFirst(u: UserDoc, matches: Option<bool>, newHash: Option<string>, now: int)
    requires u.passwordChangeLockUntil.Some? && u.passwordChangeLockUntil.value <= now
    ensures PasswordChange(u.(passwordChangeAttempts := 0, passwordChangeLockUntil := None), matches, newHash, now)
      == PasswordChange(u, matches, newHash, now)
  {
  }

  /** Steps 3 and 4 of the handler, on a user that is not locked. */
  method CheckCurrent(dir: Directory, userId: Id, matches: Option<bool>, newHash: Option<string>, now: int)
    returns (resp: Response)
    requires dir.Valid() && userId in dir.users && dir.users[userId].passwordChangeLockUntil.None?
    requires newHash.Some? ==> newHash.value != ""
    modifies dir
    ensures dir.Valid()
    ensures var (r, v) := PasswordChange(old(dir.users)[userId], matches, newHash, now);
      resp == r && dir.users == old(dir.users)[userId := v]
    ensures dir.tiendas == old(dir.tiendas) && dir.employees == old(dir.employees)
    ensures dir.payments == old(dir.payments) && dir.resetTokens == old(dir.resetTokens)
  {
    var u := dir.users[userId];
    if matches.None? {
      // The comparison throws: the counter is untouched and nothing more is saved.
      assert dir.users == dir.users[userId := old(dir.users)[userId]];
      return ServerError;
    }
    if !matches.value {
      u := u.(passwordChangeAttempts := u.passwordChangeAttempts + 1);
      if u.passwordChangeAttempts >= MaxAttempts {
        u := u.(passwordChangeLockUntil := Some(now + LockLength));
      }
      dir.SaveUserFields(userId, u);
      var status := if u.passwordChangeAttempts >= MaxAttempts then 429 else 400;
      return WrongCurrent(status, if status == 429 then u.passwordChangeLockUntil else None);
    }
    u := u.(passwordChangeAttempts := 0, passwordChangeLockUntil := None);
    if newHash.None? {
      // Hashing throws before the save: the reset stays in memory.
      assert dir.users == dir.users[userId := old(dir.users)[userId]];
      return ServerError;
    }
    u := u.(password := newHash.value, updatedAt := now);
    dir.SaveUserFields(userId, u);
    resp := Ok;
  }

  /**
   * When the comparison throws, the answer is 500 (or 429 while locked), no attempt is counted and
   * the password is kept; only an expired lock has been cleared, with its counter.
   */
  lemma CompareErrorCountsNothing(u: UserDoc, newHash: Option<string>, now: int)
    ensures var (r, v) := PasswordChange(u, None, newHash, now);
      r != Ok && v.password == u.password
      && v.passwordChangeAttempts
         == (if u.passwordChangeLockUntil.Some? && !IsLocked(LockOf(u), now) then 0 else u.passwordChangeAttempts)
      && (r == ServerError <==> !IsLocked(LockOf(u), now))
      && (r == ServerError ==> v.passwordChangeLockUntil.None?)
      && (u.passwordChangeLockUntil.None? ==> v == u)
  {
  }

  /** `PUT /me` at time `now`: the three profile fields are replaced by whatever the request holds. */
  method UpdateProfile(
    dir: Directory, userId: Id, nombre: Option<string>, email: Option<string>, clubPrincipal: Option<Id>,
    now: int) returns (resp: Response)
    requires dir.Valid()
    modifies dir
    ensures dir.Valid()
    ensures userId !in old(dir.users) ==> resp == NotFound(UserNotFound) && dir.users == old(dir.users)
    ensures userId in old(dir.users) ==>
      var u := old(dir.users)[userId].(nombre := nombre, email := email, clubPrincipal := clubPrincipal, updatedAt := now);
      // A missing or empty name or e-mail, or an e-mail another user has, fails the save.
      if Present(nombre) && Present(email) && UserEmailFree(old(dir.users), userId, email)
      then resp == Ok && dir.users == old(dir.users)[userId := u]
      else resp == ServerError && dir.users == old(dir.users)
    ensures dir.tiendas == old(dir.tiendas) && dir.employees == old(dir.employees)
    ensures dir.payments == old(dir.payments) && dir.resetTokens == old(dir.resetTokens)
  {
    if userId !in dir.users {
      return NotFound(UserNotFound);
    }
    var stored := dir.users[userId];
    var u := stored.(nombre := nombre, email := email, clubPrincipal := clubPrincipal, updatedAt := now);
    if Validates(u) {
      SavedUnchangedSubscription(stored, u, 0);
    }
    var ok := dir.SaveUser(userId, u, 0);
    resp := if ok then Ok else ServerError;
  }
}
