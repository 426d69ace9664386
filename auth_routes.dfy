// routes/auth.js: the password and e-mail rules of `POST /register`, the order of its checks and
// the trial it seeds, `POST /login`, and the reset tokens of `POST /forgot-password` and
// `POST /reset-password`.

module AuthRoutes {
  import opened Common
  import opened UserModel
  import opened Accounts

  const NameMessage := "El nombre y apellido deben tener al menos 2 caracteres cada uno"
  const EmailMessage := "El email debe ser válido"
  const PasswordMessage := "La contraseña debe tener mínimo 8 caracteres, incluir al menos un número y un símbolo"
  const TermsMessage := "Debe aceptar los términos y condiciones"
  const EmailTaken := "El email ya está registrado"
  const InvalidCredentials := "Credenciales inválidas"
  const EmailNotFound := "Email no encontrado"
  const InvalidToken := "Token inválido o expirado"

  /** The trial `POST /register` asks for: 7 days. */
  const RequestedTrial: int := 7 * Day

  /** A reset token lasts one hour. */
  const TokenLifetime: int := 3600000

  // ---------------------------------------------------------------- the password rule

  /** The characters a regular expression's `.` does not match. */
  predicate IsLineTerminator(c: char)
  {
    c == '\n' || c == '\r' || c == '\U{2028}' || c == '\U{2029}'
  }

  /** The text before the first line terminator: what `^(?=.*x)` can look at. */
  function FirstLine(s: string): (r: string)
    ensures r <= s
    ensures forall i :: 0 <= i < |r| ==> !IsLineTerminator(r[i])
    ensures |r| < |s| ==> IsLineTerminator(s[|r|])
  {
    if s == [] || IsLineTerminator(s[0]) then [] else [s[0]] + FirstLine(s[1..])
  }

  predicate IsDigitChar(c: char)
  {
    '0' <= c <= '9'
  }

  predicate IsSymbol(c: char)
  {
    c in "!@#$%^&*"
  }

  predicate HasDigit(s: string)
  {
    exists i :: 0 <= i < |s| && IsDigitChar(s[i])
  }

  predicate HasSymbol(s: string)
  {
    exists i :: 0 <= i < |s| && IsSymbol(s[i])
  }

  /**
   * `isValidPassword`: at least 8 characters, and a digit and one of `!@#$%^&*` before the first
   * line terminator (the lookaheads of `/^(?=.*[0-9])(?=.*[!@#$%^&*])/` stop there).
   */
  predicate IsValidPassword(p: string)
  {
    |p| >= 8 && HasDigit(FirstLine(p)) && HasSymbol(FirstLine(p))
  }

  /** On a single line, the rule is: 8 characters, a digit and a symbol anywhere. */
  lemma ValidPasswordSingleLine(p: string)
    requires forall i :: 0 <= i < |p| ==> !IsLineTerminator(p[i])
    ensures IsValidPassword(p) <==> |p| >= 8 && HasDigit(p) && HasSymbol(p)
  {
    assert FirstLine(p) == p;
  }

  /** A digit and a symbol after a line break do not count. */
  lemma SecondLineDoesNotCount()
    ensures !IsValidPassword("abcdefgh\n1!")
  {
    var p := "abcdefgh\n1!";
    assert p[8] == '\n' && FirstLine(p[8..]) == [];
    assert FirstLine(p) == "abcdefgh" by {
      assert p[1..][1..][1..][1..][1..][1..][1..][1..] == p[8..];
    }
    assert !HasDigit("abcdefgh");
  }

  // ---------------------------------------------------------------- the e-mail rule

  /** `\s` of the regular-expression syntax. */
  predicate IsSpace(c: char)
  {
    || c == ' ' || c == '\t' || c == '\n' || c == '\U{000B}' || c == '\U{000C}' || c == '\r'
    || c == '\U{00A0}' || c == '\U{1680}' || ('\U{2000}' <= c <= '\U{200A}')
    || c == '\U{2028}' || c == '\U{2029}' || c == '\U{202F}' || c == '\U{205F}'
    || c == '\U{3000}' || c == '\U{FEFF}'
  }

  /** After an `@` at `a`, a `.` at `d` with a non-blank run between them and a non-blank after it. */
  ghost predicate DotAt(s: string, a: int, d: int)
  {
    && 0 <= a && a + 2 <= d && d + 1 < |s|
    && s[d] == '.' && !IsSpace(s[d + 1])
    && forall k :: a < k < d ==> !IsSpace(s[k])
  }

  /** `/\S+@\S+\.\S+/` matches with its `@` at `a` and its `.` at `d`. */
  ghost predicate EmailMatchAt(s: string, a: int, d: int)
  {
    1 <= a < |s| && s[a] == '@' && !IsSpace(s[a - 1]) && DotAt(s, a, d)
  }

  /** The meaning of the unanchored `/\S+@\S+\.\S+/.test(s)`. */
  ghost predicate EmailLike(s: string)
  {
    exists a, d :: EmailMatchAt(s, a, d)
  }

  /** Scanning right from `i` (past the `@` at `a`) over non-blank characters for a usable `.`. */
  function DotRun(s: string, i: int, a: int): bool
    requires 0 <= a < i
    decreases |s| - i
  {
    if i >= |s| || IsSpace(s[i]) then false
    else if i >= a + 2 && s[i] == '.' && i + 1 < |s| && !IsSpace(s[i + 1]) then true
    else DotRun(s, i + 1, a)
  }

  /** The e-mail test of `POST /register`, as a scan for an `@` from position `a`. */
  function EmailScan(s: string, a: nat): bool
    decreases |s| - a
  {
    if a >= |s| then false
    else (1 <= a && s[a] == '@' && !IsSpace(s[a - 1]) && DotRun(s, a + 1, a)) || EmailScan(s, a + 1)
  }

  lemma {:induction false} DotRunMeaning(s: string, i: int, a: int)
    requires 0 <= a < i
    requires forall k :: a < k < i && k < |s| ==> !IsSpace(s[k])
    ensures DotRun(s, i, a) <==> exists d :: i <= d && DotAt(s, a, d)
    decreases |s| - i
  {
    if i >= |s| {
    } else if IsSpace(s[i]) {
      assert !IsSpace('.');
    } else if i >= a + 2 && s[i] == '.' && i + 1 < |s| && !IsSpace(s[i + 1]) {
      assert DotAt(s, a, i);
    } else {
      DotRunMeaning(s, i + 1, a);
    }
  }

  lemma {:induction false} EmailScanMeaning(s: string, a: nat)
    ensures EmailScan(s, a) <==> exists b, d :: a <= b && EmailMatchAt(s, b, d)
    decreases |s| - a
  {
    if a >= |s| {
    } else {
      EmailScanMeaning(s, a + 1);
      if 1 <= a && s[a] == '@' && !IsSpace(s[a - 1]) {
        DotRunMeaning(s, a + 1, a);
        if DotRun(s, a + 1, a) {
          var d :| a + 1 <= d && DotAt(s, a, d);
          assert EmailMatchAt(s, a, d);
        }
      }
      if exists b, d :: a <= b && EmailMatchAt(s, b, d) {
        var b, d :| a <= b && EmailMatchAt(s, b, d);
        if b == a {
          DotRunMeaning(s, a + 1, a);
          assert a + 1 <= d && DotAt(s, a, d);
        } else {
          assert a + 1 <= b && EmailMatchAt(s, b, d);
        }
      }
    }
  }

  /** The scan decides exactly the regular expression. */
  lemma EmailScanIsRegex(s: string)
    ensures EmailScan(s, 0) <==> EmailLike(s)
  {
    EmailScanMeaning(s, 0);
  }

  /** A match needs an `@` with a non-blank character on each side, and a `.` after it. */
  lemma EmailExample()
    ensures EmailScan("a@b.c", 0)
    ensures !EmailScan("a@.c", 0)
  {
    var s := "a@b.c";
    assert EmailMatchAt(s, 1, 3);
    EmailScanIsRegex(s);
    var t := "a@.c";
    assert !DotRun(t, 4, 1) && !DotRun(t, 3, 1) && !DotRun(t, 2, 1);
    assert !EmailScan(t, 4) && !EmailScan(t, 3) && !EmailScan(t, 2) && !EmailScan(t, 1);
  }

  // ---------------------------------------------------------------- registration

  /** `fullName` is an array of exactly two names of at least 2 characters each. */
  predicate NameOk(fullName: Option<seq<Option<string>>>)
  {
    fullName.Some? && |fullName.value| == 2
    && forall i :: 0 <= i < 2 ==> fullName.value[i].Some? && |fullName.value[i].value| >= 2
  }

  /** The first check `POST /register` fails, in the order name, e-mail, password, terms. */
  function Refusal(fullName: Option<seq<Option<string>>>, email: Option<string>, password: Option<string>,
                   termsAccepted: bool): (r: Option<string>)
    ensures r.None? <==>
      NameOk(fullName) && Present(email) && EmailScan(email.value, 0)
      && Present(password) && IsValidPassword(password.value) && termsAccepted
    ensures !NameOk(fullName) ==> r == Some(NameMessage)
    ensures NameOk(fullName) && !(Present(email) && EmailScan(email.value, 0)) ==> r == Some(EmailMessage)
    ensures (NameOk(fullName) && Present(email) && EmailScan(email.value, 0)
             && !(Present(password) && IsValidPassword(password.value))) ==> r == Some(PasswordMessage)
  {
    if !NameOk(fullName) then Some(NameMessage)
    else if !Present(email) || !EmailScan(email.value, 0) then Some(EmailMessage)
    else if !Present(password) || !IsValidPassword(password.value) then Some(PasswordMessage)
    else if !termsAccepted then Some(TermsMessage)
    else None
  }

  /** The subscription `POST /register` asks for: a 7-day trial with 1 club and 2 employees. */
  function RegistrationTrial(now: int): Suscripcion
  {
    DefaultSuscripcion(now).(fechaExpiracion := Some(now + RequestedTrial))
  }

  /** The user `POST /register` builds from the two names, the e-mail and the password hash. */
  function Registrant(fullName: seq<Option<string>>, email: string, hash: string, now: int): UserDoc
    requires |fullName| == 2 && fullName[0].Some? && fullName[1].Some?
  {
    NewUser(fullName[0].value + " " + fullName[1].value, email, hash, RegistrationTrial(now), now)
  }

  /** The pre-save hook turns the requested 7 days into the 3 of an unused trial. */
  lemma RegistrationTrialIsThreeDays(fullName: seq<Option<string>>, email: string, hash: string, now: int)
    requires |fullName| == 2 && fullName[0].Some? && fullName[1].Some? && email != "" && hash != ""
    ensures Validates(Registrant(fullName, email, hash, now))
    ensures Saved(Registrant(fullName, email, hash, now), 0).suscripcion ==
      Some(Suscripcion(Some("prueba"), now, Some(now + TrialLength), 1, 2, 0, 0, 0, false))
  {
  }

  /** Some user has the e-mail address (`User.findOne({ email })` finds one). */
  predicate EmailInUse(users: map<Id, UserDoc>, email: string)
  {
    exists o :: o in users && users[o].email == Some(email)
  }

  datatype Response =
    | Registered(userId: Id)
    | LoggedIn(userId: Id, clubPrincipal: Option<Id>)
    | TokenIssued(token: string)
    | PasswordReset
    | BadRequest(message: string)
    | ServerError

  /**
   * `POST /register` at time `now`; `hash` is bcrypt's hash of the password and `newId` the id the
   * database gives the user.
   */
  method Register(
    dir: Directory, fullName: Option<seq<Option<string>>>, email: Option<string>, password: Option<string>,
    termsAccepted: bool, hash: string, newId: Id, now: int) returns (resp: Response)
    requires dir.Valid() && newId !in dir.users
    requires hash != ""  // a bcrypt hash is never empty
    modifies dir
    ensures dir.Valid()
    ensures Refusal(fullName, email, password, termsAccepted).Some? ==>
      resp == BadRequest(Refusal(fullName, email, password, termsAccepted).value) && dir.users == old(dir.users)
    // The duplicate check runs only once all four checks pass.
    ensures Refusal(fullName, email, password, termsAccepted).None? && EmailInUse(old(dir.users), email.value) ==>
      resp == BadRequest(EmailTaken) && dir.users == old(dir.users)
    ensures Refusal(fullName, email, password, termsAccepted).None? && !EmailInUse(old(dir.users), email.value) ==>
      && resp == Registered(newId)
      && dir.users == old(dir.users)[newId := Saved(Registrant(fullName.value, email.value, hash, now), 0)]
    ensures dir.tiendas == old(dir.tiendas) && dir.employees == old(dir.employees)
    ensures dir.payments == old(dir.payments) && dir.resetTokens == old(dir.resetTokens)
  {
    var refusal := Refusal(fullName, email, password, termsAccepted);
    if refusal.Some? {
      return BadRequest(refusal.value);
    }
    if EmailInUse(dir.users, email.value) {
      return BadRequest(EmailTaken);
    }
    var u := Registrant(fullName.value, email.value, hash, now);
    var ok := dir.SaveUser(newId, u, 0);
    if !ok {
      assert false;
    }
    resp := Registered(newId);
  }

  // ---------------------------------------------------------------- login

  /**
   * `POST /login`; `matches` is bcrypt's verdict on the password against the stored hash of the
   * user with that e-mail. An unknown e-mail and a wrong password get the same answer.
   */
  method Login(dir: Directory, email: string, matches: bool) returns (resp: Response)
    ensures resp == BadRequest(InvalidCredentials) || resp.LoggedIn?
    ensures resp.LoggedIn? <==> EmailInUse(dir.users, email) && matches
    ensures resp.LoggedIn? ==>
      resp.userId in dir.users && dir.users[resp.userId].email == Some(email)
      && resp.clubPrincipal == dir.users[resp.userId].clubPrincipal
  {
    if !EmailInUse(dir.users, email) {
      return BadRequest(InvalidCredentials);
    }
    var o :| o in dir.users && dir.users[o].email == Some(email);
    if !matches {
      return BadRequest(InvalidCredentials);
    }
    resp := LoggedIn(o, dir.users[o].clubPrincipal);
  }

  // ---------------------------------------------------------------- reset tokens

  /** No two reset tokens carry the same string. */
  predicate TokensDistinct(tokens: map<Id, ResetToken>)
  {
    forall t, t' :: t in tokens && t' in tokens && t != t' ==> tokens[t].token != tokens[t'].token
  }

  /**
   * `POST /forgot-password` at time `now`; `token` is the random hex string generated for it and
   * `tokenId` the id the database gives the token document.
   */
  method ForgotPassword(dir: Directory, email: string, token: string, tokenId: Id, now: int) returns (resp: Response)
    requires dir.Valid() && tokenId !in dir.resetTokens
    requires token != ""  // 32 random bytes in hexadecimal
    modifies dir
    ensures dir.Valid()
    ensures !EmailInUse(old(dir.users), email) ==>
      resp == BadRequest(EmailNotFound) && dir.resetTokens == old(dir.resetTokens)
    ensures EmailInUse(old(dir.users), email) ==>
      && resp == TokenIssued(token)
      && exists o :: o in old(dir.users) && old(dir.users)[o].email == Some(email)
           && dir.resetTokens == old(dir.resetTokens)[tokenId := ResetToken(o, token, now + TokenLifetime)]
    // A token string not in use before keeps the strings distinct.
    ensures TokensDistinct(old(dir.resetTokens)) && (forall t :: t in old(dir.resetTokens) ==> old(dir.resetTokens)[t].token != token) ==>
      TokensDistinct(dir.resetTokens)
    ensures dir.users == old(dir.users) && dir.tiendas == old(dir.tiendas)
    ensures dir.employees == old(dir.employees) && dir.payments == old(dir.payments)
  {
    if !EmailInUse(dir.users, email) {
      return BadRequest(EmailNotFound);
    }
    var o :| o in dir.users && dir.users[o].email == Some(email);
    dir.resetTokens := dir.resetTokens[tokenId := ResetToken(o, token, now + TokenLifetime)];
    resp := TokenIssued(token);
  }

  /** The users after `findByIdAndUpdate(userId, { password, updatedAt })`: no validators, no hook. */
  function WithPassword(users: map<Id, UserDoc>, userId: Id, hash: string, now: int): (r: map<Id, UserDoc>)
    ensures r.Keys == users.Keys
    ensures forall o :: o in r && o != userId ==> r[o] == users[o]
    ensures userId in users ==> r[userId] == users[userId].(password := hash, updatedAt := now)
  {
    if userId in users then users[userId := users[userId].(password := hash, updatedAt := now)] else users
  }

  /**
   * `POST /reset-password` at time `now`; `newHash` is bcrypt's hash of the new password (`None`:
   * there is none, and hashing throws). The token document found is deleted once used.
   */
  method ResetPassword(dir: Directory, token: string, newHash: Option<string>, now: int) returns (resp: Response)
    requires dir.Valid()
    requires newHash.Some? ==> newHash.value != ""
    modifies dir
    ensures dir.Valid()
    ensures resp == BadRequest(InvalidToken) || resp == ServerError || resp == PasswordReset
    ensures resp != PasswordReset ==> dir.users == old(dir.users) && dir.resetTokens == old(dir.resetTokens)
    // An unknown token is refused; a known one only when the document found has expired.
    ensures (forall t :: t in old(dir.resetTokens) ==> old(dir.resetTokens)[t].token != token) ==>
      resp == BadRequest(InvalidToken)
    ensures resp == BadRequest(InvalidToken) ==>
      || (forall t :: t in old(dir.resetTokens) ==> old(dir.resetTokens)[t].token != token)
      || (exists t :: t in old(dir.resetTokens) && old(dir.resetTokens)[t].token == token && old(dir.resetTokens)[t].expiresAt < now)
    ensures resp == ServerError ==> newHash.None?
    ensures resp == PasswordReset ==>
      && newHash.Some?
      && exists t :: t in old(dir.resetTokens) && old(dir.resetTokens)[t].token == token
           && old(dir.resetTokens)[t].expiresAt >= now
           && dir.resetTokens == old(dir.resetTokens) - {t}
           && dir.users == WithPassword(old(dir.users), old(dir.resetTokens)[t].userId, newHash.value, now)
    // Used once, a token is gone: with distinct strings, a second reset with it is refused.
    ensures resp == PasswordReset && TokensDistinct(old(dir.resetTokens)) ==>
      forall t :: t in dir.resetTokens ==> dir.resetTokens[t].token != token
    ensures dir.tiendas == old(dir.tiendas) && dir.employees == old(dir.employees)
    ensures dir.payments == old(dir.payments)
  {
    if !exists t :: t in dir.resetTokens && dir.resetTokens[t].token == token {
      return BadRequest(InvalidToken);
    }
    var t :| t in dir.resetTokens && dir.resetTokens[t].token == token;
    var doc := dir.resetTokens[t];
    if doc.expiresAt < now {
      return BadRequest(InvalidToken);
    }
    if newHash.None? {
      return ServerError;
    }
    UseToken(dir, t, newHash.value, now);
    resp := PasswordReset;
  }

  /** The success path: the password written to the token's user and the token document deleted. */
  method UseToken(dir: Directory, t: Id, hash: string, now: int)
    requires dir.Valid() && t in dir.resetTokens && hash != ""
    modifies dir
    ensures dir.Valid()
    ensures dir.users == WithPassword(old(dir.users), old(dir.resetTokens)[t].userId, hash, now)
    ensures dir.resetTokens == old(dir.resetTokens) - {t}
    ensures dir.tiendas == old(dir.tiendas) && dir.employees == old(dir.employees)
    ensures dir.payments == old(dir.payments)
  {
    var userId := dir.resetTokens[t].userId;
    if userId in dir.users {
      // No validator runs, but the new password is a non-empty hash, so the document would pass them.
      dir.SaveUserFields(userId, dir.users[userId].(password := hash, updatedAt := now));
    }
    dir.resetTokens := dir.resetTokens - {t};
  }
}
