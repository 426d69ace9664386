// middlewares/auth.js: the token taken from the Authorization header, and the error code each
// failure maps to. Verifying the token (jsonwebtoken) is a parameter.

module AuthMiddleware {
  import opened Common
  import opened UserModel

  /** What verifying a token yields: its `userId`, or the kind of error thrown. */
  datatype Verdict = Decoded(userId: Id) | Expired | Malformed

  /** The middleware's decision: pass on to the handler with `req.userId` set, or answer 401. */
  datatype Decision = Pass(userId: Id, email: Option<string>) | Reject(code: string, message: string)

  const BearerPrefix := "Bearer "

  /** The text up to the first space: `s.split(' ')[0]`. */
  function FirstSegment(s: string): (r: string)
    ensures r <= s
    ensures ' ' !in r
    ensures |r| < |s| ==> s[|r|] == ' '
  {
    if s == [] || s[0] == ' ' then [] else [s[0]] + FirstSegment(s[1..])
  }

  /** The token of a header: the segment after `Bearer `, or the whole header otherwise. */
  function TokenOf(header: string): (t: string)
    ensures BearerPrefix <= header ==> t == FirstSegment(header[|BearerPrefix|..])
    ensures !(BearerPrefix <= header) ==> t == header
  {
    if BearerPrefix <= header then FirstSegment(header[|BearerPrefix|..]) else header
  }

  /** `Bearer <t>` hands over `t` itself when it has no space. */
  lemma BearerRoundTrip(t: string)
    requires ' ' !in t
    ensures TokenOf(BearerPrefix + t) == t
  {
    assert (BearerPrefix + t)[|BearerPrefix|..] == t;
    FirstSegmentOfSpaceless(t);
  }

  lemma {:induction false} FirstSegmentOfSpaceless(t: string)
    requires ' ' !in t
    ensures FirstSegment(t) == t
    decreases |t|
  {
    if t != [] {
      FirstSegmentOfSpaceless(t[1..]);
      assert t == [t[0]] + t[1..];
    }
  }

  /**
   * The middleware on a request whose Authorization header is `header`, against the users
   * `users`; `verify` stands for `jwt.verify` with the server's secret.
   */
  function Authenticate(header: Option<string>, verify: string -> Verdict, users: map<Id, UserDoc>): (d: Decision)
    // No header, or an empty one: `NO_TOKEN`.
    ensures header.None? || header.value == "" ==> d == Reject("NO_TOKEN", "No se proporcionó token")
    ensures header.Some? && header.value != "" ==>
      match verify(TokenOf(header.value))
      case Expired => d == Reject("TOKEN_EXPIRED", "La sesión ha expirado")
      case Malformed => d == Reject("INVALID_TOKEN", "Token inválido")
      case Decoded(id) =>
        if id in users then d == Pass(id, users[id].email)
        else d == Reject("USER_NOT_FOUND", "Usuario no encontrado")
  {
    if header.None? || header.value == "" then Reject("NO_TOKEN", "No se proporcionó token")
    else
      match verify(TokenOf(header.value))
      case Expired => Reject("TOKEN_EXPIRED", "La sesión ha expirado")
      case Malformed => Reject("INVALID_TOKEN", "Token inválido")
      case Decoded(id) =>
        if id in users then Pass(id, users[id].email) else Reject("USER_NOT_FOUND", "Usuario no encontrado")
  }

  /** Only a stored user gets through, and then under the id its token names. */
  lemma PassMeansKnownUser(header: Option<string>, verify: string -> Verdict, users: map<Id, UserDoc>)
    ensures Authenticate(header, verify, users).Pass? <==>
      header.Some? && header.value != "" && verify(TokenOf(header.value)).Decoded?
      && verify(TokenOf(header.value)).userId in users
    ensures Authenticate(header, verify, users).Pass? ==>
      Authenticate(header, verify, users).userId == verify(TokenOf(header.value)).userId
  {
  }

  /** With or without the prefix, a space-free token reaches `jwt.verify` unchanged. */
  lemma PrefixDoesNotMatter(t: string, verify: string -> Verdict, users: map<Id, UserDoc>)
    requires ' ' !in t && t != ""
    ensures Authenticate(Some(BearerPrefix + t), verify, users) == Authenticate(Some(t), verify, users)
  {
    // The prefix ends in a space, which `t` does not contain.
    assert BearerPrefix[6] == ' ';
    assert |t| < |BearerPrefix| || t[6] != BearerPrefix[6];
    BearerRoundTrip(t);
  }
}
