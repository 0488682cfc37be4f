/** The two Express middlewares of server/src/middleware/auth.ts: reading the
    bearer token from the Authorization header and verifying it, and the
    admin-only gate. Token verification is an opaque function handed in. */
module AuthMiddleware {
  import opened JsRuntime
  import opened Entities

  /** `authHeader && authHeader.split(' ')[1]`, read as a token only when non-empty. */
  function BearerToken(header: Option<string>): (token: Option<string>)
    ensures token.Some? ==> token.value != "" && ' ' !in token.value
    ensures token.Some? ==> header.Some? && |Split(header.value, ' ')| >= 2
  {
    match header
    case None => None
    case Some(h) =>
      var parts := Split(h, ' ');
      if |parts| >= 2 && parts[1] != "" then Some(parts[1]) else None
  }

  /** The header a client builds, `Bearer ${token}`, gives its token back. */
  lemma {:induction false} BearerRoundTrip(token: string)
    requires token != "" && ' ' !in token
    ensures BearerToken(Some("Bearer " + token)) == Some(token)
  {
    var parts := ["Bearer", token];
    assert Join(parts, ' ') == "Bearer " + token;
    JoinThenSplit(parts, ' ');
  }

  /** A header with no space, or with two spaces after the scheme, carries no token. */
  lemma {:induction false} NoTokenWithoutSecondField(scheme: string, rest: string)
    requires ' ' !in scheme
    ensures BearerToken(Some(scheme)) == None
    ensures BearerToken(Some(scheme + "  " + rest)) == None
  {
    SplitWord(scheme, ' ');
    assert scheme + "  " + rest == scheme + [' '] + ([' '] + rest);
    SplitPrefix(scheme, ' ', [' '] + rest);
    SplitPrefix([], ' ', rest);
    assert [] + [' '] + rest == [' '] + rest;
  }

  /** What a middleware does with a request: answer with a status, or call `next`. */
  datatype Gate = Respond(code: nat, error: string) | Next(user: Claims)

  /** `authenticateToken`: 401 without a token, 403 when verification fails,
      otherwise `req.user` is the decoded payload and `next` runs. */
  function Authenticate(header: Option<string>, verify: string -> Option<Claims>): (g: Gate)
    ensures g.Next? <==> BearerToken(header).Some? && verify(BearerToken(header).value).Some?
    ensures g.Next? ==> g.user == verify(BearerToken(header).value).value
    ensures BearerToken(header).None? ==> g == Respond(401, "Unauthorized")
    ensures g.Respond? ==> g.code in {401, 403}
  {
    match BearerToken(header)
    case None => Respond(401, "Unauthorized")
    case Some(t) =>
      match verify(t)
      case None => Respond(403, "Forbidden")
      case Some(user) => Next(user)
  }

  /** `requireAdmin`: `next` runs exactly when a user is present whose role is the string "ADMIN". */
  function RequireAdmin(user: Option<Claims>): (g: Gate)
    ensures g.Next? <==> user.Some? && user.value.role == "ADMIN"
    ensures g.Next? ==> g.user == user.value
    ensures g.Respond? ==> g == Respond(403, "Access denied. Admins only.")
  {
    if user.None? || user.value.role != "ADMIN" then Respond(403, "Access denied. Admins only.")
    else Next(user.value)
  }

  /** The two gates in a row, as every admin route mounts them. */
  function AdminChain(header: Option<string>, verify: string -> Option<Claims>): (g: Gate)
    ensures g.Next? ==> g.user.role == "ADMIN"
    ensures g.Next? <==> Authenticate(header, verify).Next? && Authenticate(header, verify).user.role == "ADMIN"
  {
    match Authenticate(header, verify)
    case Respond(c, e) => Respond(c, e)
    case Next(u) => RequireAdmin(Some(u))
  }
}
