/**
 * The backend's JWT middleware: the decisions of `requireJWTAuth`, `optionalJWTAuth`,
 * `requireRole` and the hybrid `requireAuth`. Verifying a token is a parameter that yields
 * the payload, or None where the verifier throws.
 */
module JwtAuth {
  import opened Wrappers
  import opened Text
  import opened EventModel
  import BackendAuth

  datatype Payload = Payload(userId: string, email: string, role: string)

  /** `req.user`. */
  datatype User = User(id: string, email: string, role: string)

  /**
   * What a middleware does: call `next` with `req.user` as it then stands, or answer with a
   * status and an error body and not call `next`.
   */
  datatype Outcome = Next(user: Option<User>) | Respond(status: int, code: string, message: string)

  function UserOf(p: Payload): (u: User)
    ensures u.id == p.userId && u.email == p.email && u.role == p.role
  {
    User(p.userId, p.email, p.role)
  }

  const BEARER := "Bearer "

  /** `authHeader.substring(7)`: the header after the `Bearer ` prefix. */
  function BearerToken(header: string): (token: string)
    requires StartsWith(header, BEARER)
    ensures header == BEARER + token
  {
    header[7..]
  }

  /**
   * `requireJWTAuth`: a missing header, or one not starting with `Bearer `, is a 401
   * UNAUTHORIZED; a token the verifier rejects is a 401 INVALID_TOKEN; otherwise the user
   * is set from the payload and `next` is called.
   */
  function RequireJwtAuth(header: Option<string>, verify: string -> Option<Payload>): (o: Outcome)
    ensures !Truthy(header) || !StartsWith(header.value, BEARER) ==>
      o == Respond(401, "UNAUTHORIZED", "Missing or invalid authorization header")
    ensures Truthy(header) && StartsWith(header.value, BEARER) ==>
      var token := BearerToken(header.value);
      && (verify(token).None? ==> o == Respond(401, "INVALID_TOKEN", "Invalid or expired token"))
      && (verify(token).Some? ==> o == Next(Some(UserOf(verify(token).value))))
  {
    if !Truthy(header) || !StartsWith(header.value, BEARER) then
      Respond(401, "UNAUTHORIZED", "Missing or invalid authorization header")
    else
      match verify(BearerToken(header.value))
      case None => Respond(401, "INVALID_TOKEN", "Invalid or expired token")
      case Some(p) => Next(Some(UserOf(p)))
  }

  /** Passing `requireJWTAuth` means the header is `Bearer ` and a token the verifier accepts. */
  lemma JwtPassesExactly(header: Option<string>, verify: string -> Option<Payload>)
    ensures RequireJwtAuth(header, verify).Next? <==>
      exists token :: header == Some(BEARER + token) && verify(token).Some?
    ensures RequireJwtAuth(header, verify).Respond? ==> RequireJwtAuth(header, verify).status == 401
  {
    if exists token :: header == Some(BEARER + token) && verify(token).Some? {
      var token :| header == Some(BEARER + token) && verify(token).Some?;
      assert (BEARER + token)[..7] == BEARER;
      assert BearerToken(header.value) == token;
    }
    if RequireJwtAuth(header, verify).Next? {
      var token := BearerToken(header.value);
      assert header == Some(BEARER + token) && verify(token).Some?;
    }
  }

  /**
   * `optionalJWTAuth`: never answers; the user becomes the payload's when a bearer token
   * verifies, and stays as it was otherwise.
   */
  function OptionalJwtAuth(header: Option<string>, verify: string -> Option<Payload>, user: Option<User>): (o: Outcome)
    ensures o.Next?
    ensures Truthy(header) && StartsWith(header.value, BEARER) && verify(BearerToken(header.value)).Some? ==>
      o.user == Some(UserOf(verify(BearerToken(header.value)).value))
    ensures !(Truthy(header) && StartsWith(header.value, BEARER) && verify(BearerToken(header.value)).Some?) ==>
      o.user == user
  {
    if !Truthy(header) || !StartsWith(header.value, BEARER) then Next(user)
    else match verify(BearerToken(header.value))
      case None => Next(user)
      case Some(p) => Next(Some(UserOf(p)))
  }

  /**
   * `requireRole(...roles)`: no user is a 401 UNAUTHORIZED, a role not listed a 403
   * FORBIDDEN; otherwise `next`, with the user unchanged.
   */
  function RequireRole(roles: seq<string>, user: Option<User>): (o: Outcome)
    ensures o.Next? <==> user.Some? && user.value.role in roles
    ensures o.Next? ==> o.user == user
    ensures user.None? ==> o == Respond(401, "UNAUTHORIZED", "Authentication required")
    ensures user.Some? && user.value.role !in roles ==> o == Respond(403, "FORBIDDEN", "Insufficient permissions")
  {
    if user.None? then Respond(401, "UNAUTHORIZED", "Authentication required")
    else if user.value.role !in roles then Respond(403, "FORBIDDEN", "Insufficient permissions")
    else Next(user)
  }

  const LEGACY_ADMIN := User("legacy-admin", "admin@legacy.com", "ADMIN")

  /** The token the hybrid guard verifies: the header without `Bearer `, or the whole header. */
  function HybridToken(header: string): (token: string)
    ensures StartsWith(header, BEARER) ==> header == BEARER + token
    ensures !StartsWith(header, BEARER) ==> token == header
  {
    if StartsWith(header, BEARER) then BearerToken(header) else header
  }

  /**
   * `requireAuth` (hybrid): a missing header is a 401; the exact legacy header sets the
   * legacy admin without consulting the verifier; anything else is verified as a JWT,
   * taking a header without the `Bearer ` prefix as the raw token.
   */
  function RequireHybridAuth(header: Option<string>, adminToken: Option<string>,
                             verify: string -> Option<Payload>): (o: Outcome)
    ensures !Truthy(header) ==> o == Respond(401, "UNAUTHORIZED", "Missing authorization header")
    ensures header == Some(BEARER + BackendAuth.ExpectedToken(adminToken)) ==> o == Next(Some(LEGACY_ADMIN))
    ensures Truthy(header) && header.value != BEARER + BackendAuth.ExpectedToken(adminToken) ==>
      var token := HybridToken(header.value);
      && (verify(token).None? ==> o == Respond(401, "INVALID_TOKEN", "Invalid or expired token"))
      && (verify(token).Some? ==> o == Next(Some(UserOf(verify(token).value))))
  {
    if !Truthy(header) then Respond(401, "UNAUTHORIZED", "Missing authorization header")
    else if header.value == BEARER + BackendAuth.ExpectedToken(adminToken) then Next(Some(LEGACY_ADMIN))
    else match verify(HybridToken(header.value))
      case None => Respond(401, "INVALID_TOKEN", "Invalid or expired token")
      case Some(p) => Next(Some(UserOf(p)))
  }

  /**
   * The hybrid guard accepts every header the legacy guard accepts, as the legacy admin, who
   * then passes `requireRole("ADMIN")`.
   */
  lemma HybridAcceptsLegacy(header: Option<string>, adminToken: Option<string>, verify: string -> Option<Payload>)
    requires BackendAuth.RequireAuth(header, adminToken).Next?
    ensures RequireHybridAuth(header, adminToken, verify) == Next(Some(LEGACY_ADMIN))
    ensures RequireRole(["ADMIN"], RequireHybridAuth(header, adminToken, verify).user).Next?
  {
  }
}
