/**
 * The bearer-token guard of the in-memory server's admin routes. A request passes on to
 * the route (`next()`) only when it is accepted; a rejected request gets a 401 and no
 * route runs.
 */
module ServerAuth {
  import opened Wrappers
  import opened Text
  import opened EventModel
  import opened ApiErrors

  const VALID_TOKEN := "admin-token-123"

  /** What the guard attaches to an accepted request as `req.user`. */
  datatype AuthUser = AuthUser(token: string)

  datatype AuthOutcome = Accept(user: AuthUser) | Reject(status: int, body: ErrorResponse)

  const MISSING_HEADER := "Authorization header is required"
  const BAD_FORMAT := "Invalid authorization format. Use: Bearer <token>"
  const BAD_TOKEN := "Invalid token"

  /** `authMiddleware`: the header must be `Bearer <token>` with the one valid token. */
  function Authenticate(header: Option<string>): AuthOutcome {
    if !Truthy(header) then
      Reject(401, ErrorResponse(UNAUTHORIZED, MISSING_HEADER, None))
    else
      var parts := Split(header.value, ' ');
      if |parts| != 2 || parts[0] != "Bearer" then
        Reject(401, ErrorResponse(UNAUTHORIZED, BAD_FORMAT, None))
      else if parts[1] != VALID_TOKEN then
        Reject(401, ErrorResponse(UNAUTHORIZED, BAD_TOKEN, None))
      else
        Accept(AuthUser(parts[1]))
  }

  /**
   * A request is accepted iff its header is exactly `Bearer admin-token-123`: one space,
   * the scheme in that case, nothing before or after. The accepted user carries the token;
   * every rejection is a 401 UNAUTHORIZED, and a missing or empty header is reported as such.
   */
  lemma AuthenticateExactly(header: Option<string>)
    ensures Authenticate(header).Accept? <==> header == Some("Bearer " + VALID_TOKEN)
    ensures Authenticate(header).Accept? ==> Authenticate(header).user == AuthUser(VALID_TOKEN)
    ensures Authenticate(header).Reject? ==>
      Authenticate(header).status == 401 && Authenticate(header).body.code == UNAUTHORIZED
    ensures !Truthy(header) ==> Authenticate(header).Reject? && Authenticate(header).body.message == MISSING_HEADER
  {
    var expected := ["Bearer", VALID_TOKEN];
    assert Join(expected, ' ') == "Bearer " + VALID_TOKEN by {
      assert expected[1..] == [VALID_TOKEN];
    }
    if Truthy(header) {
      var parts := Split(header.value, ' ');
      JoinSplit(header.value, ' ');
      if parts == expected {
        assert header.value == "Bearer " + VALID_TOKEN;
      }
      if header.value == "Bearer " + VALID_TOKEN {
        assert forall k :: 0 <= k < |expected| ==> ' ' !in expected[k];
        SplitJoin(expected, ' ');
      }
    }
  }
}
