/** The backend's legacy admin guard: an exact comparison with `Bearer <ADMIN_TOKEN>`. */
module BackendAuth {
  import opened Wrappers
  import opened EventModel
  import ServerAuth

  const DEFAULT_ADMIN_TOKEN := "admin-token-123"

  /** `process.env.ADMIN_TOKEN || 'admin-token-123'`. */
  function ExpectedToken(adminToken: Option<string>): (t: string)
    ensures Truthy(adminToken) ==> t == adminToken.value
    ensures !Truthy(adminToken) ==> t == DEFAULT_ADMIN_TOKEN
  {
    if Truthy(adminToken) then adminToken.value else DEFAULT_ADMIN_TOKEN
  }

  /** Passing on to the route, or a refusal with its status and body. */
  datatype Gate = Next | Deny(status: int, code: string, message: string)

  /**
   * `requireAuth`: passes iff the header is exactly `Bearer ` followed by the expected token,
   * with no trimming or case folding; anything else is a 401.
   */
  function RequireAuth(header: Option<string>, adminToken: Option<string>): (g: Gate)
    ensures g.Next? <==> header == Some("Bearer " + ExpectedToken(adminToken))
    ensures g.Deny? ==> g == Deny(401, "UNAUTHORIZED", "Invalid or missing authentication token")
  {
    if !Truthy(header) || header.value != "Bearer " + ExpectedToken(adminToken) then
      Deny(401, "UNAUTHORIZED", "Invalid or missing authentication token")
    else
      Next
  }

  /**
   * With ADMIN_TOKEN unset the backend's guard and the in-memory server's accept exactly the
   * same headers, although the server splits the header and the backend compares it whole.
   */
  lemma GuardsAgree(header: Option<string>)
    ensures RequireAuth(header, None).Next? <==> ServerAuth.Authenticate(header).Accept?
  {
    ServerAuth.AuthenticateExactly(header);
  }
}
