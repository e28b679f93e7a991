/**
 * The HTTP middleware of the shared auth package. Serving one request, it
 * calls the next handler once and never writes a response itself; the model
 * gives the sequence of requests handed to `next`.
 */
module AuthMiddleware {
  import opened Wrappers
  import opened Strings
  import opened GoContext
  import opened Jwt
  import AuthJwt
  import AuthCredentials

  /**
   * The parts of an `*http.Request` the middleware looks at: headers by
   * canonical name (one value each) and the context. Everything else is carried
   * along unchanged.
   */
  datatype Request = Request(header: map<string, string>, ctx: Context)

  /** `r.Header.Get(name)`: the value, or "" when absent. */
  function HeaderGet(r: Request, name: string): string {
    if name in r.header then r.header[name] else ""
  }

  /** `TenantMiddleware(next)` serving `r`: the requests passed to `next`, in call order. */
  function TenantMiddleware(r: Request, parse: UnverifiedParser): (calls: seq<Request>)
    ensures |calls| == 1
    ensures calls[0].header == r.header
    ensures !HasPrefix(HeaderGet(r, "Authorization"), "Bearer ") ==> calls[0] == r
    ensures AuthJwt.ExtractTenantFromToken(HeaderGet(r, "Authorization"), parse).Err? ==> calls[0] == r
    ensures HasPrefix(HeaderGet(r, "Authorization"), "Bearer ") && AuthJwt.ExtractTenantFromToken(HeaderGet(r, "Authorization"), parse).Ok? ==>
      && calls[0].ctx == AuthCredentials.WithTenantID(r.ctx, AuthJwt.ExtractTenantFromToken(HeaderGet(r, "Authorization"), parse).value)
      && AuthCredentials.GetTenantID(calls[0].ctx) == (AuthJwt.ExtractTenantFromToken(HeaderGet(r, "Authorization"), parse).value, true)
  {
    var authHeader := HeaderGet(r, "Authorization");
    if authHeader == "" || !HasPrefix(authHeader, "Bearer ") then [r]
    else
      match AuthJwt.ExtractTenantFromToken(authHeader, parse)
      case Err(_) => [r]
      case Ok(tenantId) => [r.(ctx := AuthCredentials.WithTenantID(r.ctx, tenantId))]
  }

  /** Whenever the middleware sets a tenant in the context, that tenant is non-empty. */
  lemma MiddlewareTenantNonEmpty(r: Request, parse: UnverifiedParser)
    requires TenantMiddleware(r, parse)[0] != r
    ensures AuthCredentials.GetTenantID(TenantMiddleware(r, parse)[0].ctx).0 != ""
  {
  }
}
