/**
 * The earlier TOKEN authorizer: it trusts a signature already checked upstream,
 * reads `tenant_id` and `sub` from the unverified token, and either allows the
 * call or fails the invocation (it never answers with a Deny policy).
 */
module LambdaAuthorizer {
  import opened Wrappers
  import opened Strings
  import opened Jwt
  import opened ApiGateway

  const ErrMissingHeader: string := "unauthorized: missing Authorization header"
  const ErrInvalidFormat: string := "unauthorized: invalid token format"
  const ErrMissingTenant: string := "unauthorized: missing tenant_id claim"

  /** `extractTokenClaims`: the parsed `TenantClaims`, or None when parsing fails or yields another type. */
  function ExtractTokenClaims(token: string, parse: UnverifiedParser): (r: Option<ParsedClaims>)
    ensures r.Some? <==> parse(token).Ok? && parse(token).value.TenantClaims?
    ensures r.Some? ==> r.value == parse(token).value && r.value.TenantClaims?
  {
    match parse(token)
    case Err(_) => None
    case Ok(c) => if c.TenantClaims? then Some(c) else None
  }

  /** `generateIAMPolicy`: one statement for the resource, with the tenant and subject as context. */
  function GenerateIAMPolicy(principalId: string, effect: string, resource: string, claims: ParsedClaims): (resp: AuthorizerResponse)
    requires claims.TenantClaims?
    ensures resp.principalId == principalId
    ensures resp.policyDocument == PolicyDocument(PolicyVersion, [Statement([InvokeAction], effect, [resource])])
    ensures resp.context == map["tenant_id" := CString(claims.tenantId), "sub" := CString(claims.subject)]
  {
    AuthorizerResponse(
      principalId,
      PolicyDocument(PolicyVersion, [Statement([InvokeAction], effect, [resource])]),
      map["tenant_id" := CString(claims.tenantId), "sub" := CString(claims.subject)])
  }

  /**
   * `HandleRequest`: an empty token, a parse failure and an empty tenant each
   * fail the invocation with their own message, in that order; otherwise the
   * tenant is the principal and is allowed to invoke the method.
   */
  function HandleRequest(authorizationToken: string, methodArn: string, parse: UnverifiedParser): (r: Result<AuthorizerResponse, string>)
    ensures authorizationToken == "" ==> r == Err(ErrMissingHeader)
    ensures authorizationToken != "" && ExtractTokenClaims(TrimPrefix(authorizationToken, "Bearer "), parse).None? ==>
      r == Err(ErrInvalidFormat)
    ensures
      (&& authorizationToken != ""
       && ExtractTokenClaims(TrimPrefix(authorizationToken, "Bearer "), parse).Some?
       && ExtractTokenClaims(TrimPrefix(authorizationToken, "Bearer "), parse).value.tenantId == "")
      ==> r == Err(ErrMissingTenant)
    ensures r.Ok? <==>
      && authorizationToken != ""
      && ExtractTokenClaims(TrimPrefix(authorizationToken, "Bearer "), parse).Some?
      && ExtractTokenClaims(TrimPrefix(authorizationToken, "Bearer "), parse).value.tenantId != ""
    ensures r.Err? ==> r.error in {ErrMissingHeader, ErrInvalidFormat, ErrMissingTenant}
    ensures r.Ok? ==>
      var c := parse(TrimPrefix(authorizationToken, "Bearer ")).value;
      r.value == GenerateIAMPolicy(c.tenantId, "Allow", methodArn, c)
  {
    if authorizationToken == "" then Err(ErrMissingHeader)
    else
      match ExtractTokenClaims(TrimPrefix(authorizationToken, "Bearer "), parse)
      case None => Err(ErrInvalidFormat)
      case Some(claims) =>
        if claims.tenantId == "" then Err(ErrMissingTenant)
        else Ok(GenerateIAMPolicy(claims.tenantId, "Allow", methodArn, claims))
  }

  /**
   * Every response this authorizer returns grants invocation of the method to
   * a non-empty tenant, which is also the context's `tenant_id`.
   */
  lemma HandleRequestOnlyAllows(authorizationToken: string, methodArn: string, parse: UnverifiedParser)
    requires HandleRequest(authorizationToken, methodArn, parse).Ok?
    ensures var resp := HandleRequest(authorizationToken, methodArn, parse).value;
      && Allows(resp.policyDocument, InvokeAction, methodArn)
      && resp.principalId != ""
      && resp.context["tenant_id"] == CString(resp.principalId)
  {
    var resp := HandleRequest(authorizationToken, methodArn, parse).value;
    assert Matches(resp.policyDocument.statement[0], "Allow", InvokeAction, methodArn);
  }
}
