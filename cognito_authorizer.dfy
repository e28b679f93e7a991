/**
 * The multi-issuer REQUEST authorizer: reads the issuer from the unverified
 * token, verifies the token against that issuer's published keys, requires a
 * tenant claim, and answers API Gateway with an Allow or Deny policy.
 * OIDC discovery and verification, and JSON parsing, are oracles.
 */
module CognitoAuthorizer {
  import opened Wrappers
  import opened Strings
  import opened Base64Url
  import opened Json
  import opened ApiGateway

  /** `TokenInfo`; `expiration` is a Unix time in seconds. */
  datatype TokenInfo = TokenInfo(tenantId: string, username: string, expiration: int)

  datatype AuthError =
    | MalformedToken(parts: nat)
    | PayloadNotBase64
    | ClaimsNotJson
    | MissingIssuer
    | ProviderUnavailable(issuer: string, cause: string)
    | VerificationFailed(cause: string)
    | ClaimsUndecodable
    | MissingTenant

  /** `json.Unmarshal`: the document, or None when the bytes are not JSON. */
  type JsonParser = seq<byte> -> Option<Json>

  /**
   * The OIDC library: `discover(issuer)` is the error of `oidc.NewProvider`
   * (None on success); `verify(issuer, token)` checks signature, expiry and
   * issuer against that provider's keys and yields the token's claims.
   */
  datatype Oidc = Oidc(
    discover: string -> Option<string>,
    verify: (string, string) -> Result<Json, string>)

  /**
   * `extractIssuerFromToken`: a JWS compact serialization has exactly three
   * dot-separated segments (RFC 7515 section 7.1); the middle one must be
   * unpadded base64url holding a JSON object with a non-empty string `iss`.
   */
  function ExtractIssuerFromToken(token: string, parseJson: JsonParser): (r: Result<string, AuthError>)
    ensures Count(token, '.') != 2 ==> r == Err(MalformedToken(Count(token, '.') + 1))
    ensures r.Ok? ==> r.value != ""
    ensures r.Ok? <==>
      && |Split(token, '.')| == 3
      && Decode(Split(token, '.')[1]).Ok?
      && parseJson(Decode(Split(token, '.')[1]).value).Some?
      && AsObject(parseJson(Decode(Split(token, '.')[1]).value).value).Some?
      && StringClaim(AsObject(parseJson(Decode(Split(token, '.')[1]).value).value).value, "iss") != ""
    ensures r.Ok? ==>
      && |Split(token, '.')| == 3
      && Decode(Split(token, '.')[1]).Ok?
      && parseJson(Decode(Split(token, '.')[1]).value).Some?
      && AsObject(parseJson(Decode(Split(token, '.')[1]).value).value).Some?
      && r.value == StringClaim(AsObject(parseJson(Decode(Split(token, '.')[1]).value).value).value, "iss")
  {
    var parts := Split(token, '.');
    SplitLength(token, '.');
    if |parts| != 3 then Err(MalformedToken(|parts|))
    else
      match Decode(parts[1])
      case Err(_) => Err(PayloadNotBase64)
      case Ok(payload) =>
        match parseJson(payload)
        case None => Err(ClaimsNotJson)
        case Some(doc) =>
          match AsObject(doc)
          case None => Err(ClaimsNotJson)
          case Some(claims) =>
            var issuer := StringClaim(claims, "iss");
            if issuer == "" then Err(MissingIssuer) else Ok(issuer)
  }

  /**
   * For a token assembled from a dot-free header and signature around the
   * base64url encoding of a claims object with a non-empty `iss`, the issuer
   * read back is that `iss`.
   */
  lemma {:induction false} IssuerOfCompactToken(header: string, payload: seq<byte>, signature: string,
                                                 parseJson: JsonParser, claims: map<string, Json>, iss: string)
    requires '.' !in header && '.' !in signature
    requires parseJson(payload) == Some(JObject(claims))
    requires "iss" in claims && claims["iss"] == JString(iss) && iss != ""
    ensures ExtractIssuerFromToken(header + "." + Encode(payload) + "." + signature, parseJson) == Ok(iss)
  {
    var body := Encode(payload);
    assert '.' !in body;
    var parts := [header, body, signature];
    var token := header + "." + body + "." + signature;
    assert Join(parts, '.') == token by {
      assert Join(parts[2..], '.') == signature;
      assert Join(parts[1..], '.') == body + "." + signature;
    }
    SplitJoin(parts, '.');
    assert Split(token, '.')[1] == body;
    DecodeEncode(payload);
  }

  /**
   * Issuer extraction, discovery, verification and claim decoding: the
   * verified claims of the token, or the first failure.
   */
  function VerifiedClaims(token: string, parseJson: JsonParser, oidc: Oidc): (r: Result<map<string, Json>, AuthError>)
    ensures ExtractIssuerFromToken(token, parseJson).Err? ==> r == Err(ExtractIssuerFromToken(token, parseJson).error)
    ensures r.Ok? ==>
      var issuer := ExtractIssuerFromToken(token, parseJson).value;
      && ExtractIssuerFromToken(token, parseJson).Ok?
      && oidc.discover(issuer).None?
      && oidc.verify(issuer, token).Ok?
      && AsObject(oidc.verify(issuer, token).value) == Some(r.value)
  {
    match ExtractIssuerFromToken(token, parseJson)
    case Err(e) => Err(e)
    case Ok(issuer) =>
      if oidc.discover(issuer).Some? then Err(ProviderUnavailable(issuer, oidc.discover(issuer).value))
      else
        match oidc.verify(issuer, token)
        case Err(e) => Err(VerificationFailed(e))
        case Ok(doc) =>
          match AsObject(doc)
          case None => Err(ClaimsUndecodable)
          case Some(claims) => Ok(claims)
  }

  /**
   * `ValidateToken`: a verified token still fails without a non-empty string
   * `tenant_id`; on success the tenant is that claim exactly, the username is
   * the `username` claim or "", and the expiration is `exp` truncated.
   */
  function ValidateToken(token: string, parseJson: JsonParser, oidc: Oidc): (r: Result<TokenInfo, AuthError>)
    ensures VerifiedClaims(token, parseJson, oidc).Err? ==> r == Err(VerifiedClaims(token, parseJson, oidc).error)
    ensures VerifiedClaims(token, parseJson, oidc).Ok? && StringClaim(VerifiedClaims(token, parseJson, oidc).value, "tenant_id") == "" ==>
      r == Err(MissingTenant)
    ensures r.Ok? <==> VerifiedClaims(token, parseJson, oidc).Ok? && StringClaim(VerifiedClaims(token, parseJson, oidc).value, "tenant_id") != ""
    ensures r.Ok? ==>
      var claims := VerifiedClaims(token, parseJson, oidc).value;
      && r.value.tenantId != ""
      && claims["tenant_id"] == JString(r.value.tenantId)
      && r.value.username == StringClaim(claims, "username")
      && ("username" !in claims ==> r.value.username == "")
      && r.value.expiration == TruncateToInt(NumberClaim(claims, "exp"))
  {
    match VerifiedClaims(token, parseJson, oidc)
    case Err(e) => Err(e)
    case Ok(claims) =>
      var tenant := StringClaim(claims, "tenant_id");
      if tenant == "" then Err(MissingTenant)
      else Ok(TokenInfo(tenant, StringClaim(claims, "username"), TruncateToInt(NumberClaim(claims, "exp"))))
  }

  /**
   * Case-insensitive removal of a leading "Bearer ": only when the header is
   * longer than seven characters and its first seven lower-case to "bearer ".
   */
  function StripBearer(token: string): (r: string)
    ensures |token| > 7 && ToLower(token[..7]) == "bearer " ==> token == token[..7] + r
    ensures !(|token| > 7 && ToLower(token[..7]) == "bearer ") ==> r == token
  {
    if |token| > 7 && ToLower(token[..7]) == "bearer " then token[7..] else token
  }

  /** Every capitalisation of the scheme is stripped; a bare scheme with nothing after it is not. */
  lemma StripBearerAnyCase(scheme: string, rest: string)
    requires |scheme| == 7 && ToLower(scheme) == "bearer "
    ensures |rest| > 0 ==> StripBearer(scheme + rest) == rest
    ensures StripBearer(scheme) == scheme
  {
    assert (scheme + rest)[..7] == scheme;
  }

  /** `generatePolicy(effect, resource)`: one statement allowing or denying invocation of the resource. */
  function GeneratePolicy(effect: string, resource: string): (p: PolicyDocument)
    ensures p.version == PolicyVersion
    ensures |p.statement| == 1
    ensures p.statement[0] == Statement([InvokeAction], effect, [resource])
  {
    PolicyDocument(PolicyVersion, [Statement([InvokeAction], effect, [resource])])
  }

  /** The Authorization header: "Authorization" first, then "authorization". */
  function AuthorizationHeader(headers: map<string, string>): (r: Option<string>)
    ensures "Authorization" in headers ==> r == Some(headers["Authorization"])
    ensures "Authorization" !in headers && "authorization" in headers ==> r == Some(headers["authorization"])
    ensures r.None? <==> "Authorization" !in headers && "authorization" !in headers
  {
    if "Authorization" in headers then Some(headers["Authorization"])
    else if "authorization" in headers then Some(headers["authorization"])
    else None
  }

  function Deny(methodArn: string): AuthorizerResponse {
    AuthorizerResponse("unauthorized", GeneratePolicy("Deny", methodArn), map[])
  }

  /**
   * `handler`: never returns an error. A missing header or any validation error
   * gives Deny for principal "unauthorized" with no context; success gives Allow
   * for the tenant, with the tenant, username and decimal expiry in the context.
   */
  function Handler(headers: map<string, string>, methodArn: string, parseJson: JsonParser, oidc: Oidc): (resp: AuthorizerResponse)
    ensures AuthorizationHeader(headers).None? ==> resp == Deny(methodArn)
    ensures AuthorizationHeader(headers).Some? ==>
      var info := ValidateToken(StripBearer(AuthorizationHeader(headers).value), parseJson, oidc);
      && (info.Err? ==> resp == Deny(methodArn))
      && (info.Ok? ==> resp == AuthorizerResponse(
            info.value.tenantId,
            GeneratePolicy("Allow", methodArn),
            map["tenant_id" := CString(info.value.tenantId),
                "username" := CString(info.value.username),
                "token_expiration" := CString(IntToString(info.value.expiration))]))
  {
    match AuthorizationHeader(headers)
    case None => Deny(methodArn)
    case Some(authHeader) =>
      match ValidateToken(StripBearer(authHeader), parseJson, oidc)
      case Err(_) => Deny(methodArn)
      case Ok(info) =>
        AuthorizerResponse(
          info.tenantId,
          GeneratePolicy("Allow", methodArn),
          map["tenant_id" := CString(info.tenantId),
              "username" := CString(info.username),
              "token_expiration" := CString(IntToString(info.expiration))])
  }

  /**
   * The response lets the request through exactly when a header is present and
   * the token validates, and then only for the tenant of a verified token.
   */
  lemma HandlerAllowsOnlyValidTokens(headers: map<string, string>, methodArn: string, parseJson: JsonParser, oidc: Oidc)
    ensures var resp := Handler(headers, methodArn, parseJson, oidc);
      Allows(resp.policyDocument, InvokeAction, methodArn) <==>
        AuthorizationHeader(headers).Some? && ValidateToken(StripBearer(AuthorizationHeader(headers).value), parseJson, oidc).Ok?
    ensures var resp := Handler(headers, methodArn, parseJson, oidc);
      Allows(resp.policyDocument, InvokeAction, methodArn) ==>
        resp.principalId != "" && resp.principalId == ValidateToken(StripBearer(AuthorizationHeader(headers).value), parseJson, oidc).value.tenantId
  {
    var resp := Handler(headers, methodArn, parseJson, oidc);
    assert Matches(resp.policyDocument.statement[0], resp.policyDocument.statement[0].effect, InvokeAction, methodArn);
  }
}
