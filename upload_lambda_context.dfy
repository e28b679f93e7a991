/**
 * How the upload Lambda carries the authorizer's context into the request
 * context: the tenant as a non-empty string, and the token expiry. The
 * authorizer writes the expiry as a decimal string while the Lambda accepts
 * only a JSON number, so as written the expiry never arrives; the corrected
 * reading parses the string.
 */
module UploadLambdaContext {
  import opened Wrappers
  import opened Strings
  import opened GoContext
  import opened Json
  import opened ApiGateway
  import LambdaCredentials
  import CognitoAuthorizer
  import ApiUpload
  import UploadModel

  /** The tenant step shared by both readings. */
  function WithAuthorizerTenant(base: Context, authorizer: map<string, ContextValue>): (ctx: Context)
    ensures "tenant_id" in authorizer && authorizer["tenant_id"].CString? && authorizer["tenant_id"].s != "" ==>
      LambdaCredentials.GetTenantID(ctx) == (authorizer["tenant_id"].s, true)
    ensures !("tenant_id" in authorizer && authorizer["tenant_id"].CString? && authorizer["tenant_id"].s != "") ==> ctx == base
    ensures LambdaCredentials.GetTokenExpiration(ctx) == LambdaCredentials.GetTokenExpiration(base)
  {
    if "tenant_id" in authorizer && authorizer["tenant_id"].CString? && authorizer["tenant_id"].s != "" then
      LambdaCredentials.TenantRoundTrip(base, authorizer["tenant_id"].s);
      LambdaCredentials.KeysIndependent(base, authorizer["tenant_id"].s, 0);
      LambdaCredentials.WithTenantID(base, authorizer["tenant_id"].s)
    else base
  }

  /**
   * As written: the expiry is taken only when it arrives as a number
   * (`.(float64)`), truncated to an integer.
   */
  function ContextFromAuthorizer(base: Context, authorizer: map<string, ContextValue>): (ctx: Context)
    ensures "token_expiration" in authorizer && authorizer["token_expiration"].CNumber? ==>
      LambdaCredentials.GetTokenExpiration(ctx) == (TruncateToInt(authorizer["token_expiration"].n), true)
    ensures !("token_expiration" in authorizer && authorizer["token_expiration"].CNumber?) ==>
      LambdaCredentials.GetTokenExpiration(ctx) == LambdaCredentials.GetTokenExpiration(base)
    ensures LambdaCredentials.GetTenantID(ctx) == LambdaCredentials.GetTenantID(WithAuthorizerTenant(base, authorizer))
  {
    var withTenant := WithAuthorizerTenant(base, authorizer);
    if "token_expiration" in authorizer && authorizer["token_expiration"].CNumber? then
      var e := TruncateToInt(authorizer["token_expiration"].n);
      LambdaCredentials.ExpirationRoundTrip(withTenant, e);
      LambdaCredentials.KeysIndependent(withTenant, "", e);
      LambdaCredentials.WithTokenExpiration(withTenant, e)
    else withTenant
  }

  /**
   * Corrected: the expiry is also accepted as the decimal string the
   * authorizer writes, read with a 64-bit decimal parse.
   */
  function ContextFromAuthorizerFixed(base: Context, authorizer: map<string, ContextValue>): (ctx: Context)
    ensures "token_expiration" in authorizer && authorizer["token_expiration"].CNumber? ==>
      LambdaCredentials.GetTokenExpiration(ctx) == (TruncateToInt(authorizer["token_expiration"].n), true)
    ensures "token_expiration" in authorizer && authorizer["token_expiration"].CString?
            && ParseInt(authorizer["token_expiration"].s).Some? ==>
      LambdaCredentials.GetTokenExpiration(ctx) == (ParseInt(authorizer["token_expiration"].s).value, true)
    ensures LambdaCredentials.GetTenantID(ctx) == LambdaCredentials.GetTenantID(WithAuthorizerTenant(base, authorizer))
  {
    var withTenant := WithAuthorizerTenant(base, authorizer);
    if "token_expiration" in authorizer && authorizer["token_expiration"].CNumber? then
      var e := TruncateToInt(authorizer["token_expiration"].n);
      LambdaCredentials.ExpirationRoundTrip(withTenant, e);
      LambdaCredentials.KeysIndependent(withTenant, "", e);
      LambdaCredentials.WithTokenExpiration(withTenant, e)
    else if "token_expiration" in authorizer && authorizer["token_expiration"].CString?
            && ParseInt(authorizer["token_expiration"].s).Some? then
      var e := ParseInt(authorizer["token_expiration"].s).value;
      LambdaCredentials.ExpirationRoundTrip(withTenant, e);
      LambdaCredentials.KeysIndependent(withTenant, "", e);
      LambdaCredentials.WithTokenExpiration(withTenant, e)
    else withTenant
  }

  /**
   * The defect: for every request the authorizer allows, the context the
   * upload Lambda builds as written has the tenant but no expiry, so presigned
   * URLs always get the two-hour default and the upload gate never fires,
   * however close the token is to expiring.
   */
  lemma AsWrittenDropsExpiry(headers: map<string, string>, methodArn: string,
                             parseJson: CognitoAuthorizer.JsonParser, oidc: CognitoAuthorizer.Oidc, clock: UploadModel.Clock)
    requires CognitoAuthorizer.AuthorizationHeader(headers).Some?
    requires CognitoAuthorizer.ValidateToken(
               CognitoAuthorizer.StripBearer(CognitoAuthorizer.AuthorizationHeader(headers).value), parseJson, oidc).Ok?
    ensures var resp := CognitoAuthorizer.Handler(headers, methodArn, parseJson, oidc);
      var ctx := ContextFromAuthorizer(Background, resp.context);
      && LambdaCredentials.GetTenantID(ctx) == (resp.principalId, true)
      && LambdaCredentials.GetTokenExpiration(ctx) == (0, false)
      && ApiUpload.CalculatePresignExpiration(ctx, clock) == ApiUpload.DefaultPresignedURLDuration
      && ApiUpload.TokenTooShort(ctx, clock).None?
  {
    var resp := CognitoAuthorizer.Handler(headers, methodArn, parseJson, oidc);
    assert resp.context["token_expiration"].CString?;
  }

  /**
   * With the corrected reading the expiry the authorizer verified reaches the
   * context unchanged (for expiries that fit in 64 bits), next to the tenant.
   */
  lemma CorrectedCarriesExpiry(headers: map<string, string>, methodArn: string,
                               parseJson: CognitoAuthorizer.JsonParser, oidc: CognitoAuthorizer.Oidc)
    requires CognitoAuthorizer.AuthorizationHeader(headers).Some?
    requires var info := CognitoAuthorizer.ValidateToken(
               CognitoAuthorizer.StripBearer(CognitoAuthorizer.AuthorizationHeader(headers).value), parseJson, oidc);
      info.Ok? && MinInt64 <= info.value.expiration <= MaxInt64
    ensures var info := CognitoAuthorizer.ValidateToken(
              CognitoAuthorizer.StripBearer(CognitoAuthorizer.AuthorizationHeader(headers).value), parseJson, oidc).value;
      var ctx := ContextFromAuthorizerFixed(Background, CognitoAuthorizer.Handler(headers, methodArn, parseJson, oidc).context);
      && LambdaCredentials.GetTenantID(ctx) == (info.tenantId, true)
      && LambdaCredentials.GetTokenExpiration(ctx) == (info.expiration, true)
  {
    var info := CognitoAuthorizer.ValidateToken(
      CognitoAuthorizer.StripBearer(CognitoAuthorizer.AuthorizationHeader(headers).value), parseJson, oidc).value;
    ParseIntOfIntToString(info.expiration);
  }
}
