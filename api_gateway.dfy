/**
 * The API Gateway custom-authorizer response (`events.APIGatewayCustomAuthorizerResponse`)
 * and a reading of its policy as IAM evaluates it.
 */
module ApiGateway {

  datatype Statement = Statement(action: seq<string>, effect: string, resource: seq<string>)

  datatype PolicyDocument = PolicyDocument(version: string, statement: seq<Statement>)

  /** The JSON values an authorizer may put in its context map. */
  datatype ContextValue = CString(s: string) | CNumber(n: real) | CBool(b: bool)

  /** A nil context map is the empty map. */
  datatype AuthorizerResponse = AuthorizerResponse(
    principalId: string,
    policyDocument: PolicyDocument,
    context: map<string, ContextValue>)

  /** The zero value `events.APIGatewayCustomAuthorizerResponse{}`. */
  const ZeroResponse: AuthorizerResponse := AuthorizerResponse("", PolicyDocument("", []), map[])

  const PolicyVersion: string := "2012-10-17"
  const InvokeAction: string := "execute-api:Invoke"

  predicate Matches(s: Statement, effect: string, action: string, resource: string) {
    s.effect == effect && action in s.action && resource in s.resource
  }

  /**
   * Whether the policy lets `action` on `resource` through: some Allow statement
   * names both and no Deny statement does (exact names; wildcards are not modelled).
   */
  predicate Allows(p: PolicyDocument, action: string, resource: string) {
    && (exists i :: 0 <= i < |p.statement| && Matches(p.statement[i], "Allow", action, resource))
    && !(exists i :: 0 <= i < |p.statement| && Matches(p.statement[i], "Deny", action, resource))
  }
}
