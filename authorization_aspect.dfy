/**
 * The authorization gate: take the bearer token from the `Authorization` header, ask the auth
 * service whether it grants the operation's roles, and store the user id it returns.
 */
module Authorization {
  import opened Wrappers
  import opened Http
  import opened Members
  import opened Operations
  import opened Helper

  /** The exact, case-sensitive scheme prefix of the credential (RFC 6750 section 2.1). */
  const BEARER_PREFIX := "Bearer "

  /** The headers of every call to the auth service. */
  const AUTH_REQUEST_HEADERS: map<string, string> := map["Content-Type" := "application/json"]

  /** The failure thrown when no bearer token is present; its message is the client's rendering of the status. */
  const MISSING_TOKEN: Exception := HttpClientError(UNAUTHORIZED, map[], "401 UNAUTHORIZED")

  /** The auth service, seen from the gate: one call in, a response body or an exception out. */
  type AuthService = Exchange<AuthValidationRequest> -> Result<AuthResponse, Exception>

  /** The token of an `Authorization` header, when the header is present and starts with the prefix. */
  function ExtractToken(authHeader: Option<string>): (token: Option<string>)
    ensures token.Some? <==> authHeader.Some? && BEARER_PREFIX <= authHeader.value
    ensures token.Some? ==> authHeader.value == BEARER_PREFIX + token.value
  {
    if authHeader.Some? && BEARER_PREFIX <= authHeader.value
    then Some(authHeader.value[|BEARER_PREFIX|..])
    else None
  }

  /** A header built from the prefix and any token yields exactly that token back, the empty one included. */
  lemma ExtractTokenRoundTrip(token: string)
    ensures ExtractToken(Some(BEARER_PREFIX + token)) == Some(token)
  {
    var header := BEARER_PREFIX + token;
    assert header[..|BEARER_PREFIX|] == BEARER_PREFIX;
    assert header[|BEARER_PREFIX|..] == token;
  }

  /** An absent header, or one whose scheme is not exactly "Bearer ", yields no token. */
  lemma ExtractTokenRejects(authHeader: Option<string>)
    requires authHeader.None? || !(BEARER_PREFIX <= authHeader.value)
    ensures ExtractToken(authHeader).None?
  {
  }

  /** The one call the gate makes for a token and an operation. */
  function AuthExchange(authServiceUrl: string, token: string, op: Operation): (call: Exchange<AuthValidationRequest>)
    ensures call.verb == POST && call.url == authServiceUrl && call.headers == AUTH_REQUEST_HEADERS
    ensures call.body == Some(AuthValidationRequest(token, RequiredRoles(op)))
  {
    Exchange(authServiceUrl, POST, AUTH_REQUEST_HEADERS, Some(AuthValidationRequest(token, RequiredRoles(op))))
  }

  /** The authorization aspect; `exchanges` records every call it has made to the auth service. */
  class AuthorizationAspect {
    const authServiceUrl: string
    var exchanges: seq<Exchange<AuthValidationRequest>>

    constructor (authServiceUrl: string)
      ensures this.authServiceUrl == authServiceUrl && exchanges == []
    {
      this.authServiceUrl := authServiceUrl;
      exchanges := [];
    }

    /**
     * Authorizes one call of `op`. Without a token it fails with 401 and calls nothing. With one it
     * calls the auth service once; an error is passed on unchanged and leaves the slot alone,
     * a success stores the returned user id in the slot.
     */
    method Authorize(op: Operation, authHeader: Option<string>, context: UserContext, authService: AuthService)
      returns (outcome: Outcome<Exception>)
      modifies this, context
      ensures ExtractToken(authHeader).None? ==>
        outcome == Fail(MISSING_TOKEN) && exchanges == old(exchanges) && context.userId == old(context.userId)
      ensures ExtractToken(authHeader).Some? ==>
        var call := AuthExchange(authServiceUrl, ExtractToken(authHeader).value, op);
        && exchanges == old(exchanges) + [call]
        && (authService(call).Err? ==> outcome == Fail(authService(call).error) && context.userId == old(context.userId))
        && (authService(call).Ok? ==> outcome == Pass && context.userId == authService(call).value.userId)
    {
      var token := ExtractToken(authHeader);
      if token.None? {
        return Fail(MISSING_TOKEN);
      }
      outcome := ValidateToken(token.value, op, context, authService);
    }

    /** Sends the token and the operation's roles to the auth service and stores the user id it returns. */
    method ValidateToken(token: string, op: Operation, context: UserContext, authService: AuthService)
      returns (outcome: Outcome<Exception>)
      modifies this, context
      ensures var call := AuthExchange(authServiceUrl, token, op);
        && exchanges == old(exchanges) + [call]
        && (authService(call).Err? ==> outcome == Fail(authService(call).error) && context.userId == old(context.userId))
        && (authService(call).Ok? ==> outcome == Pass && context.userId == authService(call).value.userId)
    {
      var call := AuthExchange(authServiceUrl, token, op);
      exchanges := exchanges + [call];
      var response := authService(call);
      if response.Err? {
        return Fail(response.error);
      }
      context.userId := response.value.userId;
      outcome := Pass;
    }
  }
}
