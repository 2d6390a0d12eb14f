/**
 * pkg/oauth/authorize.go: the /authorize endpoint. It validates the client's authorization
 * request (section 4.1.1 of RFC 6749 with the PKCE parameters of RFC 7636), packs the flow state
 * into a session token and redirects the browser to the IdP. The IdP sees this server's own
 * client id and callback, and the session token as its state.
 */
module OAuthAuthorize {
  import opened Wrappers
  import opened Jwt
  import opened OAuthCommon
  import opened OAuthSession

  /** AuthorizeRequest: the query parameters of an authorization request. */
  datatype AuthorizeRequest = AuthorizeRequest(
    responseType: string,
    clientId: string,
    redirectUri: string,
    state: string,
    codeChallenge: string,
    codeChallengeMethod: string,
    scope: string)

  /**
   * The validation tags of AuthorizeRequest: response_type "code", method "S256", non-empty
   * client id, state and code challenge, and a redirect URI that is a URL; scope is optional.
   */
  predicate ValidAuthorizeRequest(req: AuthorizeRequest, isUrl: string -> bool)
  {
    && req.responseType == "code"
    && req.clientId != ""
    && req.redirectUri != "" && isUrl(req.redirectUri)
    && req.state != ""
    && req.codeChallenge != ""
    && req.codeChallengeMethod == "S256"
  }

  /** ParseAuthorizeRequest: read the seven parameters from the query, then validate them. */
  function ParseAuthorizeRequest(query: Values, isUrl: string -> bool): (r: Result<AuthorizeRequest>)
    ensures r.Ok? <==>
      && GetValue(query, "response_type") == "code"
      && GetValue(query, "client_id") != ""
      && GetValue(query, "redirect_uri") != "" && isUrl(GetValue(query, "redirect_uri"))
      && GetValue(query, "state") != ""
      && GetValue(query, "code_challenge") != ""
      && GetValue(query, "code_challenge_method") == "S256"
    ensures r.Ok? ==>
      && r.value.clientId == GetValue(query, "client_id") && r.value.redirectUri == GetValue(query, "redirect_uri")
      && r.value.state == GetValue(query, "state") && r.value.codeChallenge == GetValue(query, "code_challenge")
      && r.value.scope == GetValue(query, "scope")
  {
    var req := AuthorizeRequest(
      GetValue(query, "response_type"), GetValue(query, "client_id"), GetValue(query, "redirect_uri"), GetValue(query, "state"),
      GetValue(query, "code_challenge"), GetValue(query, "code_challenge_method"), GetValue(query, "scope"));
    if ValidAuthorizeRequest(req, isUrl) then Ok(req) else Err("validation failed")
  }

  /** The session an authorization request is remembered as; the client's scope is not kept. */
  function SessionOf(req: AuthorizeRequest, now: int): (d: SessionData)
    ensures d.state == req.state && d.codeChallenge == req.codeChallenge
    ensures d.redirectUri == req.redirectUri && d.clientId == req.clientId
  {
    SessionData(req.state, req.codeChallenge, req.redirectUri, req.clientId, now, "")
  }

  /** The query of the redirect to the IdP, built by successive `Set` calls. */
  function IdpAuthorizeQuery(config: Config, internalState: string): (q: Values)
    ensures q.Keys == {"response_type", "client_id", "redirect_uri", "state", "scope"}
    ensures GetValue(q, "response_type") == "code" && GetValue(q, "scope") == "openid"
    ensures GetValue(q, "client_id") == config.clientId
    ensures GetValue(q, "redirect_uri") == CallbackUrl(config)
    ensures GetValue(q, "state") == internalState
  {
    var params := SetValue(map[], "response_type", "code");
    var params := SetValue(params, "client_id", config.clientId);
    var params := SetValue(params, "redirect_uri", CallbackUrl(config));
    var params := SetValue(params, "state", internalState);
    SetValue(params, "scope", "openid")
  }

  /**
   * handleAuthorize: 400 for an invalid request, 500 when the session cannot be stored or the
   * IdP's authorization endpoint does not parse, otherwise a 302 to that endpoint.
   */
  function AuthorizeOutcome(query: Values, isUrl: string -> bool, sm: JWTSessionManager, lib: Library, now: int,
                            config: Config, authorizationEndpoint: string, urlParses: string -> bool): (r: Outcome<()>)
    ensures ParseAuthorizeRequest(query, isUrl).Err? <==> r.PlainError? && r.status == 400
    ensures ParseAuthorizeRequest(query, isUrl).Ok? && Store(sm, lib, SessionOf(ParseAuthorizeRequest(query, isUrl).value, now), now).Err?
            ==> r == PlainError(500, "Failed to create session")
    ensures r.Redirect? <==>
      && ParseAuthorizeRequest(query, isUrl).Ok?
      && Store(sm, lib, SessionOf(ParseAuthorizeRequest(query, isUrl).value, now), now).Ok?
      && urlParses(authorizationEndpoint)
    ensures r.Redirect? ==>
      && r.status == 302
      && r.location.base == authorizationEndpoint
      && r.location.query
         == IdpAuthorizeQuery(config, Store(sm, lib, SessionOf(ParseAuthorizeRequest(query, isUrl).value, now), now).value)
    ensures ParseAuthorizeRequest(query, isUrl).Ok?
            && Store(sm, lib, SessionOf(ParseAuthorizeRequest(query, isUrl).value, now), now).Ok?
            && !urlParses(authorizationEndpoint)
            ==> r == PlainError(500, "Invalid authorization endpoint")
    ensures !r.Redirect? ==> r.PlainError?
  {
    match ParseAuthorizeRequest(query, isUrl)
    case Err(e) => PlainError(400, e)
    case Ok(req) =>
      match Store(sm, lib, SessionOf(req, now), now)
      case Err(_) => PlainError(500, "Failed to create session")
      case Ok(jwtToken) =>
        if !urlParses(authorizationEndpoint) then PlainError(500, "Invalid authorization endpoint")
        else Redirect(302, Link(authorizationEndpoint, IdpAuthorizeQuery(config, jwtToken)))
  }
}
