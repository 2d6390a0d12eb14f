/**
 * pkg/oauth/callback.go: the /oauth/callback endpoint the IdP redirects to, and the exchange of
 * the IdP's authorization code for its access token. The callback recovers the flow state from
 * the session token it gets back as `state`, mints an internal authorization code that also
 * carries the IdP's code, and redirects the browser to the client (section 4.1.2 of RFC 6749).
 */
module OAuthCallback {
  import opened Wrappers
  import opened GoValues
  import opened Jwt
  import opened OAuthCommon
  import opened OAuthSession

  /** CallbackRequest: the query parameters the IdP sends back. */
  datatype CallbackRequest = CallbackRequest(code: string, state: string, error: string, errorDescription: string)

  /** ParseCallbackRequest: the four parameters; `code` is required whenever `error` is empty. */
  function ParseCallbackRequest(query: Values): (r: Result<CallbackRequest>)
    ensures r.Err? <==> GetValue(query, "error") == "" && GetValue(query, "code") == ""
    ensures r.Ok? ==> r.value == CallbackRequest(GetValue(query, "code"), GetValue(query, "state"),
                                                 GetValue(query, "error"), GetValue(query, "error_description"))
  {
    var req := CallbackRequest(GetValue(query, "code"), GetValue(query, "state"),
                               GetValue(query, "error"), GetValue(query, "error_description"));
    if req.error == "" && req.code == "" then Err("validation failed") else Ok(req)
  }

  /** The query of the redirect back to the client: the internal code, and the client's state when it has one. */
  function ClientRedirectQuery(internalAuthCode: string, state: string): (q: Values)
    ensures GetValue(q, "code") == internalAuthCode
    ensures "state" in q <==> state != ""
    ensures q.Keys <= {"code", "state"} && GetValue(q, "state") == state
  {
    var params := SetValue(map[], "code", internalAuthCode);
    if state != "" then SetValue(params, "state", state) else params
  }

  /**
   * handleOAuthCallback: 400 for an invalid request, for an error reported by the IdP (before
   * any session is looked up) and for a state that is no valid session token; 500 when the
   * internal code cannot be generated or the client's redirect URI does not parse; otherwise a
   * 302 to the client's redirect URI, whose query is replaced.
   */
  function CallbackOutcome(query: Values, sm: JWTSessionManager, lib: Library, now: int,
                           codec: AuthCodeCodec, urlParses: string -> bool): (r: Outcome<()>)
    ensures ParseCallbackRequest(query).Err? ==> r.PlainError? && r.status == 400
    ensures GetValue(query, "error") != "" ==>
              r == PlainError(400, "OAuth error: " + GetValue(query, "error") + " - " + GetValue(query, "error_description"))
    ensures ParseCallbackRequest(query).Ok? && GetValue(query, "error") == "" && Get(sm, lib, GetValue(query, "state"), now).None?
            ==> r == PlainError(400, "Invalid or expired session")
    ensures r.Redirect? <==>
      && ParseCallbackRequest(query).Ok? && GetValue(query, "error") == ""
      && Get(sm, lib, GetValue(query, "state"), now).Some?
      && codec.generate(Get(sm, lib, GetValue(query, "state"), now).value.(idpCode := GetValue(query, "code"))).Ok?
      && urlParses(Get(sm, lib, GetValue(query, "state"), now).value.redirectUri)
    ensures r.Redirect? ==>
      var session := Get(sm, lib, GetValue(query, "state"), now).value.(idpCode := GetValue(query, "code"));
      && r.status == 302
      && r.location == Link(session.redirectUri, ClientRedirectQuery(codec.generate(session).value, session.state))
    ensures ParseCallbackRequest(query).Ok? && GetValue(query, "error") == "" && Get(sm, lib, GetValue(query, "state"), now).Some?
            ==> var session := Get(sm, lib, GetValue(query, "state"), now).value.(idpCode := GetValue(query, "code"));
                && (codec.generate(session).Err? ==> r == PlainError(500, "Authorization code generation failed"))
                && (codec.generate(session).Ok? && !urlParses(session.redirectUri)
                    ==> r == PlainError(500, "Invalid client redirect URI"))
    ensures !r.Redirect? ==> r.PlainError?
  {
    match ParseCallbackRequest(query)
    case Err(e) => PlainError(400, e)
    case Ok(req) =>
      if req.error != "" then PlainError(400, "OAuth error: " + req.error + " - " + req.errorDescription)
      else match Get(sm, lib, req.state, now)
        case None => PlainError(400, "Invalid or expired session")
        case Some(sessionData) =>
          var session := sessionData.(idpCode := req.code);
          match codec.generate(session)
          case Err(_) => PlainError(500, "Authorization code generation failed")
          case Ok(internalAuthCode) =>
            if !urlParses(session.redirectUri) then PlainError(500, "Invalid client redirect URI")
            else Redirect(302, Link(session.redirectUri, ClientRedirectQuery(internalAuthCode, session.state)))
  }

  /**
   * The callback always echoes the client's state: a session token carries a non-empty state, so
   * every redirect to the client holds "state" with the stored value.
   */
  lemma CallbackEchoesState(query: Values, sm: JWTSessionManager, lib: Library, now: int,
                            codec: AuthCodeCodec, urlParses: string -> bool)
    requires CallbackOutcome(query, sm, lib, now, codec, urlParses).Redirect?
    ensures var q := CallbackOutcome(query, sm, lib, now, codec, urlParses).location.query;
      "state" in q && GetValue(q, "state") == Get(sm, lib, GetValue(query, "state"), now).value.state
  {
    var session := Get(sm, lib, GetValue(query, "state"), now).value;
    assert session.state != "";
  }

  /** The form posted to the IdP's token endpoint (section 4.1.3 of RFC 6749). */
  function ExchangeForm(config: Config, code: string): (f: Values)
    ensures f.Keys == {"grant_type", "client_id", "client_secret", "code", "redirect_uri"}
    ensures GetValue(f, "grant_type") == "authorization_code"
    ensures GetValue(f, "client_id") == config.clientId && GetValue(f, "client_secret") == config.clientSecret
    ensures GetValue(f, "code") == code
    ensures GetValue(f, "redirect_uri") == CallbackUrl(config)
  {
    var formData := SetValue(map[], "grant_type", "authorization_code");
    var formData := SetValue(formData, "client_id", config.clientId);
    var formData := SetValue(formData, "client_secret", config.clientSecret);
    var formData := SetValue(formData, "code", code);
    SetValue(formData, "redirect_uri", CallbackUrl(config))
  }

  /**
   * exchangeCodeForToken: post the form to the token endpoint (`post` stands for the HTTP call
   * and the decoding of its JSON answer) and take the answer's "access_token", which must be a
   * string.
   */
  function ExchangeCodeForToken(config: Config, tokenEndpoint: string, code: string,
                                post: (string, Values) -> Result<map<string, Any>>): (r: Result<string>)
    ensures r.Ok? <==>
      && post(tokenEndpoint, ExchangeForm(config, code)).Ok?
      && "access_token" in post(tokenEndpoint, ExchangeForm(config, code)).value
      && post(tokenEndpoint, ExchangeForm(config, code)).value["access_token"].Str?
    ensures r.Ok? ==> r.value == post(tokenEndpoint, ExchangeForm(config, code)).value["access_token"].s
  {
    match post(tokenEndpoint, ExchangeForm(config, code))
    case Err(e) => Err("token exchange failed: " + e)
    case Ok(body) =>
      if "access_token" in body && body["access_token"].Str? then Ok(body["access_token"].s)
      else Err("invalid access_token in response")
  }
}
