/**
 * The authorization flow across the endpoints of pkg/oauth. The session token that /authorize
 * sends the IdP as its state is what /oauth/callback reads back. The callback URL the IdP is told
 * about is the one the code exchange presents. A client that follows the flow honestly passes
 * every check of /token.
 */
module OAuthFlow {
  import opened Wrappers
  import opened GoValues
  import opened Jwt
  import opened OAuthCommon
  import opened OAuthSession
  import opened OAuthAuthorize
  import opened OAuthCallback
  import opened OAuthToken

  /**
   * The redirect URI this server names to the IdP in the authorization request (pkg/oauth/authorize.go)
   * is the one it presents when it exchanges the code (pkg/oauth/callback.go), as section 4.1.3
   * of RFC 6749 requires.
   */
  lemma CallbackUrlAgrees(config: Config, internalState: string, code: string)
    ensures GetValue(IdpAuthorizeQuery(config, internalState), "redirect_uri")
            == GetValue(ExchangeForm(config, code), "redirect_uri")
            == config.mcpServerUrl + "/oauth/callback"
  {
  }

  /** The query the IdP sends back to the callback after a successful sign-in. */
  function IdpCallbackQuery(code: string, state: string): (q: Values)
    ensures GetValue(q, "code") == code && GetValue(q, "state") == state
    ensures GetValue(q, "error") == "" && GetValue(q, "error_description") == ""
  {
    SetValue(SetValue(map[], "code", code), "state", state)
  }

  /**
   * Authorize, then callback: when /authorize redirected at `t0` and the IdP comes back before
   * the session expires with a code and the state it was given, the callback recovers the
   * client's request. It then redirects to the client's redirect URI with the client's state,
   * unless the internal code cannot be generated or that URI does not parse.
   */
  lemma {:induction false} AuthorizeThenCallback(query: Values, isUrl: string -> bool, sm: JWTSessionManager, lib: Library,
                                                 t0: int, config: Config, authorizationEndpoint: string,
                                                 urlParses: string -> bool, idpCode: string, t1: int,
                                                 codec: AuthCodeCodec)
    requires AuthorizeOutcome(query, isUrl, sm, lib, t0, config, authorizationEndpoint, urlParses).Redirect?
    requires SignsVerifiably(lib, HS256, SessionClaims(SessionOf(ParseAuthorizeRequest(query, isUrl).value, t0), t0), sm.signingKey)
    requires t1 < t0 + SessionLifetime
    requires idpCode != ""
    ensures var req := ParseAuthorizeRequest(query, isUrl).value;
      var sent := GetValue(AuthorizeOutcome(query, isUrl, sm, lib, t0, config, authorizationEndpoint, urlParses).location.query, "state");
      var session := SessionData(req.state, req.codeChallenge, req.redirectUri, req.clientId, t1, idpCode);
      var back := CallbackOutcome(IdpCallbackQuery(idpCode, sent), sm, lib, t1, codec, urlParses);
      && Get(sm, lib, sent, t1) == Some(session.(idpCode := ""))
      && (back.Redirect? <==> codec.generate(session).Ok? && urlParses(req.redirectUri))
      && (back.Redirect? ==>
            && back.location.base == req.redirectUri
            && GetValue(back.location.query, "state") == req.state
            && GetValue(back.location.query, "code") == codec.generate(session).value)
  {
    var req := ParseAuthorizeRequest(query, isUrl).value;
    var d := SessionOf(req, t0);
    var sent := Store(sm, lib, d, t0).value;
    assert GetValue(AuthorizeOutcome(query, isUrl, sm, lib, t0, config, authorizationEndpoint, urlParses).location.query, "state") == sent;
    StoreThenGet(sm, lib, d, t0, t1);
    var cb := IdpCallbackQuery(idpCode, sent);
    assert ParseCallbackRequest(cb).Ok?;
  }

  /** The form of the token request a client sends. */
  function ClientTokenForm(code: string, redirectUri: string, clientId: string, codeVerifier: string, state: string): (f: Values)
    ensures GetValue(f, "grant_type") == "authorization_code" && GetValue(f, "code") == code
    ensures GetValue(f, "redirect_uri") == redirectUri && GetValue(f, "client_id") == clientId
    ensures GetValue(f, "code_verifier") == codeVerifier && GetValue(f, "state") == state
  {
    var f := SetValue(map[], "grant_type", "authorization_code");
    var f := SetValue(f, "code", code);
    var f := SetValue(f, "redirect_uri", redirectUri);
    var f := SetValue(f, "client_id", clientId);
    var f := SetValue(f, "code_verifier", codeVerifier);
    SetValue(f, "state", state)
  }

  /**
   * The token request of a client that follows the flow passes every check of /token. It
   * presents the code it was given, its own redirect URI, client id and state, and the verifier
   * whose S256 challenge it sent to /authorize. The answer is then the IdP's token exactly when
   * the exchange of the IdP's code succeeds. This needs the code codec to round-trip and the code to be non-empty.
   */
  lemma {:induction false} HonestTokenRequestPasses(session: SessionData, codec: AuthCodeCodec, isUrl: string -> bool,
                                                    sha256: seq<Byte> -> Digest, codeVerifier: string, clientId: string,
                                                    config: Config, tokenEndpoint: string,
                                                    post: (string, Values) -> Result<map<string, Any>>)
    requires codec.generate(session).Ok? && codec.generate(session).value != "" && RoundTrips(codec, session)
    requires session.codeChallenge == GenerateCodeChallenge(sha256, codeVerifier)
    requires 43 <= |codeVerifier| <= 128
    requires session.redirectUri != "" && isUrl(session.redirectUri) && clientId != ""
    ensures var form := ClientTokenForm(codec.generate(session).value, session.redirectUri, clientId, codeVerifier, session.state);
      && ChecksPass("POST", Ok(form), isUrl, codec, sha256)
      && (TokenOutcome("POST", Ok(form), isUrl, codec, sha256, config, tokenEndpoint, post).Json?
          <==> ExchangeCodeForToken(config, tokenEndpoint, session.idpCode, post).Ok?)
  {
    var form := ClientTokenForm(codec.generate(session).value, session.redirectUri, clientId, codeVerifier, session.state);
    assert ParseTokenRequest(Ok(form), isUrl).Ok?;
    assert ParseTokenRequest(Ok(form), isUrl).value.code == codec.generate(session).value;
    assert codec.validate(codec.generate(session).value) == Ok(session);
  }

  /**
   * The whole flow. A client sends /authorize the S256 challenge of its verifier, and the IdP
   * answers the callback before the session expires. If the client then redeems the code it got,
   * its token request passes every check. The IdP code that is exchanged is the one the IdP gave
   * the callback.
   */
  lemma {:induction false} HonestFlowSucceeds(query: Values, isUrl: string -> bool, sm: JWTSessionManager, lib: Library,
                                              t0: int, config: Config, authorizationEndpoint: string,
                                              urlParses: string -> bool, idpCode: string, t1: int,
                                              codec: AuthCodeCodec, sha256: seq<Byte> -> Digest, codeVerifier: string)
    requires AuthorizeOutcome(query, isUrl, sm, lib, t0, config, authorizationEndpoint, urlParses).Redirect?
    requires SignsVerifiably(lib, HS256, SessionClaims(SessionOf(ParseAuthorizeRequest(query, isUrl).value, t0), t0), sm.signingKey)
    requires t1 < t0 + SessionLifetime && idpCode != ""
    requires GetValue(query, "code_challenge") == GenerateCodeChallenge(sha256, codeVerifier)
    requires 43 <= |codeVerifier| <= 128
    requires var sent := GetValue(AuthorizeOutcome(query, isUrl, sm, lib, t0, config, authorizationEndpoint, urlParses).location.query, "state");
      CallbackOutcome(IdpCallbackQuery(idpCode, sent), sm, lib, t1, codec, urlParses).Redirect?
    requires var req := ParseAuthorizeRequest(query, isUrl).value;
      var session := SessionData(req.state, req.codeChallenge, req.redirectUri, req.clientId, t1, idpCode);
      RoundTrips(codec, session) && (codec.generate(session).Ok? ==> codec.generate(session).value != "")
    ensures var req := ParseAuthorizeRequest(query, isUrl).value;
      var sent := GetValue(AuthorizeOutcome(query, isUrl, sm, lib, t0, config, authorizationEndpoint, urlParses).location.query, "state");
      var back := CallbackOutcome(IdpCallbackQuery(idpCode, sent), sm, lib, t1, codec, urlParses).location.query;
      var form := ClientTokenForm(GetValue(back, "code"), req.redirectUri, req.clientId, codeVerifier, GetValue(back, "state"));
      && ChecksPass("POST", Ok(form), isUrl, codec, sha256)
      && codec.validate(GetValue(back, "code")).value.idpCode == idpCode
  {
    var req := ParseAuthorizeRequest(query, isUrl).value;
    var session := SessionData(req.state, req.codeChallenge, req.redirectUri, req.clientId, t1, idpCode);
    AuthorizeThenCallback(query, isUrl, sm, lib, t0, config, authorizationEndpoint, urlParses, idpCode, t1, codec);
    HonestTokenRequestPasses(session, codec, isUrl, sha256, codeVerifier, req.clientId, config, "", (e, f) => Err(""));
  }
}
