/**
 * pkg/oauth/server.go: the OAuth resource server. It holds the configuration, the JWT validator,
 * the wrapped MCP endpoint, and the IdP metadata and session manager that initialization loads.
 * The handlers Go defines on this type in the other files of pkg/oauth are methods here as well.
 * Each one writes the outcome its function in those files states.
 */
module OAuthServer {
  import opened Wrappers
  import opened GoValues
  import opened Risken
  import opened Http
  import opened JsonRpc
  import opened HttpResponse
  import opened Jwt
  import opened OAuthCommon
  import opened OAuthSession
  import opened OAuthAuthorize
  import opened OAuthCallback
  import opened OAuthToken
  import opened OAuthRegister
  import opened OAuthMetadata
  import opened OAuthJwtValidator
  import OAuthMcp

  class Server {
    const config: Config
    const riskenUrl: string
    const mcpEndpointPath: string
    const jwtValidator: JWTValidator
    const mcp: McpEndpoint
    /** The IdP's metadata, cached by LoadMetadata. */
    var oauth21Metadata: Option<Metadata>
    /** The session store, created by Initialize in pkg/oauth/initialize.go. */
    var sessionManager: Option<JWTSessionManager>

    predicate Valid()
      reads this, jwtValidator
    {
      jwtValidator.Valid()
    }

    /**
     * What a successful initialization leaves behind: complete metadata, shared with the
     * validator, and a loaded key set.
     */
    predicate Ready()
      reads this, jwtValidator
    {
      && oauth21Metadata.Some?
      && Complete(oauth21Metadata.value, config.mcpServerUrl)
      && jwtValidator.metadata == oauth21Metadata
      && jwtValidator.keySet.Some?
    }

    /** NewServer: a validator for this server's URL; nothing is loaded yet. */
    constructor (mcp: McpEndpoint, config: Config, riskenUrl: string, mcpEndpointPath: string)
      ensures this.mcp == mcp && this.config == config && this.riskenUrl == riskenUrl
      ensures this.mcpEndpointPath == mcpEndpointPath
      ensures fresh(jwtValidator) && jwtValidator.mcpServerUrl == config.mcpServerUrl
      ensures jwtValidator.metadata == None && jwtValidator.keySet == None
      ensures oauth21Metadata == None && sessionManager == None
      ensures Valid()
    {
      this.mcp := mcp;
      this.config := config;
      this.riskenUrl := riskenUrl;
      this.mcpEndpointPath := mcpEndpointPath;
      jwtValidator := new JWTValidator(config.mcpServerUrl);
      oauth21Metadata := None;
      sessionManager := None;
    }

    /**
     * LoadMetadata: fetch the IdP's metadata (`get` stands for the HTTP request), check the
     * required fields in order, fill in the defaults field by field, and cache the result. The
     * cache changes only on success.
     */
    method LoadMetadata(get: string -> Result<HttpAnswer<Metadata>>) returns (err: Option<string>)
      modifies this
      ensures var loaded := LoadedMetadata(FetchAuthorizationServerMetadata(get(config.authzMetadataEndpoint)), config.mcpServerUrl);
        && (err.None? <==> loaded.Ok?)
        && (loaded.Ok? ==> oauth21Metadata == Some(loaded.value))
        && (loaded.Err? ==> oauth21Metadata == old(oauth21Metadata) && err == Some(loaded.error))
      ensures sessionManager == old(sessionManager)
    {
      var fetched := FetchAuthorizationServerMetadata(get(config.authzMetadataEndpoint));
      if fetched.Err? {
        return Some("failed to fetch authorization server metadata: " + fetched.error);
      }
      var metadata := fetched.value;
      if metadata.issuer == "" {
        return Some("IdP metadata missing issuer");
      }
      if metadata.authorizationEndpoint == "" {
        return Some("IdP metadata missing authorization_endpoint");
      }
      if metadata.tokenEndpoint == "" {
        return Some("IdP metadata missing token_endpoint");
      }
      if metadata.jwksUri == "" {
        return Some("IdP metadata missing jwks_uri");
      }
      if metadata.registrationEndpoint == "" {
        metadata := metadata.(registrationEndpoint := config.mcpServerUrl + "/register");
      }
      if |metadata.codeChallengeMethodsSupported| == 0 {
        metadata := metadata.(codeChallengeMethodsSupported := ["S256"]);
      }
      if "none" !in metadata.tokenEndpointAuthMethods {
        metadata := metadata.(tokenEndpointAuthMethods := metadata.tokenEndpointAuthMethods + ["none"]);
      }
      if |metadata.scopesSupported| == 0 {
        metadata := metadata.(scopesSupported := ["openid", "email", "profile"]);
      }
      oauth21Metadata := Some(metadata);
      return None;
    }

    /**
     * The effect of loading metadata and then the key set. A metadata failure leaves everything
     * as it was and skips the key set. Otherwise the metadata is cached and handed to the
     * validator. The key set is fetched from that metadata's JWKS URI, and replaced only when the
     * fetch succeeds. Success means both loads succeeded.
     */
    twostate predicate LoadedInOrder(getMetadata: string -> Result<HttpAnswer<Metadata>>,
                                     getJwks: string -> Result<HttpAnswer<seq<Jwk>>>, new err: Option<string>)
      reads this, jwtValidator
    {
      var loaded := LoadedMetadata(FetchAuthorizationServerMetadata(getMetadata(config.authzMetadataEndpoint)), config.mcpServerUrl);
      if loaded.Err? then
        && err == Some("failed to load metadata: " + loaded.error)
        && oauth21Metadata == old(oauth21Metadata)
        && jwtValidator.metadata == old(jwtValidator.metadata)
        && jwtValidator.keySet == old(jwtValidator.keySet)
      else
        var keys := FetchJwks(getJwks(loaded.value.jwksUri));
        && oauth21Metadata == Some(loaded.value)
        && jwtValidator.metadata == Some(loaded.value)
        && (keys.Ok? ==> err.None? && jwtValidator.keySet == Some(keys.value))
        && (keys.Err? ==> err == Some("failed to load JWKS: " + keys.error) && jwtValidator.keySet == old(jwtValidator.keySet))
    }

    /** Metadata, then the key set with that metadata; the step shared by both Initialize variants. */
    method LoadMetadataThenJwks(getMetadata: string -> Result<HttpAnswer<Metadata>>,
                                getJwks: string -> Result<HttpAnswer<seq<Jwk>>>) returns (err: Option<string>)
      requires Valid()
      modifies this, jwtValidator
      ensures Valid() && LoadedInOrder(getMetadata, getJwks, err)
      ensures sessionManager == old(sessionManager)
      ensures err.None? ==> Ready()
    {
      var metadataErr := LoadMetadata(getMetadata);
      if metadataErr.Some? {
        return Some("failed to load metadata: " + metadataErr.value);
      }
      var jwksErr := jwtValidator.LoadJWKS(oauth21Metadata.value, getJwks);
      if jwksErr.Some? {
        return Some("failed to load JWKS: " + jwksErr.value);
      }
      return None;
    }

    /**
     * Initialize of pkg/oauth/server.go: the IdP client credentials must both be set, checked
     * before anything is fetched; then metadata, then the key set.
     */
    method Initialize(getMetadata: string -> Result<HttpAnswer<Metadata>>,
                      getJwks: string -> Result<HttpAnswer<seq<Jwk>>>) returns (err: Option<string>)
      requires Valid()
      modifies this, jwtValidator
      ensures Valid() && sessionManager == old(sessionManager)
      ensures config.clientId == "" || config.clientSecret == "" ==>
                && err == Some("client_id and client_secret are required")
                && oauth21Metadata == old(oauth21Metadata) && unchanged(jwtValidator)
      ensures config.clientId != "" && config.clientSecret != "" ==> LoadedInOrder(getMetadata, getJwks, err)
      ensures err.None? ==> Ready()
    {
      if config.clientId == "" || config.clientSecret == "" {
        return Some("client_id and client_secret are required");
      }
      err := LoadMetadataThenJwks(getMetadata, getJwks);
    }

    /**
     * ServeHTTP of pkg/oauth/server.go: the same guard sequence, with the same outcomes, as
     * Server.ServeHTTP of pkg/oauth/mcp.go.
     */
    method ServeHTTP(w: ResponseRecorder, r: Request, decode: seq<Byte> -> Option<Any>, lib: Library,
                     parseNow: int, checkNow: int, signin: Client -> Result<Option<SigninResponse>>)
      requires Valid()
      modifies w, r, mcp
      ensures Applied(w, mcp, OAuthMcp.Decision(old(r.body), old(r.header), config.mcpServerUrl, riskenUrl, decode,
                                                jwtValidator.State(), lib, parseNow, checkNow, signin),
                      old(r.ctx), old(r.body), old(r.header))
    {
      OAuthMcp.ServeHTTP(config.mcpServerUrl, riskenUrl, jwtValidator, mcp, w, r, decode, lib, parseNow, checkNow, signin);
    }

    /** handleAuthorize, with the request's query and the clock reading `now`. */
    method HandleAuthorize(w: Responder<()>, query: Values, isUrl: string -> bool, lib: Library, now: int,
                           urlParses: string -> bool)
      requires sessionManager.Some? && oauth21Metadata.Some?
      modifies w
      ensures w.sent == old(w.sent) + [AuthorizeOutcome(query, isUrl, sessionManager.value, lib, now, config,
                                                        oauth21Metadata.value.authorizationEndpoint, urlParses)]
    {
      var authReq := ParseAuthorizeRequest(query, isUrl);
      if authReq.Err? {
        w.Error(authReq.error, 400);
        return;
      }
      var req := authReq.value;
      var sessionData := SessionData(req.state, req.codeChallenge, req.redirectUri, req.clientId, now, "");
      var jwtToken := Store(sessionManager.value, lib, sessionData, now);
      if jwtToken.Err? {
        w.Error("Failed to create session", 500);
        return;
      }
      var internalState := jwtToken.value;
      var authzUrl := oauth21Metadata.value.authorizationEndpoint;
      if !urlParses(authzUrl) {
        w.Error("Invalid authorization endpoint", 500);
        return;
      }
      var params: Values := map[];
      params := SetValue(params, "response_type", "code");
      params := SetValue(params, "client_id", config.clientId);
      params := SetValue(params, "redirect_uri", config.mcpServerUrl + "/oauth/callback");
      params := SetValue(params, "state", internalState);
      params := SetValue(params, "scope", "openid");
      w.RedirectTo(Link(authzUrl, params), 302);
    }

    /** handleOAuthCallback, with the request's query and the clock reading `now`. */
    method HandleOAuthCallback(w: Responder<()>, query: Values, lib: Library, now: int, codec: AuthCodeCodec,
                               urlParses: string -> bool)
      requires sessionManager.Some?
      modifies w
      ensures w.sent == old(w.sent) + [CallbackOutcome(query, sessionManager.value, lib, now, codec, urlParses)]
    {
      var callbackReq := ParseCallbackRequest(query);
      if callbackReq.Err? {
        w.Error(callbackReq.error, 400);
        return;
      }
      var req := callbackReq.value;
      if req.error != "" {
        w.Error("OAuth error: " + req.error + " - " + req.errorDescription, 400);
        return;
      }
      var found := Get(sessionManager.value, lib, req.state, now);
      if found.None? {
        w.Error("Invalid or expired session", 400);
        return;
      }
      var sessionData := found.value;
      sessionData := sessionData.(idpCode := req.code);
      var internalAuthCode := codec.generate(sessionData);
      if internalAuthCode.Err? {
        w.Error("Authorization code generation failed", 500);
        return;
      }
      if !urlParses(sessionData.redirectUri) {
        w.Error("Invalid client redirect URI", 500);
        return;
      }
      var params: Values := map[];
      params := SetValue(params, "code", internalAuthCode.value);
      if sessionData.state != "" {
        params := SetValue(params, "state", sessionData.state);
      }
      w.RedirectTo(Link(sessionData.redirectUri, params), 302);
    }

    /**
     * handleToken, with the request's method and parsed form; `post` stands for the call to the
     * IdP. A request that parses meets the type assertion of the session manager, which fails
     * with 500 when none is set.
     */
    method HandleToken(w: Responder<TokenResponse>, verb: string, form: Result<Values>, isUrl: string -> bool,
                       codec: AuthCodeCodec, sha256: seq<Byte> -> Digest,
                       post: (string, Values) -> Result<map<string, Any>>)
      requires oauth21Metadata.Some?
      modifies w
      ensures sessionManager.None? && verb == "POST" && ParseTokenRequest(form, isUrl).Ok? ==>
                w.sent == old(w.sent) + [PlainError(500, "Internal server error")]
      ensures sessionManager.Some? || verb != "POST" || ParseTokenRequest(form, isUrl).Err? ==>
                w.sent == old(w.sent) + [TokenOutcome(verb, form, isUrl, codec, sha256, config,
                                                      oauth21Metadata.value.tokenEndpoint, post)]
    {
      ghost var outcome := TokenOutcome(verb, form, isUrl, codec, sha256, config, oauth21Metadata.value.tokenEndpoint, post);
      if verb != "POST" {
        w.Error("Method not allowed", 405);
        return;
      }
      var tokenReq := ParseTokenRequest(form, isUrl);
      if tokenReq.Err? {
        w.Error(tokenReq.error, 400);
        return;
      }
      if sessionManager.None? {
        w.Error("Internal server error", 500);
        return;
      }
      var req := tokenReq.value;
      var sessionData := codec.validate(req.code);
      if sessionData.Err? {
        assert outcome == PlainError(400, "Invalid authorization code");
        w.Error("Invalid authorization code", 400);
        return;
      }
      var session := sessionData.value;
      if !VerifyPKCE(sha256, session.codeChallenge, req.codeVerifier) {
        assert outcome == PlainError(400, "PKCE verification failed");
        w.Error("PKCE verification failed", 400);
        return;
      }
      if session.redirectUri != req.redirectUri {
        assert outcome == PlainError(400, "Redirect URI mismatch");
        w.Error("Redirect URI mismatch", 400);
        return;
      }
      if !VerifyState(session.state, req.state) {
        assert outcome == PlainError(400, "State verification failed");
        w.Error("State verification failed", 400);
        return;
      }
      var idpAccessToken := ExchangeCodeForToken(config, oauth21Metadata.value.tokenEndpoint, session.idpCode, post);
      if idpAccessToken.Err? {
        assert outcome == PlainError(500, "Token exchange failed");
        w.Error("Token exchange failed", 500);
        return;
      }
      assert outcome == Json(200, NewTokenResponse(idpAccessToken.value));
      w.WriteJSON(200, NewTokenResponse(idpAccessToken.value));
    }

    /** handleDynamicClientRegistration, with the request's method and decoded body. */
    method HandleRegister(w: Responder<RegistrationResponse>, verb: string, decoded: Result<RegistrationRequest>,
                          isUrl: string -> bool)
      modifies w
      ensures w.sent == old(w.sent) + [RegisterOutcome(verb, decoded, isUrl)]
    {
      if verb != "POST" {
        w.Error("Method not allowed", 405);
        return;
      }
      var regReq := ParseRegistrationRequest(decoded, isUrl);
      if regReq.Err? {
        w.Error(regReq.error, 400);
        return;
      }
      w.WriteJSON(201, RegisteredClient(regReq.value));
    }

    /** handleProtectedResourceMetadata */
    method HandleProtectedResourceMetadata(w: Responder<ProtectedResourceMetadata>)
      modifies w
      ensures w.sent == old(w.sent) + [ProtectedResourceMetadataOutcome(config)]
    {
      w.WriteJSON(200, GenerateProtectedResourceMetadata(config));
    }

    /** handleAuthorizationServerMetadata */
    method HandleAuthorizationServerMetadata(w: Responder<Metadata>)
      modifies w
      ensures w.sent == old(w.sent) + [AuthorizationServerMetadataOutcome(oauth21Metadata)]
    {
      if oauth21Metadata.None? {
        w.Error("Server not properly initialized", 500);
        return;
      }
      w.WriteJSON(200, oauth21Metadata.value);
    }
  }
}
