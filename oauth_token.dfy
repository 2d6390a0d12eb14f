/**
 * pkg/oauth/token.go: the /token endpoint. A client trades the internal authorization code for
 * the IdP's access token. The code is decoded, then checked in a fixed order: the PKCE S256
 * verifier (section 4.6 of RFC 7636), the exact redirect URI (section 4.1.3 of RFC 6749) and the
 * state. Only then is the IdP's own code exchanged.
 */
module OAuthToken {
  import opened Wrappers
  import opened GoValues
  import opened GoStrings
  import opened Base64Url
  import opened OAuthCommon
  import opened OAuthSession
  import opened OAuthCallback

  /** A SHA-256 digest: 32 bytes. */
  type Digest = d: seq<Byte> | |d| == 32 witness seq(32, _ => 0)

  /** TokenRequest: the form parameters of a token request. */
  datatype TokenRequest = TokenRequest(
    grantType: string,
    code: string,
    redirectUri: string,
    clientId: string,
    codeVerifier: string,
    state: string)

  /**
   * The validation tags of TokenRequest: grant type "authorization_code", non-empty code and
   * client id, a redirect URI that is a URL, and a verifier of 43 to 128 characters (section 4.1
   * of RFC 7636). The state is optional.
   */
  predicate ValidTokenRequest(req: TokenRequest, isUrl: string -> bool)
  {
    && req.grantType == "authorization_code"
    && req.code != ""
    && req.redirectUri != "" && isUrl(req.redirectUri)
    && req.clientId != ""
    && 43 <= |req.codeVerifier| <= 128
  }

  /** ParseTokenRequest: parse the form (which may fail), read the six parameters, validate them. */
  function ParseTokenRequest(form: Result<Values>, isUrl: string -> bool): (r: Result<TokenRequest>)
    ensures r.Ok? <==>
      && form.Ok?
      && GetValue(form.value, "grant_type") == "authorization_code"
      && GetValue(form.value, "code") != ""
      && GetValue(form.value, "redirect_uri") != "" && isUrl(GetValue(form.value, "redirect_uri"))
      && GetValue(form.value, "client_id") != ""
      && 43 <= |GetValue(form.value, "code_verifier")| <= 128
    ensures r.Ok? ==>
      r.value == TokenRequest(GetValue(form.value, "grant_type"), GetValue(form.value, "code"),
                              GetValue(form.value, "redirect_uri"), GetValue(form.value, "client_id"),
                              GetValue(form.value, "code_verifier"), GetValue(form.value, "state"))
  {
    match form
    case Err(e) => Err("failed to parse form data: " + e)
    case Ok(f) =>
      var req := TokenRequest(GetValue(f, "grant_type"), GetValue(f, "code"), GetValue(f, "redirect_uri"),
                              GetValue(f, "client_id"), GetValue(f, "code_verifier"), GetValue(f, "state"));
      if ValidTokenRequest(req, isUrl) then Ok(req) else Err("validation failed")
  }

  /** TokenResponse: the JSON answer of a successful token request. */
  datatype TokenResponse = TokenResponse(
    accessToken: string,
    tokenType: string,
    expiresIn: int,
    refreshToken: string,
    scope: string)

  /** NewTokenResponse: a Bearer token valid for an hour, scoped "openid profile email", with no refresh token. */
  function NewTokenResponse(accessToken: string): (r: TokenResponse)
    ensures r.accessToken == accessToken && r.tokenType == "Bearer" && r.expiresIn == 3600
    ensures r.refreshToken == "" && r.scope == "openid profile email"
  {
    TokenResponse(accessToken, "Bearer", 3600, "", "openid profile email")
  }

  /**
   * generateCodeChallenge: the S256 challenge of a verifier, the unpadded base64url encoding of
   * the SHA-256 digest of its bytes. It is always 43 characters of the URL-safe alphabet, and it
   * decodes back to the digest.
   */
  function GenerateCodeChallenge(sha256: seq<Byte> -> Digest, verifier: string): (c: string)
    ensures |c| == 43
    ensures forall i :: 0 <= i < |c| ==> IsAlphabetChar(c[i])
    ensures Decode(c) == Some(sha256(Utf8(verifier)))
  {
    DecodeEncode(sha256(Utf8(verifier)));
    Encode(sha256(Utf8(verifier)))
  }

  /**
   * VerifyPKCE: the challenge is exactly the S256 challenge of the verifier. Only the canonical
   * encoding is accepted: a challenge must be 43 characters that decode to the verifier's digest.
   */
  function VerifyPKCE(sha256: seq<Byte> -> Digest, codeChallenge: string, codeVerifier: string): (ok: bool)
    ensures ok <==> codeChallenge == Encode(sha256(Utf8(codeVerifier)))
    ensures ok ==> |codeChallenge| == 43 && Decode(codeChallenge) == Some(sha256(Utf8(codeVerifier)))
  {
    codeChallenge == GenerateCodeChallenge(sha256, codeVerifier)
  }

  /**
   * verifyState: a session without state accepts only a request without state, and a session
   * with state only the same state; together, the two states must be equal.
   */
  function VerifyState(sessionState: string, providedState: string): (ok: bool)
    ensures ok <==> sessionState == providedState
  {
    if sessionState == "" then providedState == ""
    else sessionState == providedState
  }

  /**
   * The checks of handleToken that precede the exchange with the IdP, in order: the method, the
   * form, the internal code, PKCE, the redirect URI and the state.
   */
  predicate ChecksPass(verb: string, form: Result<Values>, isUrl: string -> bool, codec: AuthCodeCodec,
                       sha256: seq<Byte> -> Digest)
  {
    && verb == "POST"
    && ParseTokenRequest(form, isUrl).Ok?
    && var req := ParseTokenRequest(form, isUrl).value;
    && codec.validate(req.code).Ok?
    && var session := codec.validate(req.code).value;
    && VerifyPKCE(sha256, session.codeChallenge, req.codeVerifier)
    && session.redirectUri == req.redirectUri
    && VerifyState(session.state, req.state)
  }

  /**
   * handleToken: 405 for a method other than POST, before the form is read; 400 for an invalid
   * form, an invalid code, a failed PKCE check, a different redirect URI or a different state,
   * checked in that order; 500 when the exchange fails; otherwise 200 with the IdP's access
   * token.
   */
  function TokenOutcome(verb: string, form: Result<Values>, isUrl: string -> bool, codec: AuthCodeCodec,
                        sha256: seq<Byte> -> Digest, config: Config, tokenEndpoint: string,
                        post: (string, Values) -> Result<map<string, Any>>): (r: Outcome<TokenResponse>)
    ensures verb != "POST" ==> r == PlainError(405, "Method not allowed")
    ensures verb == "POST" && ParseTokenRequest(form, isUrl).Err? ==> r == PlainError(400, ParseTokenRequest(form, isUrl).error)
    ensures verb == "POST" && ParseTokenRequest(form, isUrl).Ok? ==>
      var req := ParseTokenRequest(form, isUrl).value;
      codec.validate(req.code).Err? ==> r == PlainError(400, "Invalid authorization code")
    ensures verb == "POST" && ParseTokenRequest(form, isUrl).Ok? ==>
      var req := ParseTokenRequest(form, isUrl).value;
      codec.validate(req.code).Ok? ==>
      var session := codec.validate(req.code).value;
      if !VerifyPKCE(sha256, session.codeChallenge, req.codeVerifier) then r == PlainError(400, "PKCE verification failed")
      else if session.redirectUri != req.redirectUri then r == PlainError(400, "Redirect URI mismatch")
      else session.state != req.state ==> r == PlainError(400, "State verification failed")
    ensures ChecksPass(verb, form, isUrl, codec, sha256) ==>
      var session := codec.validate(ParseTokenRequest(form, isUrl).value.code).value;
      && (ExchangeCodeForToken(config, tokenEndpoint, session.idpCode, post).Err? ==> r == PlainError(500, "Token exchange failed"))
      && (ExchangeCodeForToken(config, tokenEndpoint, session.idpCode, post).Ok? ==>
            r == Json(200, NewTokenResponse(ExchangeCodeForToken(config, tokenEndpoint, session.idpCode, post).value)))
    ensures r.Json? <==> ChecksPass(verb, form, isUrl, codec, sha256)
                         && ExchangeCodeForToken(config, tokenEndpoint,
                              codec.validate(ParseTokenRequest(form, isUrl).value.code).value.idpCode, post).Ok?
  {
    if verb != "POST" then PlainError(405, "Method not allowed")
    else match ParseTokenRequest(form, isUrl)
      case Err(e) => PlainError(400, e)
      case Ok(tokenReq) =>
        match codec.validate(tokenReq.code)
        case Err(_) => PlainError(400, "Invalid authorization code")
        case Ok(sessionData) =>
          if !VerifyPKCE(sha256, sessionData.codeChallenge, tokenReq.codeVerifier) then PlainError(400, "PKCE verification failed")
          else if sessionData.redirectUri != tokenReq.redirectUri then PlainError(400, "Redirect URI mismatch")
          else if !VerifyState(sessionData.state, tokenReq.state) then PlainError(400, "State verification failed")
          else match ExchangeCodeForToken(config, tokenEndpoint, sessionData.idpCode, post)
            case Err(_) => PlainError(500, "Token exchange failed")
            case Ok(idpAccessToken) => Json(200, NewTokenResponse(idpAccessToken))
  }

  /**
   * The IdP is contacted only after every check has passed: when one fails, the answer is the
   * same whatever the token endpoint would say.
   */
  lemma ExchangeOnlyAfterChecks(verb: string, form: Result<Values>, isUrl: string -> bool, codec: AuthCodeCodec,
                                sha256: seq<Byte> -> Digest, config: Config, tokenEndpoint: string,
                                post1: (string, Values) -> Result<map<string, Any>>,
                                post2: (string, Values) -> Result<map<string, Any>>)
    requires !ChecksPass(verb, form, isUrl, codec, sha256)
    ensures TokenOutcome(verb, form, isUrl, codec, sha256, config, tokenEndpoint, post1)
            == TokenOutcome(verb, form, isUrl, codec, sha256, config, tokenEndpoint, post2)
    ensures TokenOutcome(verb, form, isUrl, codec, sha256, config, tokenEndpoint, post1).PlainError?
  {
  }
}
