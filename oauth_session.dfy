/**
 * pkg/oauth/session.go: the stateless session store. The flow state of an authorization request
 * travels as an HS256-signed JWT that lives ten minutes; reading it back checks the algorithm,
 * the signature, the expiry and three required claims.
 */
module OAuthSession {
  import opened Wrappers
  import opened GoValues
  import opened Jwt

  /** SessionData: what the proxy remembers between /authorize, /oauth/callback and /token. */
  datatype SessionData = SessionData(
    state: string,
    codeChallenge: string,
    redirectUri: string,
    clientId: string,
    createdAt: int,
    idpCode: string)

  /** JWTSessionManager: the HMAC secret sessions are signed with. */
  datatype JWTSessionManager = JWTSessionManager(signingKey: seq<Byte>)

  /** The lifetime of a session token: ten minutes, in seconds. */
  const SessionLifetime: int := 600

  /** The claims a session is stored as, issued at `now`. */
  function SessionClaims(d: SessionData, now: int): (c: map<string, Any>)
    ensures c.Keys == {"state", "code_challenge", "redirect_uri", "client_id", "iat", "exp"}
    ensures c["iat"] == Int(now) && c["exp"] == Int(now + SessionLifetime)
  {
    map[
      "state" := Str(d.state),
      "code_challenge" := Str(d.codeChallenge),
      "redirect_uri" := Str(d.redirectUri),
      "client_id" := Str(d.clientId),
      "iat" := Int(now),
      "exp" := Int(now + SessionLifetime)]
  }

  /**
   * Store: the session as an HS256 token whose "exp" is ten minutes after its "iat". CreatedAt
   * and IDPCode are not stored.
   */
  function Store(sm: JWTSessionManager, lib: Library, d: SessionData, now: int): (r: Result<string>)
    ensures r.Ok? <==> lib.sign(HS256, SessionClaims(d, now), sm.signingKey).Some?
    ensures r.Ok? ==> r.value == lib.sign(HS256, SessionClaims(d, now), sm.signingKey).value
  {
    match lib.sign(HS256, SessionClaims(d, now), sm.signingKey)
    case None => Err("failed to sign JWT")
    case Some(token) => Ok(token)
  }

  /** The key function of Get: the signing secret, but only for an HMAC token. */
  function SessionKey(sm: JWTSessionManager, t: Token): (r: Result<Key>)
    ensures r.Ok? <==> IsHmac(t.alg)
    ensures r.Ok? ==> r.value == HmacKey(sm.signingKey)
  {
    if IsHmac(t.alg) then Ok(HmacKey(sm.signingKey)) else Err("unexpected signing method")
  }

  /** `claims[name].(string)` with the ok flag ignored: "" unless the claim is a string. */
  function StringClaim(claims: map<string, Any>, name: string): string
  {
    if name in claims && claims[name].Str? then claims[name].s else ""
  }

  /**
   * Get: the session a token carries, at time `now`. The token must parse, be HMAC-signed with
   * the secret, be unexpired, and carry non-empty "state", "code_challenge" and "redirect_uri";
   * "client_id" may be empty or missing. CreatedAt is the time of retrieval.
   */
  function Get(sm: JWTSessionManager, lib: Library, token: string, now: int): (r: Option<SessionData>)
    ensures lib.parseUnverified(token).Some? && !IsHmac(lib.parseUnverified(token).value.alg) ==> r.None?
    ensures r.Some? <==>
      && Parse(lib, token, t => SessionKey(sm, t), MapClaims, now).Ok?
      && StringClaim(lib.parseUnverified(token).value.claims, "state") != ""
      && StringClaim(lib.parseUnverified(token).value.claims, "code_challenge") != ""
      && StringClaim(lib.parseUnverified(token).value.claims, "redirect_uri") != ""
    ensures r.Some? ==>
      var claims := lib.parseUnverified(token).value.claims;
      r.value == SessionData(StringClaim(claims, "state"), StringClaim(claims, "code_challenge"),
                             StringClaim(claims, "redirect_uri"), StringClaim(claims, "client_id"), now, "")
  {
    match Parse(lib, token, t => SessionKey(sm, t), MapClaims, now)
    case Err(_) => None
    case Ok(t) =>
      var state := StringClaim(t.claims, "state");
      var codeChallenge := StringClaim(t.claims, "code_challenge");
      var redirectUri := StringClaim(t.claims, "redirect_uri");
      var clientId := StringClaim(t.claims, "client_id");
      if state == "" || codeChallenge == "" || redirectUri == "" then None
      else Some(SessionData(state, codeChallenge, redirectUri, clientId, now, ""))
  }

  /** The claims a stored session decodes to, given that the library's signing and parsing agree. */
  lemma StoredClaims(sm: JWTSessionManager, lib: Library, d: SessionData, t0: int)
    requires SignsVerifiably(lib, HS256, SessionClaims(d, t0), sm.signingKey)
    requires Store(sm, lib, d, t0).Ok?
    ensures var token := Store(sm, lib, d, t0).value;
      && lib.parseUnverified(token).Some?
      && lib.parseUnverified(token).value.alg == HS256
      && lib.verifies(token, HmacKey(sm.signingKey))
      && var claims := lib.parseUnverified(token).value.claims;
      && StringClaim(claims, "state") == d.state
      && StringClaim(claims, "code_challenge") == d.codeChallenge
      && StringClaim(claims, "redirect_uri") == d.redirectUri
      && StringClaim(claims, "client_id") == d.clientId
      && claims["exp"] == Float64((t0 + SessionLifetime) as real)
      && "nbf" !in claims
  {
    var claims := lib.parseUnverified(Store(sm, lib, d, t0).value).value.claims;
    assert claims == JsonClaims(SessionClaims(d, t0));
    assert claims["state"] == JsonValue(Str(d.state)) == Str(d.state);
    assert claims["code_challenge"] == Str(d.codeChallenge);
    assert claims["redirect_uri"] == Str(d.redirectUri);
    assert claims["client_id"] == Str(d.clientId);
    assert claims["exp"] == JsonValue(Int(t0 + SessionLifetime));
  }

  /**
   * Round trip: a session with non-empty state, code challenge and redirect URI, stored at `t0`
   * and read back before it expires, comes back with the same four fields.
   */
  lemma StoreThenGet(sm: JWTSessionManager, lib: Library, d: SessionData, t0: int, t1: int)
    requires SignsVerifiably(lib, HS256, SessionClaims(d, t0), sm.signingKey)
    requires Store(sm, lib, d, t0).Ok?
    requires d.state != "" && d.codeChallenge != "" && d.redirectUri != ""
    requires t1 < t0 + SessionLifetime
    ensures Get(sm, lib, Store(sm, lib, d, t0).value, t1)
            == Some(SessionData(d.state, d.codeChallenge, d.redirectUri, d.clientId, t1, ""))
  {
    StoredClaims(sm, lib, d, t0);
    var token := Store(sm, lib, d, t0).value;
    var claims := lib.parseUnverified(token).value.claims;
    assert ValidateClaims(claims, MapClaims, t1).None?;
    assert Parse(lib, token, t => SessionKey(sm, t), MapClaims, t1).Ok?;
  }

  /**
   * A session stored after the epoch can no longer be read ten minutes after it was stored.
   * (An "exp" of exactly 0 would count as absent.)
   */
  lemma StoredSessionExpires(sm: JWTSessionManager, lib: Library, d: SessionData, t0: int, t1: int)
    requires SignsVerifiably(lib, HS256, SessionClaims(d, t0), sm.signingKey)
    requires Store(sm, lib, d, t0).Ok?
    requires 0 <= t0 && t0 + SessionLifetime <= t1
    ensures Get(sm, lib, Store(sm, lib, d, t0).value, t1).None?
  {
    StoredClaims(sm, lib, d, t0);
    var token := Store(sm, lib, d, t0).value;
    var claims := lib.parseUnverified(token).value.claims;
    assert TimeClaim(claims, "exp", MapClaims) == Ok(Some((t0 + SessionLifetime) as real));
  }

  /** A session stored with an empty state can never be read back, at any time. */
  lemma EmptyStateNeverRetrieved(sm: JWTSessionManager, lib: Library, d: SessionData, t0: int, t1: int)
    requires SignsVerifiably(lib, HS256, SessionClaims(d, t0), sm.signingKey)
    requires Store(sm, lib, d, t0).Ok?
    requires d.state == ""
    ensures Get(sm, lib, Store(sm, lib, d, t0).value, t1).None?
  {
    StoredClaims(sm, lib, d, t0);
  }

  /**
   * JWTSessionManager.GenerateAuthCode and ValidateAuthCode: the internal authorization code
   * issued to clients. Their definitions are not part of this model; they are a pair of
   * functions whose only stated property is `RoundTrips`.
   */
  datatype AuthCodeCodec = AuthCodeCodec(
    generate: SessionData -> Result<string>,
    validate: string -> Result<SessionData>)

  /** A generated code validates to the session it was generated from. */
  predicate RoundTrips(codec: AuthCodeCodec, d: SessionData)
  {
    codec.generate(d).Ok? ==> codec.validate(codec.generate(d).value) == Ok(d)
  }
}
