/**
 * pkg/oauth/metadata.go: the IdP's authorization server metadata (section 2 of RFC 8414) as the
 * proxy loads, checks and completes it, and the protected resource metadata it publishes about
 * itself (section 2 of RFC 9728).
 */
module OAuthMetadata {
  import opened Wrappers
  import opened GoStrings
  import opened OAuthCommon

  /** OAuth21Metadata. An absent list is the empty sequence: the code only ever asks for its length. */
  datatype Metadata = Metadata(
    issuer: string,
    authorizationEndpoint: string,
    tokenEndpoint: string,
    jwksUri: string,
    scopesSupported: seq<string>,
    responseTypesSupported: seq<string>,
    grantTypesSupported: seq<string>,
    tokenEndpointAuthMethods: seq<string>,
    revocationEndpoint: string,
    introspectionEndpoint: string,
    registrationEndpoint: string,
    codeChallengeMethodsSupported: seq<string>)

  /**
   * The first of the four required fields that is empty, checked in the order issuer,
   * authorization endpoint, token endpoint, JWKS URI; None when all four are set.
   */
  function MissingRequired(m: Metadata): (r: Option<string>)
    ensures r.None? <==> m.issuer != "" && m.authorizationEndpoint != "" && m.tokenEndpoint != "" && m.jwksUri != ""
    ensures m.issuer == "" ==> r == Some("IdP metadata missing issuer")
    ensures m.issuer != "" && m.authorizationEndpoint == "" ==> r == Some("IdP metadata missing authorization_endpoint")
    ensures m.issuer != "" && m.authorizationEndpoint != "" && m.tokenEndpoint == ""
            ==> r == Some("IdP metadata missing token_endpoint")
    ensures m.issuer != "" && m.authorizationEndpoint != "" && m.tokenEndpoint != "" && m.jwksUri == ""
            ==> r == Some("IdP metadata missing jwks_uri")
  {
    if m.issuer == "" then Some("IdP metadata missing issuer")
    else if m.authorizationEndpoint == "" then Some("IdP metadata missing authorization_endpoint")
    else if m.tokenEndpoint == "" then Some("IdP metadata missing token_endpoint")
    else if m.jwksUri == "" then Some("IdP metadata missing jwks_uri")
    else None
  }

  /** The metadata is complete: what LoadMetadata guarantees about the metadata it caches. */
  predicate Complete(m: Metadata, mcpServerUrl: string)
  {
    && MissingRequired(m).None?
    && m.registrationEndpoint != ""
    && |m.codeChallengeMethodsSupported| > 0
    && "none" in m.tokenEndpointAuthMethods
    && |m.scopesSupported| > 0
  }

  /** The authentication methods with "none" (public clients) appended when it is missing. */
  function WithPublicClient(methods: seq<string>): (r: seq<string>)
    ensures "none" in r
    ensures "none" in methods ==> r == methods
    ensures "none" !in methods ==> r == methods + ["none"]
  {
    if "none" in methods then methods else methods + ["none"]
  }

  /**
   * The defaults LoadMetadata fills in: this server's /register endpoint, PKCE with S256, public
   * clients, and the scopes openid, email and profile, each only where the IdP left it empty.
   * Every other field, the required ones among them, is kept.
   */
  function WithDefaults(m: Metadata, mcpServerUrl: string): (r: Metadata)
    ensures r.issuer == m.issuer && r.authorizationEndpoint == m.authorizationEndpoint
    ensures r.tokenEndpoint == m.tokenEndpoint && r.jwksUri == m.jwksUri
    ensures r.responseTypesSupported == m.responseTypesSupported && r.grantTypesSupported == m.grantTypesSupported
    ensures r.revocationEndpoint == m.revocationEndpoint && r.introspectionEndpoint == m.introspectionEndpoint
    ensures r.registrationEndpoint == (if m.registrationEndpoint == "" then mcpServerUrl + "/register" else m.registrationEndpoint)
    ensures r.codeChallengeMethodsSupported
            == (if |m.codeChallengeMethodsSupported| == 0 then ["S256"] else m.codeChallengeMethodsSupported)
    ensures r.tokenEndpointAuthMethods == WithPublicClient(m.tokenEndpointAuthMethods)
    ensures r.scopesSupported == (if |m.scopesSupported| == 0 then ["openid", "email", "profile"] else m.scopesSupported)
    ensures MissingRequired(m).None? ==> Complete(r, mcpServerUrl)
  {
    m.(registrationEndpoint := if m.registrationEndpoint == "" then mcpServerUrl + "/register" else m.registrationEndpoint,
       codeChallengeMethodsSupported := if |m.codeChallengeMethodsSupported| == 0 then ["S256"] else m.codeChallengeMethodsSupported,
       tokenEndpointAuthMethods := WithPublicClient(m.tokenEndpointAuthMethods),
       scopesSupported := if |m.scopesSupported| == 0 then ["openid", "email", "profile"] else m.scopesSupported)
  }

  /** Completing complete metadata changes nothing, so completing twice is completing once. */
  lemma {:induction false} WithDefaultsIdempotent(m: Metadata, mcpServerUrl: string)
    ensures WithDefaults(WithDefaults(m, mcpServerUrl), mcpServerUrl) == WithDefaults(m, mcpServerUrl)
  {
    var once := WithDefaults(m, mcpServerUrl);
    assert "none" in once.tokenEndpointAuthMethods;
    assert WithDefaults(once, mcpServerUrl).tokenEndpointAuthMethods == once.tokenEndpointAuthMethods;
  }

  /**
   * fetchAuthorizationServerMetadata: the discovery document, from the answer to a GET of the
   * configured metadata endpoint (Err when the request could not be made or sent). Anything but
   * 200 is refused before the body is decoded.
   */
  function FetchAuthorizationServerMetadata(answer: Result<HttpAnswer<Metadata>>): (r: Result<Metadata>)
    ensures r.Ok? <==> answer.Ok? && answer.value.status == 200 && answer.value.decoded.Ok?
    ensures r.Ok? ==> r.value == answer.value.decoded.value
    ensures answer.Ok? && answer.value.status != 200 ==> r == Err("discovery failed with status: " + Decimal(answer.value.status))
  {
    match answer
    case Err(e) => Err("failed to fetch discovery: " + e)
    case Ok(HttpAnswer(status, decoded)) =>
      if status != 200 then Err("discovery failed with status: " + Decimal(status))
      else match decoded
        case Err(e) => Err("failed to decode metadata: " + e)
        case Ok(metadata) => Ok(metadata)
  }

  /**
   * The outcome of LoadMetadata for the fetched metadata: a fetch error, a missing required
   * field, or the metadata with its defaults.
   */
  function LoadedMetadata(fetched: Result<Metadata>, mcpServerUrl: string): (r: Result<Metadata>)
    ensures r.Ok? <==> fetched.Ok? && MissingRequired(fetched.value).None?
    ensures r.Ok? ==> r.value == WithDefaults(fetched.value, mcpServerUrl) && Complete(r.value, mcpServerUrl)
    ensures fetched.Ok? && MissingRequired(fetched.value).Some? ==> r == Err(MissingRequired(fetched.value).value)
  {
    match fetched
    case Err(e) => Err("failed to fetch authorization server metadata: " + e)
    case Ok(metadata) =>
      match MissingRequired(metadata)
      case Some(e) => Err(e)
      case None => Ok(WithDefaults(metadata, mcpServerUrl))
  }

  /** ProtectedResourceMetadata (section 2 of RFC 9728). */
  datatype ProtectedResourceMetadata = ProtectedResourceMetadata(
    resource: string,
    authorizationServers: seq<string>,
    scopesProvided: seq<string>,
    scopesRequired: seq<string>)

  /**
   * GenerateProtectedResourceMetadata: this server is the resource and, as the proxy in front of
   * the IdP, its own authorization server; it provides and requires the scope openid.
   */
  function GenerateProtectedResourceMetadata(config: Config): (r: ProtectedResourceMetadata)
    ensures r.resource == config.mcpServerUrl && r.authorizationServers == [config.mcpServerUrl]
    ensures r.scopesProvided == ["openid"] && r.scopesRequired == ["openid"]
  {
    ProtectedResourceMetadata(config.mcpServerUrl, [config.mcpServerUrl], ["openid"], ["openid"])
  }

  /** handleProtectedResourceMetadata: 200 with the protected resource metadata. */
  function ProtectedResourceMetadataOutcome(config: Config): (r: Outcome<ProtectedResourceMetadata>)
    ensures r == Json(200, GenerateProtectedResourceMetadata(config))
  {
    Json(200, GenerateProtectedResourceMetadata(config))
  }

  /** handleAuthorizationServerMetadata: 500 while no metadata is loaded, otherwise 200 with the cached metadata. */
  function AuthorizationServerMetadataOutcome(cached: Option<Metadata>): (r: Outcome<Metadata>)
    ensures cached.None? ==> r == PlainError(500, "Server not properly initialized")
    ensures cached.Some? ==> r == Json(200, cached.value)
  {
    match cached
    case None => PlainError(500, "Server not properly initialized")
    case Some(m) => Json(200, m)
  }
}
