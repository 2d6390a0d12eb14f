/**
 * pkg/oauth/initialize.go: the initialization of the server for the third-party authorization
 * flow. The configuration is validated first. Then the session manager is created from the
 * configured signing key, the IdP metadata is loaded, and the key set is loaded with it.
 */
module OAuthInitialize {
  import opened Wrappers
  import opened GoStrings
  import opened OAuthCommon
  import opened OAuthSession
  import opened OAuthMetadata
  import opened OAuthJwtValidator
  import opened OAuthServer

  /**
   * Initialize of pkg/oauth/initialize.go. `validateConfig` stands for the struct validation of
   * the configuration. When it fails, nothing changes and nothing is fetched. Otherwise the
   * session manager signs with the bytes of the configured key, whatever the loads then do.
   */
  method Initialize(s: Server, validateConfig: Config -> Option<string>,
                    getMetadata: string -> Result<HttpAnswer<Metadata>>,
                    getJwks: string -> Result<HttpAnswer<seq<Jwk>>>) returns (err: Option<string>)
    requires s.Valid()
    modifies s, s.jwtValidator
    ensures s.Valid()
    ensures validateConfig(s.config).Some? ==>
              && err == Some("invalid configuration: " + validateConfig(s.config).value)
              && unchanged(s, s.jwtValidator)
    ensures validateConfig(s.config).None? ==>
              && s.sessionManager == Some(JWTSessionManager(Utf8(s.config.jwtSigningKey)))
              && s.LoadedInOrder(getMetadata, getJwks, err)
    ensures err.None? ==> s.Ready() && s.sessionManager.Some?
  {
    var invalid := validateConfig(s.config);
    if invalid.Some? {
      return Some("invalid configuration: " + invalid.value);
    }
    s.sessionManager := Some(JWTSessionManager(Utf8(s.config.jwtSigningKey)));
    err := s.LoadMetadataThenJwks(getMetadata, getJwks);
  }
}
