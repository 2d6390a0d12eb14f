# RISKEN MCP server: authorization proxy and request guards

This project models the core of the RISKEN MCP server in Dafny. The server exposes the RISKEN
security platform (findings, alerts, projects) to MCP clients. Its core parts are these:

- **OAuth 2.1 authorization proxy** (`pkg/oauth`). It sits between MCP clients and a third-party
  identity provider (IdP). It loads and completes the IdP's authorization server metadata (RFC 8414)
  and loads the IdP's JSON Web Key Set. It publishes protected resource metadata (RFC 9728) and
  registers public clients (RFC 7591). It runs the authorization-code flow with PKCE (RFC 7636).
  - `/authorize` stores the client's request in a signed session JWT and sends that JWT to the IdP
    as the state.
  - `/oauth/callback` reads the session back and gives the client an internal code.
  - `/token` checks the PKCE verifier, the redirect URI and the state, then exchanges the IdP's
    code.
  - The MCP endpoint admits a request only with an IdP access token (RS256, issuer checked) and a
    RISKEN token that signs in. A missing or invalid token is answered with a `WWW-Authenticate`
    challenge (section 5.1 of RFC 9728).
- **Other MCP request guards** (`pkg/streamablehttp`, `pkg/stream`, `pkg/riskenmcp/http_auth.go`).
  Each reads the JSON-RPC request id and a RISKEN token, signs in, and hands the request on with
  the RISKEN client in its context. The guards differ in the order of their checks and in the
  header the token comes from.
- **Helpers and tool parameters** (`pkg/helper`, `pkg/riskenmcp`):
  - reading and restoring the body, the token and client-IP extractors;
  - the status-capturing writer of the access log;
  - typed MCP arguments;
  - the requests that search_finding, search_alert and archive_finding build.

## How it is modelled

- Code that is pure logic becomes functions over datatypes. Examples: parsing requests, the
  outcome of each OAuth handler, a guard's verdict, metadata completion and token validation.
- Code that changes state becomes classes with methods:
  - the OAuth `Server`, with its cached metadata and session manager;
  - the `JWTValidator`, with its metadata and key set;
  - the status-capturing response writer;
  - the response recorder each guard writes to;
  - the HTTP request whose body is read and restored.

  Each method is proved against the function that states its outcome. A handler's method ensures
  that its response is that function's outcome. A guard's `ServeHTTP` ensures `Applied`: the
  recorder and the wrapped MCP handler saw exactly what the verdict says.
- Outside code is a function-typed parameter. This covers the network, the clock, SHA-256, JSON
  decoding, URL parsing, the RISKEN sign-in, the JWT library's signing and signature check, and the
  internal authorization-code codec. Facts about such code are `requires` of the lemmas that use
  them. For example, signing and parsing agree (`Jwt.SignsVerifiably`) and the code codec
  round-trips (`OAuthSession.RoundTrips`).
- Go's `int` is 64-bit where it matters: the RSA exponent loop wraps (`Wrap64`). Float-to-integer
  conversions truncate toward zero (`GoValues.TruncateToInt`).
- Three pairs of files in the repository define the same method:
  - `pkg/oauth/server.go` and `pkg/oauth/mcp.go` both define `Server.ServeHTTP`;
  - `pkg/oauth/server.go` and `pkg/oauth/initialize.go` both define `Server.Initialize`;
  - `pkg/streamablehttp/server.go` and `pkg/streamablehttp/mcp.go` both define `AuthServer.ServeHTTP`.

  Both versions are modelled: `OAuthServer.Server.ServeHTTP` and `OAuthMcp.ServeHTTP`, then
  `OAuthServer.Server.Initialize` and `OAuthInitialize.Initialize`, then
  `StreamableHttpServer.AuthServer.ServeHTTP` and `StreamableHttpMcp.AuthServer.ServeHTTP`. The session data carries the
  IdP's code, as the callback and the token handler require.
- Where the prose description of the system and the code differ, the model follows the code:
  - A session whose state is empty is never read back (`pkg/oauth/session.go:90`), although a
    client's state is described as optional. `OAuthSession.EmptyStateNeverRetrieved` states this.
  - Registration accepts an empty `redirect_uris` list. The validation tag only rejects a missing
    one.

## Model

| member | source | states |
|---|---|---|
| AccessLog.StatusWriter.constructor | pkg/helper/accesslog.go:17 | The wrapper starts with status 200 and no header written. |
| AccessLog.StatusWriter.WriteHeader | pkg/helper/accesslog.go:34-41 | Only the first WriteHeader records its code and forwards it. Later calls leave the state unchanged. |
| AccessLog.StatusWriter.Write | pkg/helper/accesslog.go:43-48 | A Write before any header first writes header 200, then forwards the bytes and reports their length. |
| AccessLog.WrittenStatusIsFinal | pkg/helper/accesslog.go:34-41 | Once a header is written, no sequence of calls changes the recorded status or forwards another code. |
| AccessLog.RecordedStatusIsFirst | pkg/helper/accesslog.go:34-48 | From a fresh wrapper, the recorded status is the first call's code: 200 for a Write, and 200 when there is no call. Exactly that one code is forwarded. |
| AccessLog.DataForwardedInOrder | pkg/helper/accesslog.go:43-48 | Every payload written reaches the wrapped writer unchanged and in order. |
| AccessLog.RunFromAnyLog | pkg/helper/accesslog.go:34-48 | Over a writer that already saw calls, the new calls are appended and the status is still the first new call's. |
| AccessLog.UseAccessLogging | pkg/helper/accesslog.go:11-25 | The logged status is the first status the handler wrote (200 by default). The logged body is the request body, which is restored for the handler. The downstream writer gets exactly one header and all data in order. |
| Args.Pointer | pkg/helper/args.go:3-5 | The pointer refers to the given value. |
| Args.ParseMCPArgs | pkg/helper/args.go:7-13 | Never fails. A value comes back exactly when the key is present with the asked-for dynamic type, and it is that argument. |
| Alert.ParseSearchAlertParams | pkg/riskenmcp/alert.go:44-63 | Fails exactly when the project lookup fails. The request is for that project with one status: active by default, otherwise the numeric `status` argument truncated. |
| Base64Url.Encode | pkg/oauth/token.go:155 | Unpadded base64url: four symbols per full group of three bytes, two or three for a final partial group, all from the URL-safe alphabet. |
| Base64Url.Decode | pkg/oauth/jwt_validator.go:152-161 | Decodes exactly when the input, with carriage returns and line feeds removed, is valid unpadded base64url. |
| Base64Url.DecodeEncode | pkg/oauth/token.go:153-156 | Decoding an encoding gives back the bytes. |
| Base64Url.BigEndian | pkg/oauth/jwt_validator.go:164 | The unsigned big-endian value of the bytes is below 256 to the number of bytes. |
| Base64Url.BigEndianLeadingZero | pkg/oauth/jwt_validator.go:164 | Leading zero bytes do not change the big-endian value. |
| Base64Url.CommonExponent | pkg/oauth/jwt_validator.go:158-164 | "AQAB" decodes to the bytes 1, 0, 1, whose value is 65537. |
| FindingArchive.ParseArchiveFindingParams | pkg/riskenmcp/finding_archive.go:50-85 | Fails exactly when the project lookup fails. The project goes on both the request and the pend record. Expiry is 100 years of 365 days after now. The finding id is the truncated numeric argument, or 0. The note is the default when absent or empty, otherwise the default's prefix plus the note. |
| FindingLegacy.Defaults | pkg/riskenmcp/finding.go:141-148 | The legacy defaults: offset 0, limit 10, score 0.5, active findings, no filters. |
| FindingLegacy.StringListArg | pkg/riskenmcp/finding.go:176-189 | A list filter is taken only when its dynamic type is a string slice. |
| FindingLegacy.LegacyFindingParams | pkg/riskenmcp/finding.go:136-219 | Fails exactly when the project lookup fails. A numeric `finding_id` gives the defaults with that id truncated, score 0 and any status. Otherwise a numeric `alert_id` gives the defaults with that id truncated and score 0. Otherwise both ids are 0, only `[]string` filters are taken, the score is `from_score` or 0.5, and status, offset and limit are the truncated numbers or 1, 0 and 10. |
| FindingLegacy.EveryJsonListFilterDropped | pkg/riskenmcp/finding.go:176-189 | For every input without ids, a filter sent as a JSON array is dropped here, while the current parser keeps one entry per element. |
| FindingLegacy.JsonListFiltersDropped | pkg/riskenmcp/finding.go:176-189 | Filters sent as JSON arrays are dropped by this parser and kept by the current one. |
| FindingLegacy.ParseFindingParams | pkg/riskenmcp/finding.go:136-219 | The step-by-step parser builds exactly LegacyFindingParams. |
| FindingLegacy.SearchFinding | pkg/riskenmcp/finding.go:106-133 | Every failure is an error result, never a Go error. The text reply exactly when parsing, listing and every fetch succeed; it holds the fetched findings in id order. |
| FindingSearch.Defaults | pkg/riskenmcp/finding_search.go:116-123 | The current defaults: offset 0, limit 10, score 0.1, active findings, no filters. |
| FindingSearch.FormatValue | pkg/riskenmcp/finding_search.go:157 | A string argument prints as itself. |
| FindingSearch.FormattedList | pkg/riskenmcp/finding_search.go:151-168 | A list argument becomes its elements, each formatted, in input order. An absent or non-list argument becomes the empty list. |
| FindingSearch.AppendFormatted | pkg/riskenmcp/finding_search.go:156-158 | The loop appends every element formatted, in order, after the existing ones. |
| FindingSearch.SearchFindingParams | pkg/riskenmcp/finding_search.go:111-198 | Fails exactly when the project lookup fails. A numeric `finding_id` gives the defaults with that id truncated, score 0 and any status. Otherwise a numeric `alert_id` gives the defaults with that id truncated and score 0. Otherwise both ids are 0, each list filter is its elements formatted in order, the score is `from_score` or 0.1, and status, offset and limit are the truncated numbers or 1, 0 and 10. |
| FindingSearch.JsonStringFiltersKept | pkg/riskenmcp/finding_search.go:151-159 | A `data_source` filter sent as a JSON array of strings reaches the request unchanged, element by element. |
| FindingSearch.FindingIdIgnoresOtherArguments | pkg/riskenmcp/finding_search.go:130-139 | With a numeric `finding_id`, no other argument changes the request. |
| FindingSearch.AlertIdIgnoresFilters | pkg/riskenmcp/finding_search.go:141-149 | Without `finding_id` but with a numeric `alert_id`, no filter or override changes the request. |
| FindingSearch.NoRangeCheck | pkg/riskenmcp/finding_search.go:169-196 | Values outside the schema's ranges (limit 1000, score 7.5, status 9) are copied as given. |
| FindingSearch.ParseSearchFindingParams | pkg/riskenmcp/finding_search.go:111-198 | The step-by-step parser, with its loops over the list filters, builds exactly SearchFindingParams. |
| FindingSearch.FetchAll | pkg/riskenmcp/finding_search.go:93-102 | Succeeds exactly when every id fetches. The findings then come in id order, one per id. |
| FindingSearch.FetchAllStopsAtFailure | pkg/riskenmcp/finding_search.go:93-100 | The first failing fetch decides the answer, whatever follows it. |
| FindingSearch.FetchFindings | pkg/riskenmcp/finding_search.go:93-102 | The loop computes exactly FetchAll. |
| FindingSearch.SearchFinding | pkg/riskenmcp/finding_search.go:69-108 | A Go error exactly when no RISKEN client is found. The text reply exactly when parsing, listing and every fetch succeed. The reply carries the findings in id order and the request's offset and limit. |
| GoValues.TruncateToInt | pkg/riskenmcp/errors.go:75 | Go's float-to-integer conversion drops the fraction toward zero. |
| HttpAuth.Token | pkg/riskenmcp/http_auth.go:67-71 | The Authorization header with a leading "Bearer " removed. Without that prefix it is the whole header. |
| HttpAuth.Decision | pkg/riskenmcp/http_auth.go:65-108 | Order: a non-empty token (else 401 with null id), then the request id (else 400), then sign-in (else 401 with the parsed id and "Invalid RISKEN token: " and the sign-in error). Admits exactly when all three pass, with a client for that token. Never sends a challenge. |
| HttpAuth.TokenSourceDifference | pkg/riskenmcp/http_auth.go:67-71 | For a header starting with "Bearer " it decides as the pkg/stream guard does. A non-empty header without the prefix is refused as missing there but tried whole as the token here. |
| HttpAuth.AuthStreamableHTTPServer.constructor | pkg/riskenmcp/http_auth.go:28-35 | Keeps the RISKEN URL and the wrapped MCP server. |
| HttpAuth.AuthStreamableHTTPServer.CreateAndValidateClient | pkg/riskenmcp/http_auth.go:111-122 | This server's copy of the sign-in check. It agrees with the shared helper: succeeds exactly when sign-in answers with a project. |
| HttpAuth.AuthStreamableHTTPServer.ServeHTTP | pkg/riskenmcp/http_auth.go:65-108 | The response and the delegation are exactly what Decision prescribes. |
| HttpResponse.Delegate | pkg/streamablehttp/mcp.go:37-42 | The MCP handler receives the request with the RISKEN client in its context. Nothing is written to the response. |
| JsonRpc.ErrorCodeRanges | pkg/riskenmcp/errors.go:26-36 | The standard codes are distinct and lie in the range section 5.1 of JSON-RPC 2.0 reserves. The custom code lies in the server-error range. |
| JsonRpc.NewJSONRPCError | pkg/riskenmcp/errors.go:38-47 | A version "2.0" envelope with the given id, code and message. |
| JsonRpc.NormalizeId | pkg/riskenmcp/errors.go:72-87 | Null and "" become null. Numbers become integers (floats truncated). Other strings stay. Any other value passes through. |
| JsonRpc.RequestIdOf | pkg/riskenmcp/errors.go:58-88 | A read error or a non-JSON body fails. An empty body gives null. The literal `null` gives null. Otherwise the id is the normalised `id` member. |
| JsonRpc.ParseJSONRPCRequestID | pkg/riskenmcp/errors.go:58-88 | Returns RequestIdOf the original body, restores a readable body and changes nothing else of the request. |
| JsonRpc.RequestIdExamples | pkg/riskenmcp/errors_test.go:19-50 | The package's table cases: string id, numeric id, zero id, empty id, missing id, empty body, invalid JSON. |
| Jwt.ValidateClaims | pkg/oauth/session.go:65-76 | The library's claim check as the core relies on it: exp must be after now and nbf not after now. MapClaims treats exp 0 as absent; RegisteredClaims treats null as absent. |
| Jwt.Parse | pkg/oauth/jwt_validator.go:91-114 | Parsing succeeds exactly when the token decodes, the key function gives a key, the signature verifies under it and the claims are valid. |
| OAuthAuthorize.ParseAuthorizeRequest | pkg/oauth/authorize.go:23-42 | Valid exactly when response_type is "code", the method is "S256", client id, challenge and state are non-empty, and the redirect URI is a URL. The request carries the query's values. |
| OAuthAuthorize.SessionOf | pkg/oauth/authorize.go:61-67 | The session keeps the client's state, challenge, redirect URI and client id. |
| OAuthAuthorize.IdpAuthorizeQuery | pkg/oauth/authorize.go:84-91 | Exactly five parameters: code flow, this server's client id, its callback URL, the session JWT as state, and scope openid. |
| OAuthAuthorize.AuthorizeOutcome | pkg/oauth/authorize.go:45-99 | 400 exactly for an invalid request. 500 "Failed to create session" when the session cannot be stored, then 500 "Invalid authorization endpoint" when the endpoint does not parse. Otherwise a 302 to the IdP's endpoint with the IdP query. |
| OAuthCallback.ParseCallbackRequest | pkg/oauth/callback.go:22-38 | Fails exactly when both `error` and `code` are empty. |
| OAuthCallback.ClientRedirectQuery | pkg/oauth/callback.go:95-101 | Carries the internal code. Carries the client's state exactly when it is non-empty. |
| OAuthCallback.CallbackOutcome | pkg/oauth/callback.go:41-107 | 400 for a bad request, an IdP error or an unknown/expired session. For a found session, 500 "Authorization code generation failed" when the code cannot be generated, then 500 "Invalid client redirect URI" when the redirect URI does not parse. Otherwise a 302 to the client's redirect URI. Its query is the internal code for the session with the IdP code added, and the client's state. |
| OAuthCallback.CallbackEchoesState | pkg/oauth/callback.go:95-103 | The client gets back exactly the state it sent to /authorize. |
| OAuthCallback.ExchangeForm | pkg/oauth/callback.go:111-116 | Exactly the five form fields of section 4.1.3 of RFC 6749, with this server's credentials and callback URL. |
| OAuthCallback.ExchangeCodeForToken | pkg/oauth/callback.go:110-138 | Succeeds exactly when the POST to the token endpoint succeeds with a string `access_token`, and returns it. |
| OAuthFlow.CallbackUrlAgrees | pkg/oauth/callback.go:116 | The redirect URI sent to the IdP at authorize.go:87 is the one presented in the code exchange. |
| OAuthFlow.AuthorizeThenCallback | pkg/oauth/callback.go:63-106 | The session JWT that /authorize sent is read back before it expires with the client's request. The callback then redirects exactly when the code generates and the URI parses, with the client's state. |
| OAuthFlow.HonestTokenRequestPasses | pkg/oauth/token.go:66-141 | Given a round-tripping codec, a request with the issued code, the same redirect URI and state, and the verifier of the stored challenge passes every check. It is answered 200 exactly when the IdP exchange succeeds. |
| OAuthFlow.HonestFlowSucceeds | pkg/oauth/token.go:94-126 | End to end: authorize, callback before expiry, then a token request with the verifier passes every check. The code exchanged is the IdP's. |
| OAuthInitialize.Initialize | pkg/oauth/initialize.go:10-35 | An invalid configuration changes nothing. Otherwise the session manager is keyed with the signing key, then metadata and keys load in order. Success leaves the server ready. |
| OAuthJwtValidator.FirstMatch | pkg/oauth/jwt_validator.go:140-144 | The index of the first key with the kid and type RSA; no earlier key matches. |
| OAuthJwtValidator.Wrap64 | pkg/oauth/jwt_validator.go:165-168 | Go's signed 64-bit wrap: in range, congruent modulo 2^64, identity on in-range values. |
| OAuthJwtValidator.Exponent | pkg/oauth/jwt_validator.go:165-168 | The exponent loop over the bytes, wrapping as Go's `int` does. |
| OAuthJwtValidator.ShortExponentExact | pkg/oauth/jwt_validator.go:165-168 | Up to seven bytes, the exponent is the exact big-endian value. |
| OAuthJwtValidator.CommonExponentIs65537 | pkg/oauth/jwt_validator.go:158-168 | The common exponent "AQAB" gives 65537. |
| OAuthJwtValidator.LongExponentWraps | pkg/oauth/jwt_validator.go:165-168 | Eight bytes with the top bit set wrap to a negative exponent (-2^63). |
| OAuthJwtValidator.RsaPublicKeyOf | pkg/oauth/jwt_validator.go:150-174 | Fails with the N or E message exactly when that parameter does not decode. Otherwise the modulus is the big-endian value of N and the exponent is the loop's value. |
| OAuthJwtValidator.PublicKeyFor | pkg/oauth/jwt_validator.go:135-147 | "JWKS not loaded" without a key set. "key not found" when no key has the kid and type RSA. Otherwise, in both directions, the result is the key conversion of the first match: Ok with its modulus and exponent exactly when that entry decodes. |
| OAuthJwtValidator.KeyFor | pkg/oauth/jwt_validator.go:91-110 | Only an RSA token with a string kid gets a key, the one PublicKeyFor finds. |
| OAuthJwtValidator.IssuerOf | pkg/oauth/jwt_validator.go:116-124 | The issuer claim as the registered-claims decoder reads it: absent or null gives "". |
| OAuthJwtValidator.CustomClaimsError | pkg/oauth/jwt_validator.go:39-46 | The token's claims decode into Claims exactly when scope, email, name and preferred_username are absent, null or strings, and groups is absent, null or an array of strings. |
| OAuthJwtValidator.ValidateTokenWith | pkg/oauth/jwt_validator.go:90-132 | No key set means rejection. Accepted only if RSA-signed under the key for its kid, the claims are valid and decode into Claims, the issuer is the IdP's and the token is not expired. The result is its claims. |
| OAuthJwtValidator.MistypedGroupsRejected | pkg/oauth/jwt_validator.go:39-46 | A token whose groups claim is a single string is refused, whatever its signature, issuer and expiry. |
| OAuthJwtValidator.OwnExpiryCheckSubsumed | pkg/oauth/jwt_validator.go:126-129 | With one clock reading, the validator's own expiry check never rejects what the library accepted: valid exactly when the library accepts, the claims decode and the issuer is the IdP's. |
| OAuthJwtValidator.ExpiryBetweenClockReads | pkg/oauth/jwt_validator.go:126-129 | The own check rejects a library-accepted token exactly when it expires between the two clock readings. |
| OAuthJwtValidator.FetchJwks | pkg/oauth/jwt_validator.go:60-79 | The key set comes only from a 200 answer that decodes. Otherwise the fetch, status or decode message is returned. |
| OAuthJwtValidator.JWTValidator.constructor | pkg/oauth/jwt_validator.go:50-55 | A validator with no metadata and no key set. |
| OAuthJwtValidator.JWTValidator.LoadJWKS | pkg/oauth/jwt_validator.go:58-87 | The metadata is recorded first, even if loading fails. The key set is replaced exactly on success. |
| OAuthJwtValidator.JWTValidator.JwkToRSAPublicKey | pkg/oauth/jwt_validator.go:150-174 | The loop computes exactly RsaPublicKeyOf. |
| OAuthJwtValidator.JWTValidator.GetPublicKey | pkg/oauth/jwt_validator.go:135-147 | The search loop computes exactly PublicKeyFor on the current key set. |
| OAuthJwtValidator.JWTValidator.KeyFunc | pkg/oauth/jwt_validator.go:91-110 | The key function computes exactly KeyFor. |
| OAuthJwtValidator.JWTValidator.ValidateToken | pkg/oauth/jwt_validator.go:90-132 | Computes exactly ValidateTokenWith on the validator's state. |
| OAuthMcp.Decision | pkg/oauth/mcp.go:12-64 | Order: request id (400), bearer token (401 "Bearer token required"), JWT validation (401 "Invalid JWT token"), RISKEN sign-in with the RISKEN header (401, internal error). Admits exactly when all pass, with a client for the RISKEN token. A challenge comes exactly with the 401 unauthorized rejections. |
| OAuthMcp.NothingAdmittedBeforeJwksLoaded | pkg/oauth/mcp.go:33-41 | Before the key set is loaded every request is refused. One with a readable id gets 401 with the challenge. |
| OAuthMcp.ServeHTTP | pkg/oauth/mcp.go:12-64 | The response, its challenge header and the delegation are exactly what Decision prescribes. |
| OAuthMetadata.MissingRequired | pkg/oauth/metadata.go:95-106 | None exactly when issuer, authorization, token and JWKS endpoints are all set. Otherwise the message for the first one missing, in that order, down to "IdP metadata missing jwks_uri". |
| OAuthMetadata.WithPublicClient | pkg/oauth/metadata.go:120-123 | "none" is among the methods afterwards. It is appended only when missing. |
| OAuthMetadata.WithDefaults | pkg/oauth/metadata.go:108-127 | Fills only empty fields: this server's /register, S256, "none", and openid/email/profile. Keeps every other field. Metadata with its required fields set becomes complete. |
| OAuthMetadata.WithDefaultsIdempotent | pkg/oauth/metadata.go:108-127 | Completing twice is completing once. |
| OAuthMetadata.FetchAuthorizationServerMetadata | pkg/oauth/metadata.go:142-171 | Metadata only from a 200 answer that decodes. A non-200 status is refused with its number. |
| OAuthMetadata.LoadedMetadata | pkg/oauth/metadata.go:88-128 | Succeeds exactly when the fetch succeeds and no required field is missing. The result is then the completed metadata. |
| OAuthMetadata.GenerateProtectedResourceMetadata | pkg/oauth/metadata.go:56-63 | This server is the resource and its own authorization server. Scope openid is provided and required. |
| OAuthMetadata.ProtectedResourceMetadataOutcome | pkg/oauth/metadata.go:34-43 | Always 200 with that document. |
| OAuthMetadata.AuthorizationServerMetadataOutcome | pkg/oauth/metadata.go:66-85 | 500 while nothing is loaded, otherwise 200 with the cached metadata. |
| OAuthRegister.ParseRegistrationRequest | pkg/oauth/register.go:36-48 | Succeeds exactly when the body decodes, has `redirect_uris`, and every entry of it is a URL. |
| OAuthRegister.GenerateClientID | pkg/oauth/register.go:116-120 | The fixed public client id. |
| OAuthRegister.RegisteredClient | pkg/oauth/register.go:72-105 | A public client without a secret, with the requested URIs and name. Defaults fill only empty fields: authorization_code, code, none, native. |
| OAuthRegister.RegisterOutcome | pkg/oauth/register.go:51-107 | 405 for a method other than POST. 400 for an invalid request. Otherwise 201 with the registered client. |
| OAuthRegister.RegistrationIsIdempotent | pkg/oauth/register.go:75-93 | Registering the registered client again gives the same client. |
| OAuthServer.Server.constructor | pkg/oauth/server.go:40-56 | A server with the configuration, a fresh validator, and no metadata or session manager. |
| OAuthServer.Server.LoadMetadata | pkg/oauth/metadata.go:88-139 | The cache becomes LoadedMetadata's result exactly on success, complete. The error is returned otherwise and the cache is kept. |
| OAuthServer.Server.LoadMetadataThenJwks | pkg/oauth/server.go:65-72 | The metadata first; the keys only after it loads, with the same metadata shared by the validator. Success leaves the server ready. |
| OAuthServer.Server.Initialize | pkg/oauth/server.go:59-78 | Missing client credentials are refused with nothing changed. Otherwise metadata then keys. Success leaves the server ready. |
| OAuthServer.Server.ServeHTTP | pkg/oauth/server.go:111-163 | The guard of the MCP endpoint, exactly as OAuthMcp.Decision prescribes for this server's parts. |
| OAuthServer.Server.HandleAuthorize | pkg/oauth/authorize.go:45-99 | Writes exactly AuthorizeOutcome for the server's session manager and IdP endpoint. |
| OAuthServer.Server.HandleOAuthCallback | pkg/oauth/callback.go:41-107 | Writes exactly CallbackOutcome for the server's session manager. |
| OAuthServer.Server.HandleToken | pkg/oauth/token.go:66-144 | A POST that parses on a server without a session manager gets 500 "Internal server error". Every other request gets exactly TokenOutcome with the IdP's token endpoint. |
| OAuthServer.Server.HandleRegister | pkg/oauth/register.go:51-107 | Writes exactly RegisterOutcome. |
| OAuthServer.Server.HandleProtectedResourceMetadata | pkg/oauth/metadata.go:34-43 | Writes the protected resource metadata with 200. |
| OAuthServer.Server.HandleAuthorizationServerMetadata | pkg/oauth/metadata.go:66-85 | Writes exactly AuthorizationServerMetadataOutcome of the cache. |
| OAuthSession.SessionClaims | pkg/oauth/session.go:42-49 | Exactly the four session fields plus iat now and exp ten minutes later. |
| OAuthSession.Store | pkg/oauth/session.go:41-61 | The HS256 signature of those claims under the secret. Fails exactly when signing fails. |
| OAuthSession.SessionKey | pkg/oauth/session.go:65-71 | The secret, only for an HMAC-signed token. |
| OAuthSession.Get | pkg/oauth/session.go:64-108 | A session exactly when the token is HMAC-signed, verifies, is unexpired, and has non-empty state, challenge and redirect URI. |
| OAuthSession.StoredClaims | pkg/oauth/session.go:41-52 | A stored session parses as HS256 and verifies under the secret. It carries the four session fields, exp as a JSON number, and no nbf. |
| OAuthSession.StoreThenGet | pkg/oauth/session.go:41-108 | A stored session is read back, field for field, at any time before it expires. |
| OAuthSession.StoredSessionExpires | pkg/oauth/session.go:48 | A session stored at a non-negative time cannot be read from ten minutes later on. |
| OAuthSession.EmptyStateNeverRetrieved | pkg/oauth/session.go:90-93 | A session stored with an empty state is never read back. |
| OAuthToken.ParseTokenRequest | pkg/oauth/token.go:24-44 | Valid exactly when the grant is authorization_code, code and client id are non-empty, the redirect URI is a URL and the verifier has 43 to 128 characters. |
| OAuthToken.NewTokenResponse | pkg/oauth/token.go:56-63 | A Bearer token for 3600 seconds, scope "openid profile email", no refresh token. |
| OAuthToken.GenerateCodeChallenge | pkg/oauth/token.go:153-156 | 43 URL-safe characters that decode back to the verifier's digest. |
| OAuthToken.VerifyPKCE | pkg/oauth/token.go:147-150 | Accepts exactly the canonical S256 challenge of the verifier. |
| OAuthToken.VerifyState | pkg/oauth/token.go:159-168 | Accepts exactly equal states. |
| OAuthToken.TokenOutcome | pkg/oauth/token.go:66-144 | 405, then 400 for form, code, PKCE, redirect URI and state, in that order. 500 when the exchange fails. 200 with the IdP's token exactly when every check passes and the exchange succeeds. |
| OAuthToken.ExchangeOnlyAfterChecks | pkg/oauth/token.go:66-137 | When any check fails, the answer does not depend on the IdP. |
| RequestHelpers.ReadAndRestoreRequestBody | pkg/helper/request.go:12-19 | Returns the body and leaves it readable again. A read error is wrapped and the body is left drained. Nothing else of the request changes. |
| RequestHelpers.ExtractBearerToken | pkg/helper/request.go:21-28 | The text after a case-sensitive "Bearer " prefix, otherwise "". |
| RequestHelpers.ExtractRISKENTokenFromHeader | pkg/helper/request.go:30-37 | The RISKEN-ACCESS-TOKEN header verbatim, "" when absent. |
| RequestHelpers.FirstForwarded | pkg/helper/request.go:42-47 | The prefix before the first comma. The whole list when it has none or starts with one. |
| RequestHelpers.ExtractClientIP | pkg/helper/request.go:40-60 | X-Forwarded-For (first entry, trimmed), else X-Real-IP trimmed, else the host of the remote address, else the address. |
| RequestHelpers.ForwardedForWins | pkg/helper/request.go:42-47 | With X-Forwarded-For set, nothing else changes the client IP. |
| Risken.CreateAndValidateRISKENClient | pkg/helper/risken.go:11-22 | A client for that token and endpoint exactly when sign-in succeeds with a non-zero project. |
| RiskenContext.WithRISKENClient | pkg/riskenmcp/context.go:17-19 | The context holds the given client under the RISKEN key. |
| RiskenContext.GetRISKENClient | pkg/riskenmcp/context.go:22-32 | The server's own client first. Otherwise the context's client, and an error when it is missing, of another type or nil. |
| RiskenContext.GetAfterWith | pkg/riskenmcp/context_test.go:24-35 | A stored client is found. A stored nil client is an error. |
| StreamServer.Decision | pkg/stream/server.go:64-103 | Order: a bearer token (401 with null id), then the request id (400), then sign-in (401). Admits exactly when all pass. No challenge. |
| StreamServer.CheckOrderDifference | pkg/stream/server.go:66-79 | With a bearer token it decides as the id-first guard of pkg/streamablehttp/server.go. Without one it always answers 401 with a null id. That guard answers 400 for an unreadable id and 401 with the parsed id otherwise. |
| StreamServer.AuthStreamableHTTPServer.constructor | pkg/stream/server.go:27-35 | Keeps the RISKEN URL and the wrapped MCP server. |
| StreamServer.AuthStreamableHTTPServer.ServeHTTP | pkg/stream/server.go:64-103 | After logging the (restored) body, the response and delegation are exactly what Decision prescribes. |
| StreamableHttpMcp.Decision | pkg/streamablehttp/mcp.go:12-43 | Order: request id (400), then a RISKEN-ACCESS-TOKEN header (401), then sign-in with it (401). Admits exactly when all pass, with a client for that token. |
| StreamableHttpMcp.AuthServer.constructor | pkg/streamablehttp/server.go:27-34 | Keeps the RISKEN URL and the wrapped MCP server. |
| StreamableHttpMcp.AuthServer.ServeHTTP | pkg/streamablehttp/mcp.go:12-43 | The response and delegation are exactly what Decision prescribes. |
| StreamableHttpServer.Decision | pkg/streamablehttp/server.go:65-96 | Order: request id (400), then a bearer token (401), then sign-in with it (401). Admits exactly when all pass, with a client for that token. |
| StreamableHttpServer.SameTokenSameDecision | pkg/streamablehttp/server.go:74-80 | The bearer-header guard and the RISKEN-header guard decide alike when the two headers carry the same token. |
| StreamableHttpServer.AuthServer.constructor | pkg/streamablehttp/server.go:27-34 | Keeps the RISKEN URL and the wrapped MCP server. |
| StreamableHttpServer.AuthServer.ServeHTTP | pkg/streamablehttp/server.go:65-96 | The response and delegation are exactly what Decision prescribes. |

## Left out

- Network, clock and process. Listening, routing with `ServeMux`, `Start`, `Shutdown` and their mutexes, the health handlers, and the command-line entry points are left out; each handler is modelled from the request it receives.
- Logging is left out. The access log keeps only the two values it takes from the exchange: the status and the request body.
- http.Error's body text is left out. A rejection is its status, the JSON-RPC envelope and the headers http.Error sets; redirects are their status and target.
- JSON encoding and its failures, and the response headers of JSON answers (Content-Type, Cache-Control), are left out.
- url.Values encoding order is left out. A query is modelled as its map of keys and values.
- The IdP and RISKEN HTTP clients (pkg/helper/http_client.go) are left out. They are function parameters giving the decoded answer or an error.
- The internal authorization-code codec is kept abstract. GenerateAuthCode and ValidateAuthCode are not part of this model, so they are a pair of functions whose only assumed property is `RoundTrips`, taken as a hypothesis where needed.
- OAuthSession.Store and OAuthSession.Get read one clock value each. The two `time.Now()` calls inside Store, for iat and exp, are taken as one reading.
- OAuthJwtValidator.ValidateTokenWith decodes only the `iss` and `exp` registered claims and the five claims Claims adds. Type errors in the other registered claims (`aud`, `sub`, `iat`, `nbf`, `jti`) are not modelled. The model checks the claim types after the signature, where the library decodes them first; only the error text differs.
- ValidateTokenWith: Go's JSON decoder matches a claim to a struct field case-insensitively (`"ISS"` or `"Groups"` fill the same fields as `"iss"` and `"groups"`). The model reads the exact names. A map of claims has lost the key order that decides which of two case variants wins.
- IssuerOf: reads only the exact key `iss`. Go's decoding of RegisteredClaims also takes `ISS`, `Iss` and other case variants, and the last such key in the token wins. Key order is not part of a decoded map, so this is not modelled.
- RequestIdOf: reads only the exact key `id`. Go decodes the body into a struct with an `id` field, which also takes `ID` or `Id`, the last such key winning. Key order is not part of a decoded map, so this is not modelled.
- TimeClaim and ValidateClaims: read `exp` and `nbf` by their exact names. For a RegisteredClaims shape Go's decoding is case-insensitive as above; for MapClaims the exact name is what the library reads.
- Jwt.ValidateClaims compares times in whole seconds; the library's NumericDate rounding of fractional times is not modelled.
- OAuthServer.Server.HandleAuthorize and HandleOAuthCallback require a session manager, and the handlers that read the IdP's endpoints require metadata loaded. Without them the source calls a method on a nil interface or dereferences a nil pointer, which panics. HandleToken reaches its type assertion first and is modelled without a session manager too.
- The type assertions of the session manager to `*JWTSessionManager` (pkg/oauth/callback.go:75-80, pkg/oauth/token.go:87-92) succeed whenever a manager is set: only that manager exists in this model.
- Write: AccessLog.StatusWriter.Write forwards the bytes and reports their full length as written. The wrapped writer is taken to accept every write; its own byte count and error, which Go returns, are not modelled.
- The tool handlers' other parts are left out: tool schemas and descriptions, the project and finding-resource handlers, and the `Any` formatting of non-string list elements (a parameter).
- CreateAndValidateRISKENClient: for an answer with project id 0 the error is the fixed text "invalid project". Go appends the answer formatted with `%+v`; the formatting of the RISKEN API's response type is not part of this model.
- Alert.ParseSearchAlertParams and the finding parsers do not model 32-bit overflow of `int32(...)` conversions of out-of-range numbers, which Go leaves implementation-specific. The same holds for the unsigned id conversions: `uint64(...)` of `finding_id` (pkg/riskenmcp/finding_search.go:135, pkg/riskenmcp/finding.go:160, pkg/riskenmcp/finding_archive.go:68) and `uint32(...)` of `alert_id` (pkg/riskenmcp/finding_search.go:146, pkg/riskenmcp/finding.go:171). The model keeps the truncated integer, negative or oversized as it may be.
- FindingSearch.Defaults, FindingSearch.SearchFindingParams and FindingLegacy.LegacyFindingParams: the score is kept as the exact real. Go stores it in a `float32` field, so `from_score` is rounded by `float32(...)` (pkg/riskenmcp/finding_search.go:174, pkg/riskenmcp/finding.go:195) and the default 0.1 is the `float32` nearest 0.1. Scores such as 0.5 and 7.5 are exact in `float32` and agree; others, such as 0.3, differ in the rounding.
- SearchFindingParams: its score is `from_score` as an exact real, or 0.1, without the `float32` rounding of pkg/riskenmcp/finding_search.go:121 and :174.
- LegacyFindingParams: its score is `from_score` as an exact real, or 0.5, without the `float32` rounding of pkg/riskenmcp/finding.go:195.
- `pkg/oauth/server.go` registers `handleDynamicClientRegistration` and no route for `/authorize`, `/oauth/callback` or `/token`. The handlers are modelled as the files define them.

## Findings

| source | as written | input that shows it | evidently intended | confidence | as-written member | corrected member |
|---|---|---|---|---|---|---|
| pkg/riskenmcp/finding.go:176-189 | The `data_source` and `resource_name` filters are read as `[]string`. | Arguments decoded from JSON: `{"data_source": ["aws"], "resource_name": ["arn:x"]}` hold `[]any`, so both filters are dropped and the search is unfiltered. | Take JSON arrays as `[]any` and format each element, as pkg/riskenmcp/finding_search.go:151-168 does. | not executed | FindingLegacy.JsonListFiltersDropped | FindingSearch.SearchFindingParams |
