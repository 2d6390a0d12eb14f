/**
 * pkg/oauth/mcp.go: the guard in front of the MCP endpoint of the OAuth server. A request needs a
 * readable JSON-RPC id, a bearer token the JWT validator accepts and a RISKEN token (from its own
 * header) that signs in. A missing or rejected bearer token is answered with the challenge of
 * section 5.1 of RFC 9728, which points the client at the protected resource metadata.
 */
module OAuthMcp {
  import opened Wrappers
  import opened GoValues
  import opened Risken
  import opened Http
  import opened RequestHelpers
  import opened JsonRpc
  import opened HttpResponse
  import opened Jwt
  import opened OAuthJwtValidator

  /** The WWW-Authenticate value: a Bearer challenge naming this server's protected resource metadata. */
  function Challenge(mcpServerUrl: string): string
  {
    "Bearer resource_metadata=\"" + mcpServerUrl + "/.well-known/oauth-protected-resource\""
  }

  /**
   * The guard's verdict: the request id first (400, null id), then the bearer token (401 with
   * the challenge when it is missing or invalid), then sign-in with the RISKEN-ACCESS-TOKEN header
   * (401 with code -32603 and no challenge). Only a request that passes all three is admitted, and
   * its client carries the RISKEN token, not the bearer token.
   */
  function Decision(body: BodyReader, h: Header, mcpServerUrl: string, riskenUrl: string,
                    decode: seq<Byte> -> Option<Any>, st: ValidatorState, lib: Library,
                    parseNow: int, checkNow: int, signin: Client -> Result<Option<SigninResponse>>): (d: GuardDecision)
    ensures RequestIdOf(body, decode).Err? ==> d == Reject(400, NewJSONRPCError(NullId, ParseError, "Parse error(requestID)"), None)
    ensures RequestIdOf(body, decode).Ok? && ExtractBearerToken(h) == "" ==>
              d == Reject(401, NewJSONRPCError(RequestIdOf(body, decode).value, Unauthorized, "Bearer token required"),
                          Some(Challenge(mcpServerUrl)))
    ensures RequestIdOf(body, decode).Ok? && ExtractBearerToken(h) != ""
            && ValidateTokenWith(st, lib, ExtractBearerToken(h), parseNow, checkNow).Err? ==>
              d == Reject(401, NewJSONRPCError(RequestIdOf(body, decode).value, Unauthorized, "Invalid JWT token"),
                          Some(Challenge(mcpServerUrl)))
    ensures RequestIdOf(body, decode).Ok? && ExtractBearerToken(h) != ""
            && ValidateTokenWith(st, lib, ExtractBearerToken(h), parseNow, checkNow).Ok?
            && CreateAndValidateRISKENClient(riskenUrl, ExtractRISKENTokenFromHeader(h), signin).Err? ==>
              d == Reject(401, NewJSONRPCError(RequestIdOf(body, decode).value, InternalError, "Failed to create RISKEN client"), None)
    ensures d.Admit? <==>
      && RequestIdOf(body, decode).Ok?
      && ExtractBearerToken(h) != ""
      && ValidateTokenWith(st, lib, ExtractBearerToken(h), parseNow, checkNow).Ok?
      && CreateAndValidateRISKENClient(riskenUrl, ExtractRISKENTokenFromHeader(h), signin).Ok?
    ensures d.Admit? ==> d.client == Client(ExtractRISKENTokenFromHeader(h), riskenUrl)
    ensures d.Reject? ==> (d.challenge.Some? <==> d.status == 401 && d.response.error.code == Unauthorized)
  {
    var requestId := RequestIdOf(body, decode);
    if requestId.Err? then Reject(400, NewJSONRPCError(NullId, ParseError, "Parse error(requestID)"), None)
    else
      var token := ExtractBearerToken(h);
      if token == "" then
        Reject(401, NewJSONRPCError(requestId.value, Unauthorized, "Bearer token required"), Some(Challenge(mcpServerUrl)))
      else if ValidateTokenWith(st, lib, token, parseNow, checkNow).Err? then
        Reject(401, NewJSONRPCError(requestId.value, Unauthorized, "Invalid JWT token"), Some(Challenge(mcpServerUrl)))
      else match CreateAndValidateRISKENClient(riskenUrl, ExtractRISKENTokenFromHeader(h), signin)
        case Err(_) => Reject(401, NewJSONRPCError(requestId.value, InternalError, "Failed to create RISKEN client"), None)
        case Ok(client) => Admit(client)
  }

  /**
   * Before the key set is loaded no request gets through: every request with a readable id is
   * refused with the challenge.
   */
  lemma NothingAdmittedBeforeJwksLoaded(body: BodyReader, h: Header, mcpServerUrl: string, riskenUrl: string,
                                        decode: seq<Byte> -> Option<Any>, st: ValidatorState, lib: Library,
                                        parseNow: int, checkNow: int, signin: Client -> Result<Option<SigninResponse>>)
    requires st.keySet.None?
    ensures var d := Decision(body, h, mcpServerUrl, riskenUrl, decode, st, lib, parseNow, checkNow, signin);
      && d.Reject?
      && (RequestIdOf(body, decode).Ok? ==> d.status == 401 && d.challenge == Some(Challenge(mcpServerUrl)))
  {
  }

  /**
   * Server.ServeHTTP of pkg/oauth/mcp.go over the server's parts: the guard sequence with early
   * returns, then delegation with the RISKEN client in the context. The JWT validator is only read.
   */
  method ServeHTTP(mcpServerUrl: string, riskenUrl: string, validator: JWTValidator, mcp: McpEndpoint,
                   w: ResponseRecorder, r: Request, decode: seq<Byte> -> Option<Any>, lib: Library,
                   parseNow: int, checkNow: int, signin: Client -> Result<Option<SigninResponse>>)
    requires validator.Valid()
    modifies w, r, mcp
    ensures Applied(w, mcp, Decision(old(r.body), old(r.header), mcpServerUrl, riskenUrl, decode, validator.State(), lib,
                                     parseNow, checkNow, signin), old(r.ctx), old(r.body), old(r.header))
  {
    var requestId := ParseJSONRPCRequestID(r, decode);
    if requestId.Err? {
      w.Error(NewJSONRPCError(NullId, ParseError, "Parse error(requestID)"), 400);
      return;
    }
    var token := ExtractBearerToken(r.header);
    if token == "" {
      w.SetHeader("WWW-Authenticate", Challenge(mcpServerUrl));
      w.Error(NewJSONRPCError(requestId.value, Unauthorized, "Bearer token required"), 401);
      return;
    }
    var claims := validator.ValidateToken(lib, token, parseNow, checkNow);
    if claims.Err? {
      w.SetHeader("WWW-Authenticate", Challenge(mcpServerUrl));
      w.Error(NewJSONRPCError(requestId.value, Unauthorized, "Invalid JWT token"), 401);
      return;
    }
    var riskenToken := ExtractRISKENTokenFromHeader(r.header);
    var riskenClient := CreateAndValidateRISKENClient(riskenUrl, riskenToken, signin);
    if riskenClient.Err? {
      w.Error(NewJSONRPCError(requestId.value, InternalError, "Failed to create RISKEN client"), 401);
      return;
    }
    Delegate(w, mcp, r, riskenClient.value);
  }
}
