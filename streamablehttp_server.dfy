/** pkg/streamablehttp/server.go: the MCP guard that takes the RISKEN token from the bearer header. */
module StreamableHttpServer {
  import opened Wrappers
  import opened GoValues
  import opened Risken
  import opened Http
  import opened RequestHelpers
  import opened JsonRpc
  import opened HttpResponse
  import StreamableHttpMcp

  /** The guard's verdict: request id first, then a bearer token, then sign-in with it. */
  function Decision(body: BodyReader, h: Header, riskenUrl: string, decode: seq<Byte> -> Option<Any>,
                    signin: Client -> Result<Option<SigninResponse>>): (d: GuardDecision)
    ensures RequestIdOf(body, decode).Err? ==> d == Reject(400, NewJSONRPCError(NullId, ParseError, "Parse error(requestID)"), None)
    ensures RequestIdOf(body, decode).Ok? && ExtractBearerToken(h) == "" ==>
              d.Reject? && d.status == 401 && d.response == NewJSONRPCError(RequestIdOf(body, decode).value, Unauthorized, "Unauthorized(no authorization header)")
    ensures d.Admit? <==> RequestIdOf(body, decode).Ok? && ExtractBearerToken(h) != ""
                          && CreateAndValidateRISKENClient(riskenUrl, ExtractBearerToken(h), signin).Ok?
    ensures d.Admit? ==> d.client == Client(ExtractBearerToken(h), riskenUrl)
    ensures d.Reject? && RequestIdOf(body, decode).Ok? ==>
              d.status == 401 && d.response.id == RequestIdOf(body, decode).value && d.response.error.code == Unauthorized
    ensures d.Reject? ==> d.challenge.None?
  {
    var requestId := RequestIdOf(body, decode);
    if requestId.Err? then Reject(400, NewJSONRPCError(NullId, ParseError, "Parse error(requestID)"), None)
    else
      var token := ExtractBearerToken(h);
      if token == "" then
        Reject(401, NewJSONRPCError(requestId.value, Unauthorized, "Unauthorized(no authorization header)"), None)
      else match CreateAndValidateRISKENClient(riskenUrl, token, signin)
        case Err(e) => Reject(401, NewJSONRPCError(requestId.value, Unauthorized, "Invalid RISKEN token: " + e), None)
        case Ok(client) => Admit(client)
  }

  /**
   * The two AuthServer guards of this package differ only in where the token comes from: given
   * the same token they reach the same verdict.
   */
  lemma SameTokenSameDecision(body: BodyReader, bearer: Header, riskenHeader: Header, riskenUrl: string,
                              decode: seq<Byte> -> Option<Any>, signin: Client -> Result<Option<SigninResponse>>)
    requires ExtractBearerToken(bearer) == ExtractRISKENTokenFromHeader(riskenHeader)
    ensures Decision(body, bearer, riskenUrl, decode, signin)
            == StreamableHttpMcp.Decision(body, riskenHeader, riskenUrl, decode, signin)
  {
  }

  /** AuthServer: the RISKEN endpoint and the wrapped MCP server. */
  class AuthServer {
    const riskenUrl: string
    const mcp: McpEndpoint

    constructor (riskenUrl: string, mcp: McpEndpoint)
      ensures this.riskenUrl == riskenUrl && this.mcp == mcp
    {
      this.riskenUrl := riskenUrl;
      this.mcp := mcp;
    }

    /** ServeHTTP: the guard sequence with early returns, then delegation with the client in the context. */
    method ServeHTTP(w: ResponseRecorder, r: Request, decode: seq<Byte> -> Option<Any>,
                     signin: Client -> Result<Option<SigninResponse>>)
      modifies w, r, mcp
      ensures Applied(w, mcp, Decision(old(r.body), old(r.header), riskenUrl, decode, signin), old(r.ctx), old(r.body), old(r.header))
    {
      var requestId := ParseJSONRPCRequestID(r, decode);
      if requestId.Err? {
        w.Error(NewJSONRPCError(NullId, ParseError, "Parse error(requestID)"), 400);
        return;
      }
      var token := ExtractBearerToken(r.header);
      if token == "" {
        w.Error(NewJSONRPCError(requestId.value, Unauthorized, "Unauthorized(no authorization header)"), 401);
        return;
      }
      var riskenClient := CreateAndValidateRISKENClient(riskenUrl, token, signin);
      if riskenClient.Err? {
        w.Error(NewJSONRPCError(requestId.value, Unauthorized, "Invalid RISKEN token: " + riskenClient.error), 401);
        return;
      }
      Delegate(w, mcp, r, riskenClient.value);
    }
  }
}
