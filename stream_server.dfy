/** pkg/stream/server.go: the MCP guard that checks the bearer token before it parses the request id. */
module StreamServer {
  import opened Wrappers
  import opened GoValues
  import opened Risken
  import opened Http
  import opened RequestHelpers
  import opened JsonRpc
  import opened HttpResponse
  import StreamableHttpServer

  /** The guard's verdict: a bearer token first (rejected with a null id), then the request id, then sign-in. */
  function Decision(body: BodyReader, h: Header, riskenUrl: string, decode: seq<Byte> -> Option<Any>,
                    signin: Client -> Result<Option<SigninResponse>>): (d: GuardDecision)
    ensures ExtractBearerToken(h) == "" ==>
              d == Reject(401, NewJSONRPCError(NullId, Unauthorized, "Unauthorized(no authorization header)"), None)
    ensures ExtractBearerToken(h) != "" && RequestIdOf(body, decode).Err? ==>
              d == Reject(400, NewJSONRPCError(NullId, ParseError, "Parse error(requestID)"), None)
    ensures d.Admit? <==> ExtractBearerToken(h) != "" && RequestIdOf(body, decode).Ok?
                          && CreateAndValidateRISKENClient(riskenUrl, ExtractBearerToken(h), signin).Ok?
    ensures d.Admit? ==> d.client == Client(ExtractBearerToken(h), riskenUrl)
    ensures d.Reject? && ExtractBearerToken(h) != "" && RequestIdOf(body, decode).Ok? ==>
              d.status == 401 && d.response.id == RequestIdOf(body, decode).value && d.response.error.code == Unauthorized
    ensures d.Reject? ==> d.challenge.None?
  {
    var token := ExtractBearerToken(h);
    if token == "" then Reject(401, NewJSONRPCError(NullId, Unauthorized, "Unauthorized(no authorization header)"), None)
    else
      var requestId := RequestIdOf(body, decode);
      if requestId.Err? then Reject(400, NewJSONRPCError(NullId, ParseError, "Parse error(requestID)"), None)
      else match CreateAndValidateRISKENClient(riskenUrl, token, signin)
        case Err(e) => Reject(401, NewJSONRPCError(requestId.value, Unauthorized, "Invalid RISKEN token: " + e), None)
        case Ok(client) => Admit(client)
  }

  /**
   * Against the guard of pkg/streamablehttp/server.go, which parses the id first: with a bearer
   * token both reach the same verdict. Without one this guard always answers 401 with a null id,
   * where the other answers 400 for an unreadable id and 401 with the parsed id otherwise.
   */
  lemma CheckOrderDifference(body: BodyReader, h: Header, riskenUrl: string,
                                                decode: seq<Byte> -> Option<Any>, signin: Client -> Result<Option<SigninResponse>>)
    ensures ExtractBearerToken(h) != "" ==>
              Decision(body, h, riskenUrl, decode, signin) == StreamableHttpServer.Decision(body, h, riskenUrl, decode, signin)
    ensures ExtractBearerToken(h) == "" && RequestIdOf(body, decode).Err? ==>
              StreamableHttpServer.Decision(body, h, riskenUrl, decode, signin).status == 400
              && Decision(body, h, riskenUrl, decode, signin).status == 401
    ensures ExtractBearerToken(h) == "" && RequestIdOf(body, decode).Ok? ==>
              Decision(body, h, riskenUrl, decode, signin)
              == Reject(401, NewJSONRPCError(NullId, Unauthorized, "Unauthorized(no authorization header)"), None)
              && StreamableHttpServer.Decision(body, h, riskenUrl, decode, signin)
              == Reject(401, NewJSONRPCError(RequestIdOf(body, decode).value, Unauthorized, "Unauthorized(no authorization header)"), None)
  {
  }

  /** AuthStreamableHTTPServer: the RISKEN endpoint and the wrapped MCP server. */
  class AuthStreamableHTTPServer {
    const riskenUrl: string
    const mcp: McpEndpoint

    constructor (riskenUrl: string, mcp: McpEndpoint)
      ensures this.riskenUrl == riskenUrl && this.mcp == mcp
    {
      this.riskenUrl := riskenUrl;
      this.mcp := mcp;
    }

    /** ServeHTTP: log the body (read and restored), then the guard sequence, then delegation. */
    method ServeHTTP(w: ResponseRecorder, r: Request, decode: seq<Byte> -> Option<Any>,
                     signin: Client -> Result<Option<SigninResponse>>)
      modifies w, r, mcp
      ensures Applied(w, mcp, Decision(old(r.body), old(r.header), riskenUrl, decode, signin), old(r.ctx), old(r.body), old(r.header))
    {
      var logged := ReadAndRestoreRequestBody(r);
      var token := ExtractBearerToken(r.header);
      if token == "" {
        w.Error(NewJSONRPCError(NullId, Unauthorized, "Unauthorized(no authorization header)"), 401);
        return;
      }
      var requestId := ParseJSONRPCRequestID(r, decode);
      if requestId.Err? {
        w.Error(NewJSONRPCError(NullId, ParseError, "Parse error(requestID)"), 400);
        return;
      }
      var riskenClient := CreateAndValidateRISKENClient(riskenUrl, token, signin);
      if riskenClient.Err? {
        w.Error(NewJSONRPCError(requestId.value, Unauthorized, "Invalid RISKEN token: " + riskenClient.error), 401);
        return;
      }
      Delegate(w, mcp, r, riskenClient.value);
    }
  }
}
