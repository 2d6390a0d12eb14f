/** pkg/riskenmcp/http_auth.go: the MCP guard of the riskenmcp package, which strips "Bearer " when present. */
module HttpAuth {
  import opened Wrappers
  import opened GoValues
  import opened GoStrings
  import opened Risken
  import opened Http
  import opened RequestHelpers
  import opened JsonRpc
  import opened HttpResponse
  import StreamServer

  /** The token: the Authorization header with a leading "Bearer " removed, or the whole header without it. */
  function Token(h: Header): (token: string)
    ensures HasPrefix(HeaderGet(h, "Authorization"), BearerPrefix) ==> token == ExtractBearerToken(h)
    ensures !HasPrefix(HeaderGet(h, "Authorization"), BearerPrefix) ==> token == HeaderGet(h, "Authorization")
  {
    var authHeader := HeaderGet(h, "Authorization");
    if authHeader != "" then TrimPrefix(authHeader, BearerPrefix) else ""
  }

  /** The guard's verdict: a token first (rejected with a null id), then the request id, then sign-in. */
  function Decision(body: BodyReader, h: Header, riskenUrl: string, decode: seq<Byte> -> Option<Any>,
                    signin: Client -> Result<Option<SigninResponse>>): (d: GuardDecision)
    ensures Token(h) == "" ==>
              d == Reject(401, NewJSONRPCError(NullId, Unauthorized, "Unauthorized(no authorization header)"), None)
    ensures Token(h) != "" && RequestIdOf(body, decode).Err? ==>
              d == Reject(400, NewJSONRPCError(NullId, ParseError, "Parse error(requestID)"), None)
    ensures d.Admit? <==> Token(h) != "" && RequestIdOf(body, decode).Ok?
                          && CreateAndValidateRISKENClient(riskenUrl, Token(h), signin).Ok?
    ensures d.Admit? ==> d.client == Client(Token(h), riskenUrl)
    ensures Token(h) != "" && RequestIdOf(body, decode).Ok? && CreateAndValidateRISKENClient(riskenUrl, Token(h), signin).Err? ==>
              d == Reject(401, NewJSONRPCError(RequestIdOf(body, decode).value, Unauthorized,
                                               "Invalid RISKEN token: " + CreateAndValidateRISKENClient(riskenUrl, Token(h), signin).error),
                          None)
    ensures d.Reject? ==> d.challenge.None?
  {
    var token := Token(h);
    if token == "" then Reject(401, NewJSONRPCError(NullId, Unauthorized, "Unauthorized(no authorization header)"), None)
    else
      var requestId := RequestIdOf(body, decode);
      if requestId.Err? then Reject(400, NewJSONRPCError(NullId, ParseError, "Parse error(requestID)"), None)
      else match CreateAndValidateRISKENClient(riskenUrl, token, signin)
        case Err(e) => Reject(401, NewJSONRPCError(requestId.value, Unauthorized, "Invalid RISKEN token: " + e), None)
        case Ok(client) => Admit(client)
  }

  /**
   * Against the guard of pkg/stream/server.go: a header that starts with "Bearer " gets the same
   * verdict from both, while a non-empty header without that prefix is tried as a token here and
   * refused as missing there.
   */
  lemma TokenSourceDifference(body: BodyReader, h: Header, riskenUrl: string,
                              decode: seq<Byte> -> Option<Any>, signin: Client -> Result<Option<SigninResponse>>)
    ensures HasPrefix(HeaderGet(h, "Authorization"), BearerPrefix) ==>
              Decision(body, h, riskenUrl, decode, signin) == StreamServer.Decision(body, h, riskenUrl, decode, signin)
    ensures HeaderGet(h, "Authorization") != "" && !HasPrefix(HeaderGet(h, "Authorization"), BearerPrefix) ==>
              StreamServer.Decision(body, h, riskenUrl, decode, signin).Reject?
              && StreamServer.Decision(body, h, riskenUrl, decode, signin).status == 401
              && (Decision(body, h, riskenUrl, decode, signin).Admit? <==>
                    RequestIdOf(body, decode).Ok? && CreateAndValidateRISKENClient(riskenUrl, HeaderGet(h, "Authorization"), signin).Ok?)
  {
  }

  /** AuthStreamableHTTPServer: the RISKEN endpoint and the wrapped MCP server. */
  class AuthStreamableHTTPServer {
    const riskenUrl: string
    const mcp: McpEndpoint

    constructor (riskenUrl: string, mcp: McpEndpoint)
      ensures this.riskenUrl == riskenUrl && this.mcp == mcp
    {
      this.riskenUrl := riskenUrl;
      this.mcp := mcp;
    }

    /** createAndValidateRISKENClient: this server's copy of the sign-in check, against its own endpoint. */
    function CreateAndValidateClient(token: string, signin: Client -> Result<Option<SigninResponse>>): (r: Result<Client>)
      ensures r == CreateAndValidateRISKENClient(riskenUrl, token, signin)
      ensures r.Ok? <==> signin(Client(token, riskenUrl)).Ok? && signin(Client(token, riskenUrl)).value.Some?
                         && signin(Client(token, riskenUrl)).value.value.projectId != 0
    {
      CreateAndValidateRISKENClient(riskenUrl, token, signin)
    }

    /** ServeHTTP: log the body (read and restored), trim the token, then the guard sequence and delegation. */
    method ServeHTTP(w: ResponseRecorder, r: Request, decode: seq<Byte> -> Option<Any>,
                     signin: Client -> Result<Option<SigninResponse>>)
      modifies w, r, mcp
      ensures Applied(w, mcp, Decision(old(r.body), old(r.header), riskenUrl, decode, signin), old(r.ctx), old(r.body), old(r.header))
    {
      var logged := ReadAndRestoreRequestBody(r);
      var token := "";
      var authHeader := HeaderGet(r.header, "Authorization");
      if authHeader != "" {
        token := TrimPrefix(authHeader, BearerPrefix);
      }
      if token == "" {
        w.Error(NewJSONRPCError(NullId, Unauthorized, "Unauthorized(no authorization header)"), 401);
        return;
      }
      var requestId := ParseJSONRPCRequestID(r, decode);
      if requestId.Err? {
        w.Error(NewJSONRPCError(NullId, ParseError, "Parse error(requestID)"), 400);
        return;
      }
      var riskenClient := CreateAndValidateClient(token, signin);
      if riskenClient.Err? {
        w.Error(NewJSONRPCError(requestId.value, Unauthorized, "Invalid RISKEN token: " + riskenClient.error), 401);
        return;
      }
      Delegate(w, mcp, r, riskenClient.value);
    }
  }
}
