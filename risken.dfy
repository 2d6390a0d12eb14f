/**
 * The parts of the RISKEN API client the core touches. The API itself is remote: every call
 * into it is a function parameter of the member that makes it.
 */
module Risken {
  import opened Wrappers

  /** A RISKEN API client: the access token it sends and the endpoint it talks to. */
  datatype Client = Client(token: string, endpoint: string)

  /** The answer of the sign-in call that proves a token is usable. */
  datatype SigninResponse = SigninResponse(projectId: int)

  /** The project the current token belongs to. */
  datatype Project = Project(projectId: int, name: string)

  /** finding.FindingStatus values. */
  const FindingStatusUnknown: int := 0
  const FindingStatusActive: int := 1

  /** alert.Status_ACTIVE */
  const AlertStatusActive: int := 1

  /**
   * CreateAndValidateRISKENClient: build a client for `token` and sign in with it. A sign-in
   * error, a nil answer and an answer with project id 0 all reject the token.
   */
  function CreateAndValidateRISKENClient(riskenUrl: string, token: string,
                                         signin: Client -> Result<Option<SigninResponse>>): (r: Result<Client>)
    ensures r.Ok? <==> signin(Client(token, riskenUrl)).Ok?
                       && signin(Client(token, riskenUrl)).value.Some?
                       && signin(Client(token, riskenUrl)).value.value.projectId != 0
    ensures r.Ok? ==> r.value.token == token && r.value.endpoint == riskenUrl
  {
    var client := Client(token, riskenUrl);
    match signin(client)
    case Err(e) => Err("failed to signin: " + e)
    case Ok(None) => Err("invalid project: <nil>")
    case Ok(Some(resp)) => if resp.projectId == 0 then Err("invalid project") else Ok(client)
  }
}

/** The RISKEN finding and alert API types the MCP tools exchange, and the reply a tool handler gives. */
module RiskenApi {
  /** A finding as GetFinding returns it; only its id is inspected. */
  datatype Finding = Finding(findingId: int, description: string, score: real)

  /** finding.ListFindingRequest, with the fields the tools set. */
  datatype ListFindingRequest = ListFindingRequest(
    projectId: int, findingId: int, alertId: int, dataSource: seq<string>, resourceName: seq<string>,
    fromScore: real, status: int, offset: int, limit: int)

  /** finding.ListFindingResponse: the matching ids, in order, and their total count. */
  datatype ListFindingResponse = ListFindingResponse(findingIds: seq<int>, total: int)

  /** finding.PendFindingForUpsert */
  datatype PendFinding = PendFinding(projectId: int, findingId: int, note: string, expiredAt: int)

  /** finding.PutPendFindingRequest */
  datatype PutPendFindingRequest = PutPendFindingRequest(projectId: int, pendFinding: PendFinding)

  /** alert.ListAlertRequest */
  datatype ListAlertRequest = ListAlertRequest(projectId: int, status: seq<int>)

  /**
   * What an MCP tool handler returns: a Go error (the call itself fails), a tool result marked
   * as an error, or a successful result whose JSON text is the marshalled payload.
   */
  datatype ToolReply<T> = GoError(message: string) | ToolError(message: string) | ToolText(payload: T)
}
