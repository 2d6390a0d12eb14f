/**
 * The response side of the transport guards: a recording http.ResponseWriter, http.Error,
 * the MCP handler the guards delegate to, and the decision a guard reaches.
 */
module HttpResponse {
  import opened Wrappers
  import opened GoValues
  import opened Risken
  import opened Http
  import opened JsonRpc
  import opened RiskenContext

  /** A response being written: its header, its status (0 until written) and the JSON-RPC error bodies written. */
  class ResponseRecorder {
    var header: Header
    var status: int
    var body: seq<JsonRpcResponse>

    constructor ()
      ensures header == map[] && status == 0 && body == []
    {
      header := map[];
      status := 0;
      body := [];
    }

    /** w.Header().Set */
    method SetHeader(key: string, value: string)
      modifies this
      ensures header == old(header)[key := value] && status == old(status) && body == old(body)
    {
      header := header[key := value];
    }

    /**
     * http.Error: drop Content-Length, mark the body as plain text that must not be sniffed,
     * write the status (a second status write is ignored) and the message.
     */
    method Error(resp: JsonRpcResponse, code: int)
      modifies this
      ensures header == ErrorHeader(old(header))
      ensures status == (if old(status) == 0 then code else old(status))
      ensures body == old(body) + [resp]
    {
      header := ErrorHeader(header);
      if status == 0 {
        status := code;
      }
      body := body + [resp];
    }
  }

  /** The header http.Error leaves behind. */
  function ErrorHeader(h: Header): (r: Header)
    ensures "Content-Length" !in r
    ensures "Content-Type" in r && "X-Content-Type-Options" in r
    ensures r["Content-Type"] == "text/plain; charset=utf-8" && r["X-Content-Type-Options"] == "nosniff"
    ensures forall k :: k in h && k !in {"Content-Length", "Content-Type", "X-Content-Type-Options"} ==> k in r && r[k] == h[k]
  {
    (h - {"Content-Length"})["Content-Type" := "text/plain; charset=utf-8"]["X-Content-Type-Options" := "nosniff"]
  }

  /** A request as the MCP handler receives it. */
  datatype Delivery = Delivery(ctx: Context, body: BodyReader, header: Header)

  /** The wrapped MCP server; only the requests it is handed are observed. */
  class McpEndpoint {
    var delivered: seq<Delivery>

    constructor ()
      ensures delivered == []
    {
      delivered := [];
    }

    method ServeHTTP(r: Request)
      modifies this
      ensures delivered == old(delivered) + [Delivery(r.ctx, r.body, r.header)]
    {
      delivered := delivered + [Delivery(r.ctx, r.body, r.header)];
    }
  }

  /**
   * What a guard does with a request: answer with a status, a JSON-RPC error and perhaps a
   * WWW-Authenticate challenge, or admit it with a RISKEN client for the MCP handler.
   */
  datatype GuardDecision =
    | Reject(status: int, response: JsonRpcResponse, challenge: Option<string>)
    | Admit(client: Client)

  /**
   * The effect of a decision on the response and the MCP handler: a rejection writes exactly
   * one error and delivers nothing; an admission writes nothing and delivers the request once,
   * with the client in its context.
   */
  twostate predicate Applied(w: ResponseRecorder, mcp: McpEndpoint, d: GuardDecision, ctx: Context, body: BodyReader, header: Header)
    reads w, mcp
  {
    match d
    case Reject(status, resp, challenge) =>
      && w.header == ErrorHeader(if challenge.Some? then old(w.header)["WWW-Authenticate" := challenge.value] else old(w.header))
      && w.status == (if old(w.status) == 0 then status else old(w.status))
      && w.body == old(w.body) + [resp]
      && mcp.delivered == old(mcp.delivered)
    case Admit(client) =>
      && w.header == old(w.header) && w.status == old(w.status) && w.body == old(w.body)
      && mcp.delivered == old(mcp.delivered) + [Delivery(WithRISKENClient(ctx, Some(client)), body, header)]
  }

  /** Hands an admitted request, with the client in its context, to the MCP handler. */
  method Delegate(w: ResponseRecorder, mcp: McpEndpoint, r: Request, client: Client)
    modifies mcp
    ensures Applied(w, mcp, Admit(client), old(r.ctx), old(r.body), old(r.header))
  {
    var ctx := WithRISKENClient(r.ctx, Some(client));
    var r2 := r.WithContext(ctx);
    mcp.ServeHTTP(r2);
  }
}
