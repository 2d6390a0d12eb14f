/** pkg/riskenmcp/context.go: passing the per-request RISKEN client through the request context. */
module RiskenContext {
  import opened Wrappers
  import opened Risken
  import opened Http

  /** WithRISKENClient: the context with `client` stored under the RISKEN client key. */
  function WithRISKENClient(ctx: Context, client: Option<Client>): (r: Context)
    ensures r.riskenClient == ClientValue(client)
  {
    ctx.(riskenClient := ClientValue(client))
  }

  /**
   * GetRISKENClient: the server's own client when it has one; otherwise the context's client,
   * which must be a non-nil `*risken.Client`.
   */
  function GetRISKENClient(serverClient: Option<Client>, ctx: Context): (r: Result<Client>)
    ensures serverClient.Some? ==> r == Ok(serverClient.value)
    ensures serverClient.None? ==> (r.Ok? <==> ctx.riskenClient.ClientValue? && ctx.riskenClient.client.Some?)
    ensures serverClient.None? && r.Ok? ==> r.value == ctx.riskenClient.client.value
  {
    if serverClient.Some? then Ok(serverClient.value)
    else match ctx.riskenClient
      case ClientValue(Some(c)) => Ok(c)
      case _ => Err("no RISKEN client found in context")
  }

  /** A client stored with WithRISKENClient is the one a server without its own client gets back. */
  lemma GetAfterWith(ctx: Context, c: Client)
    ensures GetRISKENClient(None, WithRISKENClient(ctx, Some(c))) == Ok(c)
    ensures GetRISKENClient(None, WithRISKENClient(ctx, None)).Err?
  {
  }
}
