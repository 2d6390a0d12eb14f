/**
 * The slice of Go's net/http the core depends on: a request whose body is a one-shot reader,
 * a context that may carry a RISKEN client, and header lookup.
 */
module Http {
  import opened Wrappers
  import opened GoValues
  import opened Risken

  /**
   * A request body: the bytes still unread and whether reading it fails. A failing reader keeps
   * failing once it has failed.
   */
  datatype BodyReader = BodyReader(data: seq<Byte>, fails: bool)

  /** io.ReadAll on the body. */
  function ReadAll(b: BodyReader): Result<seq<Byte>>
  {
    if b.fails then Err("read error") else Ok(b.data)
  }

  /** The reader left behind by io.ReadAll: drained, failing as before. */
  function Drained(b: BodyReader): BodyReader
  {
    BodyReader([], b.fails)
  }

  /** What `ctx.Value(RISKENClientContextKey)` holds: nothing, a `*risken.Client` (maybe nil), or a value of another type. */
  datatype ClientSlot = NoValue | ClientValue(client: Option<Client>) | OtherValue

  /** A request context, reduced to the one key the core reads. */
  datatype Context = Context(riskenClient: ClientSlot)

  /** Header fields by canonical name. */
  type Header = map<string, string>

  /** http.Header.Get: the value, or "" for an absent field. */
  function HeaderGet(h: Header, key: string): string
  {
    if key in h then h[key] else ""
  }

  /** An incoming request. */
  class Request {
    var verb: string
    var header: Header
    var remoteAddr: string
    var body: BodyReader
    var ctx: Context

    constructor (verb: string, header: Header, remoteAddr: string, body: BodyReader, ctx: Context)
      ensures this.verb == verb && this.header == header && this.remoteAddr == remoteAddr
      ensures this.body == body && this.ctx == ctx
    {
      this.verb := verb;
      this.header := header;
      this.remoteAddr := remoteAddr;
      this.body := body;
      this.ctx := ctx;
    }

    /** r.WithContext: a shallow copy that differs only in its context. */
    method WithContext(ctx: Context) returns (r2: Request)
      ensures fresh(r2)
      ensures r2.verb == verb && r2.header == header && r2.remoteAddr == remoteAddr
      ensures r2.body == body && r2.ctx == ctx
    {
      r2 := new Request(verb, header, remoteAddr, body, ctx);
    }
  }
}
