/** pkg/riskenmcp/errors.go: the JSON-RPC 2.0 error envelope and request-id extraction. */
module JsonRpc {
  import opened Wrappers
  import opened GoValues
  import opened Http
  import RequestHelpers

  /** Standard error codes of section 5.1 of the JSON-RPC 2.0 specification. */
  const ParseError: int := -32700
  const InvalidRequest: int := -32600
  const MethodNotFound: int := -32601
  const InvalidParams: int := -32602
  const InternalError: int := -32603
  /** A server-defined code from the reserved range -32099..-32000. */
  const Unauthorized: int := -32001

  /** The standard codes are distinct and lie in -32768..-32600; the custom one lies in the server range -32099..-32000. */
  lemma ErrorCodeRanges()
    ensures -32768 <= ParseError < InternalError < InvalidParams < MethodNotFound < InvalidRequest <= -32600
    ensures -32099 <= Unauthorized <= -32000
  {
  }

  /** A request id as the server hands it back: null, an integer, a string, or another decoded JSON value passed through. */
  datatype RequestId = NullId | IntId(n: int) | StringId(s: string) | OtherId(v: Any)

  datatype RpcError = RpcError(code: int, message: string)

  /** JSONRPCResponse carrying an error. */
  datatype JsonRpcResponse = JsonRpcResponse(jsonrpc: string, id: RequestId, error: RpcError)

  /** NewJSONRPCError: a version "2.0" envelope with the given id, code and message. */
  function NewJSONRPCError(id: RequestId, code: int, message: string): (r: JsonRpcResponse)
    ensures r.jsonrpc == "2.0" && r.id == id && r.error.code == code && r.error.message == message
  {
    JsonRpcResponse("2.0", id, RpcError(code, message))
  }

  /**
   * The type switch on the decoded id: numbers become integers (truncated), "" and null become
   * a null id, any other string is kept, anything else passes through.
   */
  function NormalizeId(v: Any): (id: RequestId)
    ensures id == NullId <==> v == Nil || v == Str("")
    ensures id.IntId? <==> v.Float64? || v.Int?
    ensures v.Float64? ==> id == IntId(TruncateToInt(v.f))
    ensures v.Int? ==> id == IntId(v.i)
    ensures id.StringId? <==> v.Str? && v.s != ""
    ensures id.StringId? ==> id.s == v.s
    ensures id.OtherId? ==> id.v == v
  {
    match v
    case Float64(f) => IntId(TruncateToInt(f))
    case Int(i) => IntId(i)
    case Str(s) => if s == "" then NullId else StringId(s)
    case Nil => NullId
    case _ => OtherId(v)
  }

  /**
   * The id ParseJSONRPCRequestID returns for a body, given `decode` for encoding/json's parse of
   * a JSON text. Unmarshalling into a struct accepts an object (whose "id" member is taken, or
   * null when missing) and the literal null; any other JSON value is a type error.
   */
  function RequestIdOf(body: BodyReader, decode: seq<Byte> -> Option<Any>): (r: Result<RequestId>)
    ensures body.fails ==> r.Err?
    ensures !body.fails && |body.data| == 0 ==> r == Ok(NullId)
    ensures !body.fails && |body.data| > 0 ==>
              (r.Ok? <==> decode(body.data).Some? && (decode(body.data).value.Nil? || decode(body.data).value.Object?))
    ensures !body.fails && |body.data| > 0 && r.Ok? && decode(body.data).value.Object? ==>
              r.value == NormalizeId(MemberOrNil(decode(body.data).value.fields, "id"))
    ensures !body.fails && |body.data| > 0 && decode(body.data) == Some(Nil) ==> r == Ok(NullId)
  {
    match ReadAll(body)
    case Err(e) => Err("failed to read request body: " + ("failed to read request body: " + e))
    case Ok(bytes) =>
      if |bytes| == 0 then Ok(NullId)
      else
        var decoded := decode(bytes);
        if decoded.None? then Err("failed to unmarshal request body")
        else if decoded.value.Nil? then Ok(NullId)
        else if decoded.value.Object? then Ok(NormalizeId(MemberOrNil(decoded.value.fields, "id")))
        else Err("failed to unmarshal request body")
  }

  /** A member of a decoded object, or null when it is missing. */
  function MemberOrNil(fields: map<string, Any>, key: string): Any
  {
    if key in fields then fields[key] else Nil
  }

  /** ParseJSONRPCRequestID: read (and restore) the body, decode it and normalise its id. */
  method ParseJSONRPCRequestID(r: Request, decode: seq<Byte> -> Option<Any>) returns (id: Result<RequestId>)
    modifies r
    ensures id == RequestIdOf(old(r.body), decode)
    ensures r.body == (if old(r.body.fails) then Drained(old(r.body)) else old(r.body))
    ensures r.verb == old(r.verb) && r.header == old(r.header)
    ensures r.remoteAddr == old(r.remoteAddr) && r.ctx == old(r.ctx)
  {
    ghost var b0 := r.body;
    var bodyBytes := RequestHelpers.ReadAndRestoreRequestBody(r);
    if bodyBytes.Err? {
      return Err("failed to read request body: " + bodyBytes.error);
    }
    assert ReadAll(b0) == Ok(bodyBytes.value);
    if |bodyBytes.value| == 0 {
      return Ok(NullId);
    }
    var decoded := decode(bodyBytes.value);
    if decoded.None? {
      return Err("failed to unmarshal request body");
    }
    var v := decoded.value;
    if v.Nil? {
      id := Ok(NullId);
    } else if v.Object? {
      id := Ok(NormalizeId(MemberOrNil(v.fields, "id")));
    } else {
      id := Err("failed to unmarshal request body");
    }
  }

  /** The id cases of the package's table-driven test, stated on decoded bodies. */
  lemma RequestIdExamples(decode: seq<Byte> -> Option<Any>, body: seq<Byte>)
    requires |body| > 0
    ensures decode(body) == Some(Object(map["id" := Str("test-id"), "method" := Str("test")])) ==>
              RequestIdOf(BodyReader(body, false), decode) == Ok(StringId("test-id"))
    ensures decode(body) == Some(Object(map["id" := Float64(123.0), "method" := Str("test")])) ==>
              RequestIdOf(BodyReader(body, false), decode) == Ok(IntId(123))
    ensures decode(body) == Some(Object(map["id" := Float64(0.0), "method" := Str("test")])) ==>
              RequestIdOf(BodyReader(body, false), decode) == Ok(IntId(0))
    ensures decode(body) == Some(Object(map["id" := Str(""), "method" := Str("test")])) ==>
              RequestIdOf(BodyReader(body, false), decode) == Ok(NullId)
    ensures decode(body) == Some(Object(map["method" := Str("test")])) ==>
              RequestIdOf(BodyReader(body, false), decode) == Ok(NullId)
    ensures decode(body) == None ==> RequestIdOf(BodyReader(body, false), decode).Err?
    ensures RequestIdOf(BodyReader([], false), decode) == Ok(NullId)
  {
  }
}
