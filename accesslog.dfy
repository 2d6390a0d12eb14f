/** pkg/helper/accesslog.go: the status-capturing response writer and the access-log middleware. */
module AccessLog {
  import opened Wrappers
  import opened GoValues
  import opened Http
  import RequestHelpers

  /** The wrapped http.ResponseWriter: it records every call forwarded to it. */
  class Downstream {
    var codes: seq<int>
    var data: seq<seq<Byte>>

    constructor ()
      ensures codes == [] && data == []
    {
      codes := [];
      data := [];
    }

    method WriteHeader(code: int)
      modifies this
      ensures codes == old(codes) + [code] && data == old(data)
    {
      codes := codes + [code];
    }

    method Write(d: seq<Byte>) returns (n: int)
      modifies this
      ensures codes == old(codes) && data == old(data) + [d]
      ensures n == |d|
    {
      data := data + [d];
      n := |d|;
    }
  }

  /** The two-field state of the wrapper together with what it has forwarded so far. */
  datatype WriterState = WriterState(statusCode: int, headerWritten: bool, codes: seq<int>, data: seq<seq<Byte>>)

  /** What the wrapped handler does to the writer, call by call. */
  datatype HandlerAction = CallWriteHeader(code: int) | CallWrite(bytes: seq<Byte>)

  /** A fresh wrapper over a writer that has seen nothing. */
  const Initial: WriterState := WriterState(200, false, [], [])

  /** responseWriter.WriteHeader on a state. */
  function WriteHeaderStep(s: WriterState, code: int): WriterState
  {
    if s.headerWritten then s else WriterState(code, true, s.codes + [code], s.data)
  }

  /** One handler call on a state; Write first writes the implicit 200 header. */
  function Step(s: WriterState, a: HandlerAction): WriterState
  {
    match a
    case CallWriteHeader(code) => WriteHeaderStep(s, code)
    case CallWrite(bytes) =>
      var s' := if s.headerWritten then s else WriteHeaderStep(s, 200);
      s'.(data := s'.data + [bytes])
  }

  /** The state after a run of handler calls, applied in order. */
  function Run(s: WriterState, actions: seq<HandlerAction>): WriterState
    decreases |actions|
  {
    if |actions| == 0 then s else Step(Run(s, actions[..|actions| - 1]), actions[|actions| - 1])
  }

  /** The status the first call fixes: its own code for WriteHeader, 200 for Write, 200 when there is no call. */
  function FirstStatus(actions: seq<HandlerAction>): int
  {
    if |actions| == 0 then 200
    else match actions[0]
      case CallWriteHeader(code) => code
      case CallWrite(_) => 200
  }

  /** Once the header is written, no call changes the recorded status or forwards another code. */
  lemma {:induction false} WrittenStatusIsFinal(s: WriterState, actions: seq<HandlerAction>)
    requires s.headerWritten
    ensures Run(s, actions).headerWritten
    ensures Run(s, actions).statusCode == s.statusCode
    ensures Run(s, actions).codes == s.codes
    decreases |actions|
  {
    if |actions| > 0 {
      WrittenStatusIsFinal(s, actions[..|actions| - 1]);
    }
  }

  lemma RunPrefix(s: WriterState, a: HandlerAction, rest: seq<HandlerAction>)
    ensures Run(s, [a] + rest) == Run(Step(s, a), rest)
    decreases |rest|
  {
    if |rest| > 0 {
      assert ([a] + rest)[..|rest|] == [a] + rest[..|rest| - 1];
      RunPrefix(s, a, rest[..|rest| - 1]);
    }
  }

  /**
   * The wrapper reports the status of the first call and forwards exactly one header code, the
   * same one, as soon as there is any call; with no call it reports 200 and forwards nothing.
   */
  lemma {:induction false} RecordedStatusIsFirst(actions: seq<HandlerAction>)
    ensures Run(Initial, actions).statusCode == FirstStatus(actions)
    ensures |actions| > 0 ==> Run(Initial, actions).headerWritten && Run(Initial, actions).codes == [FirstStatus(actions)]
    ensures |actions| == 0 ==> Run(Initial, actions).codes == []
  {
    if |actions| > 0 {
      assert actions == [actions[0]] + actions[1..];
      RunPrefix(Initial, actions[0], actions[1..]);
      WrittenStatusIsFinal(Step(Initial, actions[0]), actions[1..]);
    }
  }

  /** Every byte slice the handler writes reaches the wrapped writer unchanged and in order. */
  lemma {:induction false} DataForwardedInOrder(s: WriterState, actions: seq<HandlerAction>)
    ensures Run(s, actions).data == s.data + WrittenData(actions)
    decreases |actions|
  {
    if |actions| > 0 {
      var n := |actions| - 1;
      DataForwardedInOrder(s, actions[..n]);
      assert actions[..n] + [actions[n]] == actions;
      WrittenDataSnoc(actions[..n], actions[n]);
      assert Run(s, actions).data == Run(s, actions[..n]).data + (if actions[n].CallWrite? then [actions[n].bytes] else []);
    }
  }

  /** The payloads of the Write calls, in order. */
  function WrittenData(actions: seq<HandlerAction>): seq<seq<Byte>>
    decreases |actions|
  {
    if |actions| == 0 then []
    else (if actions[0].CallWrite? then [actions[0].bytes] else []) + WrittenData(actions[1..])
  }

  lemma {:induction false} WrittenDataSnoc(actions: seq<HandlerAction>, a: HandlerAction)
    ensures WrittenData(actions + [a]) == WrittenData(actions) + (if a.CallWrite? then [a.bytes] else [])
    decreases |actions|
  {
    if |actions| == 0 {
      assert [a][1..] == [];
    } else {
      assert (actions + [a])[1..] == actions[1..] + [a];
      WrittenDataSnoc(actions[1..], a);
    }
  }

  /** responseWriter: the wrapped writer, the recorded status and whether a header has gone out. */
  class StatusWriter {
    const inner: Downstream
    var statusCode: int
    var headerWritten: bool

    /** `&responseWriter{ResponseWriter: w, statusCode: 200}` */
    constructor (inner: Downstream)
      ensures this.inner == inner && statusCode == 200 && !headerWritten
    {
      this.inner := inner;
      statusCode := 200;
      headerWritten := false;
    }

    function State(): WriterState
      reads this, inner
    {
      WriterState(statusCode, headerWritten, inner.codes, inner.data)
    }

    /** Only the first call records its code and forwards it; later calls are ignored. */
    method WriteHeader(code: int)
      modifies this, inner
      ensures State() == WriteHeaderStep(old(State()), code)
    {
      if headerWritten {
        return;
      }
      statusCode := code;
      headerWritten := true;
      inner.WriteHeader(code);
    }

    /** A Write before any WriteHeader first writes the header 200, then forwards the bytes. */
    method Write(d: seq<Byte>) returns (n: int)
      modifies this, inner
      ensures State() == Step(old(State()), CallWrite(d))
      ensures n == |d|
    {
      if !headerWritten {
        WriteHeader(200);
      }
      n := inner.Write(d);
    }
  }

  /** The fields of an access-log line the model keeps: the request body read up front and the recorded status. */
  datatype AccessLogEntry = AccessLogEntry(status: int, requestBody: seq<Byte>)

  /**
   * UseAccessLogging: read (and restore) the body, run the handler on a fresh wrapper, then log
   * the status the wrapper recorded. A body that cannot be read is logged as empty.
   */
  method UseAccessLogging(w: Downstream, r: Request, handler: seq<HandlerAction>) returns (entry: AccessLogEntry)
    modifies w, r
    ensures entry.status == FirstStatus(handler)
    ensures entry.requestBody == (if old(r.body.fails) then [] else old(r.body.data))
    ensures !old(r.body.fails) ==> r.body == old(r.body)
    ensures w.codes == old(w.codes) + (if |handler| == 0 then [] else [FirstStatus(handler)])
    ensures w.data == old(w.data) + WrittenData(handler)
  {
    var bodyBytes := RequestHelpers.ReadAndRestoreRequestBody(r);
    var wrapped := new StatusWriter(w);
    ghost var start := wrapped.State();
    var i := 0;
    while i < |handler|
      invariant 0 <= i <= |handler|
      invariant wrapped.inner == w
      invariant wrapped.State() == Run(start, handler[..i])
      modifies w, wrapped
    {
      assert handler[..i + 1][..i] == handler[..i];
      match handler[i] {
        case CallWriteHeader(code) => wrapped.WriteHeader(code);
        case CallWrite(bytes) => var _ := wrapped.Write(bytes);
      }
      i := i + 1;
    }
    assert handler[..|handler|] == handler;
    RunFromAnyLog(start, handler);
    entry := AccessLogEntry(wrapped.statusCode, if bodyBytes.Ok? then bodyBytes.value else []);
  }

  /** Running from a wrapper over a writer that already saw calls gives the same status, with the new calls appended. */
  lemma {:induction false} RunFromAnyLog(s: WriterState, actions: seq<HandlerAction>)
    requires s.statusCode == 200 && !s.headerWritten
    ensures Run(s, actions).statusCode == FirstStatus(actions)
    ensures Run(s, actions).codes == s.codes + (if |actions| == 0 then [] else [FirstStatus(actions)])
    ensures Run(s, actions).data == s.data + WrittenData(actions)
  {
    DataForwardedInOrder(s, actions);
    if |actions| > 0 {
      assert actions == [actions[0]] + actions[1..];
      RunPrefix(s, actions[0], actions[1..]);
      WrittenStatusIsFinal(Step(s, actions[0]), actions[1..]);
    }
  }
}
