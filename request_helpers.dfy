/** pkg/helper/request.go: body read-and-restore and the header extractors. */
module RequestHelpers {
  import opened Wrappers
  import opened GoValues
  import opened GoStrings
  import opened Http

  /**
   * ReadAndRestoreRequestBody: read the whole body and put an identical reader back, so that the
   * next reader sees the same bytes. A read error leaves the drained reader in place.
   */
  method ReadAndRestoreRequestBody(r: Request) returns (res: Result<seq<Byte>>)
    modifies r
    ensures res.Ok? <==> !old(r.body.fails)
    ensures res.Ok? ==> res.value == old(r.body.data) && r.body == old(r.body)
    ensures res.Err? ==> r.body == Drained(old(r.body))
    ensures res.Err? ==> res.error == "failed to read request body: " + ReadAll(old(r.body)).error
    ensures r.verb == old(r.verb) && r.header == old(r.header)
    ensures r.remoteAddr == old(r.remoteAddr) && r.ctx == old(r.ctx)
  {
    var read := ReadAll(r.body);
    r.body := Drained(r.body);
    if read.Err? {
      return Err("failed to read request body: " + read.error);
    }
    r.body := BodyReader(read.value, false);
    return Ok(read.value);
  }

  const BearerPrefix: string := "Bearer "

  /** ExtractBearerToken: what follows a case-sensitive "Bearer " prefix of Authorization, otherwise "". */
  function ExtractBearerToken(h: Header): (token: string)
    ensures HasPrefix(HeaderGet(h, "Authorization"), BearerPrefix) ==> BearerPrefix + token == HeaderGet(h, "Authorization")
    ensures !HasPrefix(HeaderGet(h, "Authorization"), BearerPrefix) ==> token == ""
    ensures token != "" ==> HeaderGet(h, "Authorization") == BearerPrefix + token
  {
    var authHeader := HeaderGet(h, "Authorization");
    if authHeader != "" && HasPrefix(authHeader, BearerPrefix) then TrimPrefix(authHeader, BearerPrefix) else ""
  }

  /** ExtractRISKENTokenFromHeader: the RISKEN-ACCESS-TOKEN field verbatim ("" when absent). */
  function ExtractRISKENTokenFromHeader(h: Header): (token: string)
    ensures "RISKEN-ACCESS-TOKEN" in h ==> token == h["RISKEN-ACCESS-TOKEN"]
    ensures "RISKEN-ACCESS-TOKEN" !in h ==> token == ""
  {
    var authHeader := HeaderGet(h, "RISKEN-ACCESS-TOKEN");
    if authHeader != "" then authHeader else ""
  }

  /** The first entry of an X-Forwarded-For list: the text before the first comma, or all of it when it has no comma or starts with one. */
  function FirstForwarded(xff: string): (first: string)
    ensures |first| <= |xff| && xff[..|first|] == first
    ensures ',' !in first || (|xff| > 0 && xff[0] == ',' && first == xff)
    ensures |first| < |xff| ==> 0 < |first| && xff[|first|] == ','
    ensures ',' !in xff ==> first == xff
  {
    var idx := IndexOf(xff, ',');
    if idx > 0 then xff[..idx] else xff
  }

  /**
   * ExtractClientIP: X-Forwarded-For (first entry, trimmed), else X-Real-IP (trimmed), else the
   * host of RemoteAddr, else RemoteAddr itself. `trimSpace` and `splitHostPort` stand for
   * strings.TrimSpace and net.SplitHostPort (which yields the host, or None on error).
   */
  function ExtractClientIP(h: Header, remoteAddr: string, trimSpace: string -> string,
                           splitHostPort: string -> Option<string>): (ip: string)
    ensures HeaderGet(h, "X-Forwarded-For") != "" ==> ip == trimSpace(FirstForwarded(h["X-Forwarded-For"]))
    ensures HeaderGet(h, "X-Forwarded-For") == "" && HeaderGet(h, "X-Real-IP") != "" ==> ip == trimSpace(h["X-Real-IP"])
    ensures HeaderGet(h, "X-Forwarded-For") == "" && HeaderGet(h, "X-Real-IP") == "" ==>
              ip == (if splitHostPort(remoteAddr).Some? then splitHostPort(remoteAddr).value else remoteAddr)
  {
    var xff := HeaderGet(h, "X-Forwarded-For");
    if xff != "" then
      var idx := IndexOf(xff, ',');
      if idx > 0 then trimSpace(xff[..idx]) else trimSpace(xff)
    else
      var xri := HeaderGet(h, "X-Real-IP");
      if xri != "" then trimSpace(xri)
      else match splitHostPort(remoteAddr)
        case Some(host) => host
        case None => remoteAddr
  }

  /** Once X-Forwarded-For is present, X-Real-IP and the remote address do not matter. */
  lemma ForwardedForWins(h1: Header, h2: Header, a1: string, a2: string, trimSpace: string -> string,
                         split: string -> Option<string>)
    requires HeaderGet(h1, "X-Forwarded-For") != "" && HeaderGet(h1, "X-Forwarded-For") == HeaderGet(h2, "X-Forwarded-For")
    ensures ExtractClientIP(h1, a1, trimSpace, split) == ExtractClientIP(h2, a2, trimSpace, split)
  {
  }
}
