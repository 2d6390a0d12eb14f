/**
 * What the OAuth endpoints of pkg/oauth share: the server configuration, `url.Values`, a URL
 * whose query is replaced, and the response a handler gives (a plain-text error, a redirect or
 * a JSON document), recorded by a response writer.
 */
module OAuthCommon {
  import opened Wrappers

  /** oauth.Config: the public URL of this server and the IdP client it registers as. */
  datatype Config = Config(
    mcpServerUrl: string,
    authzMetadataEndpoint: string,
    clientId: string,
    clientSecret: string,
    jwtSigningKey: string)

  /**
   * The answer to an HTTP GET of a JSON document, when the request could be sent: the status and
   * what decoding the body gave.
   */
  datatype HttpAnswer<T> = HttpAnswer(status: int, decoded: Result<T>)

  /** The IdP redirects back to this URL after sign-in. */
  function CallbackUrl(config: Config): string
  {
    config.mcpServerUrl + "/oauth/callback"
  }

  /** url.Values: every key with the list of its values. */
  type Values = map<string, seq<string>>

  /** Values.Get: the first value of `key`, or "" when it has none. */
  function GetValue(v: Values, key: string): string
  {
    if key in v && |v[key]| > 0 then v[key][0] else ""
  }

  /** Values.Set: `key` now has exactly the one value `value`. */
  function SetValue(v: Values, key: string, value: string): (r: Values)
    ensures GetValue(r, key) == value && r.Keys == v.Keys + {key}
    ensures forall k :: k in v && k != key ==> r[k] == v[k]
  {
    v[key := [value]]
  }

  /**
   * A URL as a handler hands it to http.Redirect: `base` parsed by url.Parse with its raw query
   * replaced by the encoding of `query`.
   */
  datatype Link = Link(base: string, query: Values)

  /** What a handler writes: http.Error, http.Redirect or a JSON document with a status. */
  datatype Outcome<J> =
    | PlainError(status: int, message: string)
    | Redirect(status: int, location: Link)
    | Json(status: int, body: J)

  /** The response writer of an OAuth endpoint: the responses written to it, in order. */
  class Responder<J> {
    var sent: seq<Outcome<J>>

    constructor ()
      ensures sent == []
    {
      sent := [];
    }

    /** http.Error */
    method Error(message: string, status: int)
      modifies this
      ensures sent == old(sent) + [PlainError(status, message)]
    {
      sent := sent + [PlainError(status, message)];
    }

    /** http.Redirect */
    method RedirectTo(location: Link, status: int)
      modifies this
      ensures sent == old(sent) + [Redirect(status, location)]
    {
      sent := sent + [Redirect(status, location)];
    }

    /** helper.WriteJSONResponse, or setting the JSON headers and encoding `body` */
    method WriteJSON(status: int, body: J)
      modifies this
      ensures sent == old(sent) + [Json(status, body)]
    {
      sent := sent + [Json(status, body)];
    }
  }
}
