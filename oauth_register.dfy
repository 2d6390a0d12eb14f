/**
 * pkg/oauth/register.go: the /register endpoint of dynamic client registration (RFC 7591). Every
 * client is registered as the same public client; the metadata of section 2 of RFC 7591 falls
 * back to the defaults of that section when the request leaves it out.
 */
module OAuthRegister {
  import opened Wrappers
  import opened OAuthCommon

  /**
   * RegistrationRequest as JSON decodes it. `redirectUris` is None when the field is absent or
   * null; an empty JSON list is Some([]).
   */
  datatype RegistrationRequest = RegistrationRequest(
    redirectUris: Option<seq<string>>,
    clientName: string,
    scope: string,
    grantTypes: seq<string>,
    responseTypes: seq<string>,
    tokenEndpointAuthMethod: string,
    applicationType: string)

  /** RegistrationResponse: the registered client; public, so without a secret. */
  datatype RegistrationResponse = RegistrationResponse(
    clientId: string,
    clientSecret: string,
    redirectUris: seq<string>,
    clientName: string,
    grantTypes: seq<string>,
    responseTypes: seq<string>,
    tokenEndpointAuthMethod: string,
    applicationType: string)

  /**
   * The validation tags of RegistrationRequest: `redirect_uris` must be present (`required` on a
   * slice only rejects nil, so an empty list passes) and every entry must be a URL.
   */
  predicate ValidRegistrationRequest(req: RegistrationRequest, isUrl: string -> bool)
  {
    req.redirectUris.Some? && forall u :: u in req.redirectUris.value ==> isUrl(u)
  }

  /**
   * ParseRegistrationRequest: `decoded` is what decoding the JSON body gave; a decoding error and
   * a request that fails validation are both errors.
   */
  function ParseRegistrationRequest(decoded: Result<RegistrationRequest>, isUrl: string -> bool): (r: Result<RegistrationRequest>)
    ensures r.Ok? <==> decoded.Ok? && decoded.value.redirectUris.Some?
                       && forall u :: u in decoded.value.redirectUris.value ==> isUrl(u)
    ensures r.Ok? ==> r == decoded
  {
    match decoded
    case Err(e) => Err("failed to parse registration request: " + e)
    case Ok(req) => if ValidRegistrationRequest(req, isUrl) then Ok(req) else Err("validation failed")
  }

  /** generateClientID: every client gets the same fixed id. */
  function GenerateClientID(): (id: string)
    ensures id == "mcp-public-client"
  {
    "mcp-public-client"
  }

  /**
   * The registered client for a valid request: a fixed public client id, no secret, the redirect
   * URIs and name echoed, and each other field defaulted only when the request left it empty.
   */
  function RegisteredClient(req: RegistrationRequest): (r: RegistrationResponse)
    requires req.redirectUris.Some?
    ensures r.clientId == "mcp-public-client" && r.clientSecret == ""
    ensures r.redirectUris == req.redirectUris.value && r.clientName == req.clientName
    ensures r.grantTypes == (if |req.grantTypes| == 0 then ["authorization_code"] else req.grantTypes)
    ensures r.responseTypes == (if |req.responseTypes| == 0 then ["code"] else req.responseTypes)
    ensures r.tokenEndpointAuthMethod == (if req.tokenEndpointAuthMethod == "" then "none" else req.tokenEndpointAuthMethod)
    ensures r.applicationType == (if req.applicationType == "" then "native" else req.applicationType)
  {
    var clientId := GenerateClientID();
    var grantTypes := if |req.grantTypes| == 0 then ["authorization_code"] else req.grantTypes;
    var responseTypes := if |req.responseTypes| == 0 then ["code"] else req.responseTypes;
    var authMethod := if req.tokenEndpointAuthMethod == "" then "none" else req.tokenEndpointAuthMethod;
    var applicationType := if req.applicationType == "" then "native" else req.applicationType;
    RegistrationResponse(clientId, "", req.redirectUris.value, req.clientName, grantTypes, responseTypes,
                         authMethod, applicationType)
  }

  /** handleRegister: 405 for a method other than POST, 400 for an invalid request, otherwise 201 with the client. */
  function RegisterOutcome(verb: string, decoded: Result<RegistrationRequest>, isUrl: string -> bool): (r: Outcome<RegistrationResponse>)
    ensures verb != "POST" ==> r == PlainError(405, "Method not allowed")
    ensures verb == "POST" && ParseRegistrationRequest(decoded, isUrl).Err? ==> r.PlainError? && r.status == 400
    ensures r.Json? <==> verb == "POST" && ParseRegistrationRequest(decoded, isUrl).Ok?
    ensures r.Json? ==> r.status == 201 && r.body == RegisteredClient(decoded.value)
    ensures !r.Json? ==> r.PlainError?
  {
    if verb != "POST" then PlainError(405, "Method not allowed")
    else match ParseRegistrationRequest(decoded, isUrl)
      case Err(e) => PlainError(400, e)
      case Ok(regReq) => Json(201, RegisteredClient(regReq))
  }

  /** Registering the registered client again changes nothing: the defaults are a fixed point. */
  lemma RegistrationIsIdempotent(req: RegistrationRequest)
    requires req.redirectUris.Some?
    ensures var c := RegisteredClient(req);
      RegisteredClient(RegistrationRequest(Some(c.redirectUris), c.clientName, req.scope, c.grantTypes,
                                           c.responseTypes, c.tokenEndpointAuthMethod, c.applicationType)) == c
  {
  }
}
