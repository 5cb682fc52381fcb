/** The transport selector and the token provider: which wire request a
    call becomes, and how the outcome of the live call, or of the mock
    server, turns into the response, warning and error the sandbox shows. */
module Transport {
  import opened Wrappers
  import opened Json
  import opened RequestBuilder

  const ProxyPrefix: string := "https://cors-anywhere.herokuapp.com/"
  const OriginHeader: string := "Origin"

  /** Environments whose calls go through the CORS proxy. */
  predicate UsesProxy(environment: string) {
    environment == "production" || environment == "uat"
  }

  /** The page runs on a loopback host, where every call goes to the mock server. */
  predicate IsLocalHost(hostname: string) {
    hostname == "localhost" || hostname == "127.0.0.1"
  }

  /** The request as it is put on the wire from a page served at `origin`.
      Routing keeps the method, the body, the target URL (as the tail of the
      wire URL) and every other header. For uat and production it adds the
      proxy prefix and an `Origin` header; any other environment is sent as is. */
  function Routed(req: HttpRequest, environment: string, origin: string): (r: HttpRequest)
    ensures r.options.verb == req.options.verb && r.options.body == req.options.body
    ensures UsesProxy(environment) ==>
              && r.url == ProxyPrefix + req.url
              && r.options.headers.Keys == req.options.headers.Keys + {OriginHeader}
              && r.options.headers[OriginHeader] == origin
    ensures !UsesProxy(environment) ==> r == req
    ensures forall h :: h in req.options.headers && h != OriginHeader ==>
              h in r.options.headers && r.options.headers[h] == req.options.headers[h]
  {
    if UsesProxy(environment) then
      HttpRequest(ProxyPrefix + req.url, req.options.(headers := req.options.headers[OriginHeader := origin]))
    else
      req
  }

  const TokenPath: string := "/partner/token"

  /** The fixed body of a token request. */
  const TokenRequestBody: Json := JObj(map["x-api-key" := JStr("test")])

  /** The token request for an environment, as put on the wire. */
  function TokenRequest(lookup: BaseUrlLookup, environment: string, origin: string): (r: HttpRequest)
    ensures r.options.verb == "POST"
    ensures r.options.body == Some(TokenRequestBody)
    ensures AuthorizationHeader !in r.options.headers
    ensures ContentTypeHeader in r.options.headers && r.options.headers[ContentTypeHeader] == JsonMediaType
    ensures r.url == (if UsesProxy(environment) then ProxyPrefix else "") + lookup(environment, false) + TokenPath
    ensures r.options.headers.Keys == {ContentTypeHeader} + (if UsesProxy(environment) then {OriginHeader} else {})
    ensures UsesProxy(environment) ==> r.options.headers[OriginHeader] == origin
  {
    var direct := HttpRequest(lookup(environment, false) + TokenPath,
                              RequestOptions("POST", map[ContentTypeHeader := JsonMediaType], Some(TokenRequestBody)));
    Routed(direct, environment, origin)
  }

  /** A response normalised as the sandbox displays it, whichever transport produced it. */
  datatype ApiResult = ApiResult(status: int, statusText: string, headers: map<string, string>, data: Json)

  /** The outcome of a request together with decoding its JSON body: a
      result, or an exception with its message. */
  datatype FetchOutcome = Responded(result: ApiResult) | Threw(message: string)

  /** The live network, seen as the outcome it gives a wire request. */
  type Network = HttpRequest -> FetchOutcome

  /** `mockApiServer.makeRequest(url, options)` followed by decoding its body. */
  type MockServer = (string, RequestOptions) -> FetchOutcome

  /** The warning sign (U+26A0 with emoji presentation) that opens the CORS warning. */
  const WarningSign: string := "\U{26A0}\U{FE0F}"
  const CorsWarning: string :=
    WarningSign + " CORS Error: Real API call blocked. Using mock data instead. For production use, consider using a backend proxy or server-side API calls."
  const ApiCallErrorPrefix: string := "Error making API call: "

  /** What an API call leaves to display. */
  datatype CallState = CallState(response: Option<ApiResult>, error: Option<string>)

  /** `makeApiCall`'s outcome once the request is built. */
  function ApiCallOutcome(local: bool, req: HttpRequest, environment: string, origin: string,
                          network: Network, mock: MockServer): CallState
  {
    if local then
      match mock(req.url, req.options)
      case Responded(r) => CallState(Some(r), None)
      case Threw(m) => CallState(None, Some(ApiCallErrorPrefix + m))
    else
      match network(Routed(req, environment, origin))
      case Responded(r) => CallState(Some(r), None)
      case Threw(_) =>
        match mock(req.url, req.options)
        case Responded(r) => CallState(Some(r), Some(CorsWarning))
        case Threw(m) => CallState(None, Some(ApiCallErrorPrefix + m))
  }

  /** On a loopback host the mock server answers and the network plays no
      part. Elsewhere the live answer is shown when there is one; when the
      live call fails the mock answer is shown with the CORS warning. A call
      shows no response exactly when it shows an `Error making API call`
      error, and a warning accompanies a response only in the fallback. */
  lemma ApiCallOutcomeCases(local: bool, req: HttpRequest, environment: string, origin: string,
                            network: Network, mock: MockServer)
    ensures var s := ApiCallOutcome(local, req, environment, origin, network, mock);
            && (s.response.None? <==> s.error.Some? && ApiCallErrorPrefix <= s.error.value)
            && (s.response.Some? && s.error.Some? ==>
                  && s.error.value == CorsWarning
                  && !local
                  && network(Routed(req, environment, origin)).Threw?
                  && mock(req.url, req.options) == Responded(s.response.value))
    ensures local ==>
              forall other: Network :: ApiCallOutcome(local, req, environment, origin, other, mock)
                                       == ApiCallOutcome(local, req, environment, origin, network, mock)
    ensures local && mock(req.url, req.options).Responded? ==>
              ApiCallOutcome(local, req, environment, origin, network, mock)
              == CallState(Some(mock(req.url, req.options).result), None)
    ensures !local && network(Routed(req, environment, origin)).Responded? ==>
              ApiCallOutcome(local, req, environment, origin, network, mock)
              == CallState(Some(network(Routed(req, environment, origin)).result), None)
    ensures !local && network(Routed(req, environment, origin)).Threw? && mock(req.url, req.options).Responded? ==>
              ApiCallOutcome(local, req, environment, origin, network, mock)
              == CallState(Some(mock(req.url, req.options).result), Some(CorsWarning))
    ensures (local || network(Routed(req, environment, origin)).Threw?) && mock(req.url, req.options).Threw? ==>
              ApiCallOutcome(local, req, environment, origin, network, mock)
              == CallState(None, Some(ApiCallErrorPrefix + mock(req.url, req.options).message))
  {
    assert CorsWarning[0] == WarningSign[0] && ApiCallErrorPrefix[0] == 'E';
  }

  const MockPartnerToken: string := "mock_partner_token_for_local_development"
  const TokenFailedPrefix: string := "Failed to get partner token: "
  const TokenErrorPrefix: string := "Error fetching partner token: "
  const UnknownError: string := "Unknown error"

  /** The message a JavaScript engine (V8) gives when `data.status` is read from `null`. */
  const NullStatusMessage: string := "Cannot read properties of null (reading 'status')"

  /** The token a decoded token response grants: present only when `status`
      is the string "success" and `data.jwttoken` is truthy. */
  function GrantedToken(data: Json): (t: Option<Json>)
    ensures t.Some? ==> Truthy(t.value) && Member(data, "status") == Some(JStr("success"))
    ensures t.Some? ==> data.JObj? && "data" in data.fields && data.fields["data"].JObj?
                        && "jwttoken" in data.fields["data"].fields && t.value == data.fields["data"].fields["jwttoken"]
    ensures t.Some? <==>
              && Member(data, "status") == Some(JStr("success"))
              && Member(data, "data").Some?
              && Member(Member(data, "data").value, "jwttoken").Some?
              && Truthy(Member(Member(data, "data").value, "jwttoken").value)
  {
    if Member(data, "status") != Some(JStr("success")) then None
    else match Member(data, "data")
      case None => None
      case Some(inner) =>
        match Member(inner, "jwttoken")
        case Some(jwt) => if Truthy(jwt) then Some(jwt) else None
        case None => None
  }

  /** The reason given when a decoded token response grants nothing: its
      `message` when that is truthy, "Unknown error" otherwise. */
  function RefusalReason(data: Json): (r: string)
    ensures Member(data, "message").Some? && Truthy(Member(data, "message").value) ==>
              r == Display(Member(data, "message").value)
    ensures Member(data, "message").None? || !Truthy(Member(data, "message").value) ==> r == UnknownError
  {
    match Member(data, "message")
    case Some(m) => if Truthy(m) then Display(m) else UnknownError
    case None => UnknownError
  }

  /** What a token fetch leaves: the held token and the error shown. */
  datatype TokenState = TokenState(token: string, error: Option<string>)

  /** `fetchPartnerToken`'s outcome given the token `held` before the call. */
  function TokenOutcome(local: bool, req: HttpRequest, network: Network, held: string): (s: TokenState)
    ensures local ==> s == TokenState(MockPartnerToken, None)
    ensures s.error.None? <==>
              local || (network(req).Responded? && GrantedToken(network(req).result.data).Some?)
    ensures s.error.None? && !local ==> s.token == Display(GrantedToken(network(req).result.data).value)
    ensures s.error.Some? ==>
              && s.token == held
              && (TokenFailedPrefix <= s.error.value || TokenErrorPrefix <= s.error.value)
    ensures !local && network(req).Threw? ==> s == TokenState(held, Some(TokenErrorPrefix + network(req).message))
    ensures !local && network(req).Responded? && !network(req).result.data.JNull?
            && GrantedToken(network(req).result.data).None? ==>
              s == TokenState(held, Some(TokenFailedPrefix + RefusalReason(network(req).result.data)))
    ensures !local && network(req).Responded? && network(req).result.data.JNull? ==>
              s == TokenState(held, Some(TokenErrorPrefix + NullStatusMessage))
  {
    if local then TokenState(MockPartnerToken, None)
    else
      match network(req)
      case Threw(m) => TokenState(held, Some(TokenErrorPrefix + m))
      case Responded(r) =>
        if r.data.JNull? then TokenState(held, Some(TokenErrorPrefix + NullStatusMessage))
        else match GrantedToken(r.data)
          case Some(jwt) => TokenState(Display(jwt), None)
          case None => TokenState(held, Some(TokenFailedPrefix + RefusalReason(r.data)))
  }

  /** A token obtained by a fetch is the one the next request to a partner
      endpoint carries; on a loopback host that is the mock token. */
  lemma FetchedTokenAuthorizesPartnerCalls(local: bool, req: HttpRequest, network: Network, held: string,
                                           endpoint: string)
    requires IsPartnerApi(endpoint)
    ensures var s := TokenOutcome(local, req, network, held);
            s.error.None? && s.token != "" ==> AuthToken(endpoint, s.token) == s.token
    ensures local ==> AuthToken(endpoint, TokenOutcome(local, req, network, held).token) == MockPartnerToken
  {
  }
}
