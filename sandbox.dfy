/** The sandbox component's state and the events that change it: choosing
    an API, resetting or editing the draft, changing the selections,
    running a call and fetching a partner token. Each asynchronous event
    is taken as one step from the state before it to the state after it. */
module Sandbox {
  import opened Wrappers
  import opened Json
  import opened RequestBuilder
  import opened Transport

  class ApiSandbox {
    /** The page's host name and origin, and the environment registry. */
    const hostname: string
    const origin: string
    const lookup: BaseUrlLookup

    /** The API currently shown, as passed in by the hosting page. */
    var api: Option<ApiDescriptor>
    var selectedMethod: string
    var selectedEnvironment: string
    var requestData: Draft
    var response: Option<ApiResult>
    var loading: bool
    var error: Option<string>
    var partnerToken: string
    var tokenLoading: bool
    var tokenError: Option<string>

    /** Every request the sandbox has put on the live network, in order. */
    ghost var sent: seq<HttpRequest>

    /** Between events no call or token fetch is in progress. */
    ghost predicate Idle()
      reads this
    {
      !loading && !tokenLoading
    }

    /** The component as first rendered, before its API effect has run. */
    constructor (api: Option<ApiDescriptor>, hostname: string, origin: string, lookup: BaseUrlLookup)
      ensures Idle()
      ensures this.api == api && this.hostname == hostname && this.origin == origin && this.lookup == lookup
      ensures selectedMethod == InitialMethod && selectedEnvironment == InitialEnvironment
      ensures requestData == map[] && response.None? && error.None?
      ensures partnerToken == "" && tokenError.None? && sent == []
    {
      this.api := api;
      this.hostname := hostname;
      this.origin := origin;
      this.lookup := lookup;
      selectedMethod := InitialMethod;
      selectedEnvironment := InitialEnvironment;
      requestData := map[];
      response := None;
      loading := false;
      error := None;
      partnerToken := "";
      tokenLoading := false;
      tokenError := None;
      sent := [];
    }

    /** The Reset button, and the second half of choosing an API: the draft
        is rebuilt from the current API's sample request. */
    method InitializeRequestData()
      modifies this`requestData
      ensures api.Some? ==> requestData == InitialDraft(api.value.sampleRequest)
      ensures api.None? ==> requestData == old(requestData)
    {
      if api.Some? {
        requestData := BuildInitialDraft(api.value.sampleRequest);
      }
    }

    /** The effect run when the hosting page passes an API: the method falls
        back to the API's first one and the draft is rebuilt. */
    method ApiChanged(newApi: Option<ApiDescriptor>)
      modifies this`api, this`selectedMethod, this`requestData
      ensures api == newApi
      ensures newApi.Some? ==>
                selectedMethod == MethodFor(newApi.value.methods)
                && requestData == InitialDraft(newApi.value.sampleRequest)
      ensures newApi.None? ==> selectedMethod == old(selectedMethod) && requestData == old(requestData)
    {
      api := newApi;
      if newApi.Some? {
        selectedMethod := MethodFor(newApi.value.methods);
        InitializeRequestData();
      }
    }

    /** A form field edited by the user: only that field of the draft changes. */
    method HandleInputChange(field: string, value: Json)
      modifies this`requestData
      ensures requestData == old(requestData)[field := value]
      ensures forall k :: k != field ==> (k in requestData <==> k in old(requestData))
      ensures forall k :: k != field && k in requestData ==> requestData[k] == old(requestData)[k]
    {
      requestData := requestData[field := value];
    }

    method SelectEnvironment(environment: string)
      modifies this`selectedEnvironment
      ensures selectedEnvironment == environment
    {
      selectedEnvironment := environment;
    }

    method SelectMethod(verb: string)
      modifies this`selectedMethod
      ensures selectedMethod == verb
    {
      selectedMethod := verb;
    }

    /** The partner token typed in by the user. */
    method EditPartnerToken(token: string)
      modifies this`partnerToken
      ensures partnerToken == token
    {
      partnerToken := token;
    }

    /** The request the current selections and draft produce. */
    function CurrentRequest(): HttpRequest
      reads this`api, this`selectedEnvironment, this`selectedMethod, this`requestData, this`partnerToken
      requires api.Some?
    {
      BuildRequest(lookup, selectedEnvironment, api.value.endpoint, selectedMethod, requestData, partnerToken)
    }

    /** The Test API button (disabled while a call runs). Without an API
        nothing happens; otherwise the call's outcome replaces the previous
        response and error, a live request is sent only off a loopback host,
        and the loading flag ends cleared. */
    method MakeApiCall(network: Network, mock: MockServer)
      requires Idle()
      modifies this`response, this`error, this`loading, this`sent
      ensures Idle()
      ensures old(api).None? ==> response == old(response) && error == old(error) && sent == old(sent)
      ensures api.Some? ==>
                && CallState(response, error)
                   == ApiCallOutcome(IsLocalHost(hostname), CurrentRequest(), selectedEnvironment, origin, network, mock)
                && sent == old(sent) + if IsLocalHost(hostname) then [] else [Routed(CurrentRequest(), selectedEnvironment, origin)]
    {
      if api.None? {
        return;
      }
      loading := true;
      error := None;
      response := None;
      var req := CurrentRequest();
      ghost var expected := ApiCallOutcome(IsLocalHost(hostname), req, selectedEnvironment, origin, network, mock);
      if IsLocalHost(hostname) {
        var answer := mock(req.url, req.options);
        match answer {
          case Responded(r) => response := Some(r);
          case Threw(m) => error := Some(ApiCallErrorPrefix + m);
        }
      } else {
        var wire := Routed(req, selectedEnvironment, origin);
        sent := sent + [wire];
        var live := network(wire);
        match live {
          case Responded(r) => response := Some(r);
          case Threw(_) =>
            var fallback := mock(req.url, req.options);
            match fallback {
              case Responded(r) =>
                response := Some(r);
                error := Some(CorsWarning);
              case Threw(m) => error := Some(ApiCallErrorPrefix + m);
            }
        }
      }
      loading := false;
      assert CallState(response, error) == expected;
    }

    /** The Get Token button (disabled while a fetch runs). On a loopback
        host the mock token is held; otherwise one token request is sent and
        its answer either replaces the token or leaves it and reports why. */
    method FetchPartnerToken(network: Network)
      requires Idle()
      modifies this`partnerToken, this`tokenError, this`tokenLoading, this`sent
      ensures Idle()
      ensures TokenState(partnerToken, tokenError)
              == TokenOutcome(IsLocalHost(hostname), TokenRequest(lookup, selectedEnvironment, origin), network,
                              old(partnerToken))
      ensures sent == old(sent) + if IsLocalHost(hostname) then [] else [TokenRequest(lookup, selectedEnvironment, origin)]
    {
      tokenLoading := true;
      tokenError := None;
      if IsLocalHost(hostname) {
        partnerToken := MockPartnerToken;
        tokenError := None;
      } else {
        var req := TokenRequest(lookup, selectedEnvironment, origin);
        sent := sent + [req];
        var answer := network(req);
        match answer {
          case Threw(m) => tokenError := Some(TokenErrorPrefix + m);
          case Responded(r) =>
            if r.data.JNull? {
              tokenError := Some(TokenErrorPrefix + NullStatusMessage);
            } else {
              var granted := GrantedToken(r.data);
              if granted.Some? {
                partnerToken := Display(granted.value);
                tokenError := None;
              } else {
                tokenError := Some(TokenFailedPrefix + RefusalReason(r.data));
              }
            }
        }
      }
      tokenLoading := false;
    }

    /** The curl command shown for the current state; `pretty` stands for
        the indented JSON serialiser. */
    function CurlText(pretty: Draft -> string): (r: string)
      reads this
      ensures api.None? ==> r == ""
      ensures api.Some? ==> CurlHead(selectedMethod, CurrentRequest().url,
                                     AuthToken(api.value.endpoint, partnerToken)) <= r
    {
      CurlCommand(api, lookup, selectedEnvironment, selectedMethod, requestData, partnerToken, pretty)
    }
  }
}
