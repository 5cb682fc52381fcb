/** The request builder: what the sandbox derives from the selected API,
    environment and method and from the user's draft: the default method,
    the initial draft, the bearer token, the HTTP request and the
    equivalent curl command. */
module RequestBuilder {
  import opened Wrappers
  import opened Json
  import opened TestData

  /** One testable endpoint as the hosting page describes it. */
  datatype ApiDescriptor = ApiDescriptor(
    endpoint: string,
    methods: seq<string>,
    sampleRequest: Option<map<string, Json>>)

  /** The editable request payload: field name to value. */
  type Draft = map<string, Json>

  /** `getEnvironmentUrl(environment, isVersioned)`, the external environment registry. */
  type BaseUrlLookup = (string, bool) -> string

  const InitialMethod: string := "POST"
  const InitialEnvironment: string := "uat"

  /** The method selected when an API is chosen: its first method, or POST
      when the list is empty or its first entry is the empty string. */
  function MethodFor(methods: seq<string>): (m: string)
    ensures m != ""
    ensures m == InitialMethod || (|methods| > 0 && m == methods[0])
    ensures |methods| > 0 && methods[0] != "" ==> m == methods[0]
  {
    if |methods| > 0 && methods[0] != "" then methods[0] else InitialMethod
  }

  /** The draft built from a sample request: the same keys, each placeholder
      replaced by its catalogue's canonical value, every other value kept. */
  function InitialDraft(sample: Option<Draft>): (d: Draft)
    ensures d.Keys == if sample.Some? then sample.value.Keys else {}
    ensures forall k :: k in d ==> !IsPlaceholder(d[k])
    ensures forall k :: k in d ==>
              sample.Some? && k in sample.value && (d[k] == sample.value[k] <==> !IsPlaceholder(sample.value[k]))
    ensures forall k :: k in d ==> sample.Some? && k in sample.value && d[k] == DraftValue(sample.value[k])
  {
    match sample
    case None => map[]
    case Some(m) => map k | k in m :: DraftValue(m[k])
  }

  /** `initializeRequestData`'s loop: one sample entry at a time. */
  method BuildInitialDraft(sample: Option<Draft>) returns (draft: Draft)
    ensures draft == InitialDraft(sample)
  {
    draft := map[];
    if sample.Some? {
      var m := sample.value;
      var pending := m.Keys;
      while pending != {}
        invariant pending <= m.Keys
        invariant draft.Keys == m.Keys - pending
        invariant forall k :: k in draft ==> draft[k] == DraftValue(m[k])
        decreases pending
      {
        var k :| k in pending;
        draft := draft[k := DraftValue(m[k])];
        pending := pending - {k};
      }
    }
  }

  const SandboxToken: string := "sandbox_token_12345"

  /** Endpoints of the partner API family, which accept a partner token. */
  predicate IsPartnerApi(endpoint: string) {
    "/cardgenius" <= endpoint || "v1-" <= endpoint
  }

  /** Endpoints of the versioned API family, which may live on another host. */
  predicate IsVersionedApi(endpoint: string) {
    "v1-" <= endpoint
  }

  /** The bearer token a request carries: the partner token for a partner
      endpoint when one is held, the sandbox token otherwise. */
  function AuthToken(endpoint: string, partnerToken: string): (t: string)
    ensures t != ""
    ensures IsPartnerApi(endpoint) && partnerToken != "" ==> t == partnerToken
    ensures t != SandboxToken ==> IsPartnerApi(endpoint) && t == partnerToken
  {
    if IsPartnerApi(endpoint) && partnerToken != "" then partnerToken else SandboxToken
  }

  /** The options of a `fetch` call; `body` is the value that is serialised. */
  datatype RequestOptions = RequestOptions(verb: string, headers: map<string, string>, body: Option<Json>)

  datatype HttpRequest = HttpRequest(url: string, options: RequestOptions)

  const ContentTypeHeader: string := "Content-Type"
  const AuthorizationHeader: string := "Authorization"
  const JsonMediaType: string := "application/json"

  /** The request `makeApiCall` builds before choosing a transport. */
  function BuildRequest(lookup: BaseUrlLookup, environment: string, endpoint: string, verb: string,
                        draft: Draft, partnerToken: string): (r: HttpRequest)
    ensures r.url == lookup(environment, IsVersionedApi(endpoint)) + endpoint
    ensures |endpoint| <= |r.url| && r.url[|r.url| - |endpoint|..] == endpoint
    ensures r.options.verb == verb
    ensures r.options.headers.Keys == {ContentTypeHeader, AuthorizationHeader}
    ensures r.options.headers[ContentTypeHeader] == JsonMediaType
    ensures r.options.headers[AuthorizationHeader] == "Bearer " + AuthToken(endpoint, partnerToken)
    ensures r.options.body.Some? <==> verb != "GET"
    ensures r.options.body.Some? ==> r.options.body.value == JObj(draft)
  {
    var url := lookup(environment, IsVersionedApi(endpoint)) + endpoint;
    var headers := map[ContentTypeHeader := JsonMediaType,
                       AuthorizationHeader := "Bearer " + AuthToken(endpoint, partnerToken)];
    HttpRequest(url, RequestOptions(verb, headers, if verb != "GET" then Some(JObj(draft)) else None))
  }

  /** The first three lines of the curl command: method, URL and both headers. */
  function CurlHead(verb: string, url: string, token: string): string {
    "curl -X " + verb + " \"" + url + "\" \\\n"
    + "  -H \"Content-Type: application/json\" \\\n"
    + "  -H \"Authorization: Bearer " + token + "\""
  }

  /** What separates the head of a curl command from its payload. */
  const DataFlag: string := " \\\n  -d '"

  /** The curl layout: the head, then a `-d` line when there is a payload. */
  function RenderCurl(verb: string, url: string, token: string, payload: Option<string>): (r: string)
    ensures CurlHead(verb, url, token) <= r
    ensures |r| == |CurlHead(verb, url, token)| <==> payload.None?
    ensures payload.Some? ==>
              var start := |CurlHead(verb, url, token)| + |DataFlag|;
              start <= |r| && r[start - |DataFlag|..start] == DataFlag && payload.value <= r[start..]
    ensures payload.Some? ==>
              |r| == |CurlHead(verb, url, token)| + |DataFlag| + |payload.value| + 1 && r[|r| - 1] == '\''
  {
    var head := CurlHead(verb, url, token);
    match payload
    case None => head
    case Some(p) =>
      var r := head + DataFlag + p + "'";
      assert r[|head|..|head| + |DataFlag|] == DataFlag;
      assert r[|head| + |DataFlag|..] == p + "'";
      r
  }

  /** `generateCurlCommand`: the curl text for the request the sandbox would
      send, with the same URL, method and bearer token; `pretty` stands for
      the indented JSON serialiser. The payload appears only for a non-GET
      method with a non-empty draft. */
  function CurlCommand(api: Option<ApiDescriptor>, lookup: BaseUrlLookup, environment: string, verb: string,
                       draft: Draft, partnerToken: string, pretty: Draft -> string): (r: string)
    ensures api.None? ==> r == ""
    ensures api.Some? ==>
              var req := BuildRequest(lookup, environment, api.value.endpoint, verb, draft, partnerToken);
              var token := AuthToken(api.value.endpoint, partnerToken);
              && req.options.headers[AuthorizationHeader] == "Bearer " + token
              && r == RenderCurl(req.options.verb, req.url, token,
                                 if req.options.body.Some? && |draft| > 0 then Some(pretty(draft)) else None)
    ensures api.Some? ==>
              (|r| > |CurlHead(verb, lookup(environment, IsVersionedApi(api.value.endpoint)) + api.value.endpoint,
                                AuthToken(api.value.endpoint, partnerToken))|
               <==> verb != "GET" && |draft| > 0)
  {
    match api
    case None => ""
    case Some(a) =>
      var url := lookup(environment, IsVersionedApi(a.endpoint)) + a.endpoint;
      var token := AuthToken(a.endpoint, partnerToken);
      RenderCurl(verb, url, token, if verb != "GET" && |draft| > 0 then Some(pretty(draft)) else None)
  }
}
