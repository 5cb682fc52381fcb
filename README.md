# API Sandbox: request construction, transport fallback and token provider

This project models the decision logic of the `ApiSandbox` React component
(`src/components/ApiSandbox.jsx`). The component lets a developer pick an API,
fill in a form, and send a test request to the `uat` or `production`
environment. The model covers:

- **Field classification.** A form field whose lower-cased name mentions
  `card`, `bank`, `user`/`mobile` or `loan` (checked in that order) gets a
  dropdown of that fixture catalogue. Any other field gets a free-text input.
- **Draft initialisation and editing.** A sample request becomes the editable
  draft. Sample strings that mention a keyword are replaced by the first
  fixture's id or mobile number. This check is case-sensitive. An edit changes
  one field of the draft.
- **Request building.** The URL, the headers and the bearer token are built
  here. The partner token is used only for partner endpoints (`/cardgenius…`,
  `v1-…`) and only when one is held. A body is sent for every method except
  GET. The equivalent curl command uses the same token.
- **Transport selection.** On a loopback host every call goes to the mock
  server. Elsewhere, `uat` and `production` calls go through the CORS proxy
  with an `Origin` header. A failed live call falls back to the mock server
  and shows a warning.
- **Token provider.** On a loopback host the fetch gives a fixed mock token.
  Elsewhere the token is accepted only from a `status: "success"` response
  that carries `data.jwttoken`. Any other answer keeps the old token and
  reports an error.

Modules, one per concern:

| file | module | contents |
|---|---|---|
| `wrappers.dfy` | `Wrappers` | `Option` |
| `json.dfy` | `Json` | JSON values, JavaScript truthiness, `String()` of a value, property reads |
| `text.dfy` | `Text` | `includes`, `toLowerCase` (prefix tests use Dafny's `p <= s`) |
| `test_data.dfy` | `TestData` | fixtures, dropdown options, classification and its rule table, placeholder replacement |
| `request_builder.dfy` | `RequestBuilder` | API descriptor, default method, initial draft, bearer token, request, curl text |
| `transport.dfy` | `Transport` | proxy routing, token request, outcome of an API call and of a token fetch |
| `sandbox.dfy` | `Sandbox` | class `ApiSandbox`: the component's state fields and one method per event |

These collaborators become parameters:

- the environment registry `getEnvironmentUrl` is a function-valued field, `lookup`;
- the page's host name and origin are fields;
- the live network (`fetch` followed by `response.json()`) and the mock server
  (`mockApiServer.makeRequest` followed by `.json()`) are functions from a
  request to an outcome, passed to each call;
- the indented `JSON.stringify` used by the curl text is a function
  parameter, `pretty`.

Each property is proved for every choice of these collaborators. A ghost
field, `sent`, records every request put on the live network. It shows
that nothing is sent from a loopback host and that a call makes one live
attempt with no retry.

Some behaviour of the code worth knowing when reading the model:

- The sample request is read from the API descriptor itself; per-method
  variants are not consulted.
- An environment other than `uat` or `production` is sent directly, without
  the proxy.
- A call whose mock fallback also fails is reported as
  `Error making API call: …`, so a call does not always succeed.
- The curl text is not claimed to round-trip: single quotes inside the
  payload are not escaped.

## Model

| member | source | states |
|---|---|---|
| `Text.ContainsIffOccurs` | src/components/ApiSandbox.jsx:130-145 | `includes` holds exactly when some window of the text spells the keyword |
| `Text.ToLower` | src/components/ApiSandbox.jsx:130 | `toLowerCase` keeps the length and lowers each character in place |
| `Text.ToLowerIdempotent` | src/components/ApiSandbox.jsx:130-145 | lowering a field name twice is lowering it once |
| `TestData.CatalogueOptions` | src/components/ApiSandbox.jsx:104-149 | each catalogue offers all three of its fixtures as dropdown entries |
| `TestData.FirstFixtureValue` | src/components/ApiSandbox.jsx:176-183 | the value that replaces a placeholder is the value of the first entry of that catalogue's dropdown |
| `TestData.Classify` | src/components/ApiSandbox.jsx:176-186 | a text is left unclassified exactly when it contains none of the five keywords |
| `TestData.FirstMatchIsFirst` | src/components/ApiSandbox.jsx:128-154 | the rule table picks a catalogue exactly when one of its rules fires and no earlier rule fires; it picks nothing exactly when no rule fires |
| `TestData.ClassifyFollowsRuleTable` | src/components/ApiSandbox.jsx:128-154 | the if-chain card > bank > user/mobile > loan is the ordered rule table read from the top |
| `TestData.FieldOptions` | src/components/ApiSandbox.jsx:128-155 | a field gets no entries (a free-text input) exactly when its lower-cased name has no keyword; otherwise it gets the catalogue of the first matching rule |
| `TestData.FieldOptionsIgnoreCase` | src/components/ApiSandbox.jsx:130-145 | the dropdown depends on the field name only up to letter case |
| `TestData.CardNamesGetCardOptions` | src/components/ApiSandbox.jsx:130-134 | a name mentioning "card" in any case gets the card entries, even if it also mentions "bank" |
| `TestData.FixtureValuesAreNotPlaceholders` | src/components/ApiSandbox.jsx:116-124 | no canonical fixture value (ids, mobile 9876543210) itself mentions a keyword |
| `TestData.DraftValue` | src/components/ApiSandbox.jsx:172-189 | a sample value is changed exactly when it is a placeholder string; the result is never a placeholder; a placeholder becomes the first option value of the catalogue the rule table picks for it |
| `TestData.PlaceholderReplacements` | src/components/ApiSandbox.jsx:176-186 | card, bank and loan placeholders become 1 and user/mobile placeholders become "9876543210", in that priority; other strings stay |
| `TestData.CaseSensitivityContrast` | src/components/ApiSandbox.jsx:130-186 | "CARD" as a field name gets the card dropdown, but as a sample value it is kept verbatim |
| `RequestBuilder.MethodFor` | src/components/ApiSandbox.jsx:157-159 | the selected method is the API's first method, or POST when that is missing or empty; never empty |
| `RequestBuilder.InitialDraft` | src/components/ApiSandbox.jsx:164-193 | the draft has exactly the sample's keys (none without a sample); each value is the sample value with placeholders replaced (`DraftValue`); no value is a placeholder; a value equals its sample value exactly when that was not a placeholder |
| `RequestBuilder.BuildInitialDraft` | src/components/ApiSandbox.jsx:167-191 | the key-by-key loop builds exactly the initial draft |
| `RequestBuilder.AuthToken` | src/components/ApiSandbox.jsx:214-216 | the partner token is used whenever the endpoint is a partner one and a token is held, and only then; otherwise the sandbox token; never empty |
| `RequestBuilder.BuildRequest` | src/components/ApiSandbox.jsx:211-227 | the URL is the environment's base URL (looked up with the versioned-family flag `v1-`) followed by the endpoint; headers are exactly Content-Type JSON and the bearer token; a body (the draft) is present iff the method is not GET |
| `RequestBuilder.RenderCurl` | src/components/ApiSandbox.jsx:313-319 | the curl text starts with the method/URL/header lines; with a payload it continues with the `-d '` flag, the payload and one closing quote, and nothing else; without one it is just the head |
| `RequestBuilder.CurlCommand` | src/components/ApiSandbox.jsx:303-322 | empty without an API; otherwise it renders the built request's method, URL and bearer token, and has a `-d` payload iff the method is not GET and the draft is non-empty |
| `Transport.Routed` | src/components/ApiSandbox.jsx:252-263 | uat/production requests get the proxy prefix and an `Origin` header; other environments are sent unchanged; method, body and other headers are kept |
| `Transport.TokenRequest` | src/components/ApiSandbox.jsx:70-86 | the token request is a POST of the fixed api-key body to `/partner/token` on the non-versioned base URL, proxied like a call; its headers are exactly Content-Type JSON plus, for uat/production, `Origin`; no bearer token |
| `Transport.ApiCallOutcomeCases` | src/components/ApiSandbox.jsx:229-291 | loopback: the mock answers whatever the network would do; live success: its result and no error; live failure: the mock result plus the CORS warning; when the mock throws (on loopback, or after a failed live call) no response and `Error making API call: ` followed by the thrown message; no response exactly when such an error is shown |
| `Transport.GrantedToken` | src/components/ApiSandbox.jsx:90-91 | a token is granted iff `status` is the string "success" and `data.jwttoken` is truthy, and the granted token is that `data.jwttoken` |
| `Transport.RefusalReason` | src/components/ApiSandbox.jsx:94 | the refusal reason is the response's `message` when that is truthy, and "Unknown error" otherwise |
| `Transport.TokenOutcome` | src/components/ApiSandbox.jsx:58-98 | loopback: exactly the mock token; otherwise the error is cleared iff a token is granted; on any error the held token stays; a refusal reports `Failed to get partner token: ` and the refusal reason, a thrown or `null` answer `Error fetching partner token: ` and its message |
| `Transport.FetchedTokenAuthorizesPartnerCalls` | src/components/ApiSandbox.jsx:65-91 | a successfully fetched non-empty token is the bearer token of later partner calls |
| `Sandbox.ApiSandbox.constructor` | src/components/ApiSandbox.jsx:40-50 | initial state: method POST, environment uat, empty draft and token, no response or errors, nothing loading |
| `Sandbox.ApiSandbox.InitializeRequestData` | src/components/ApiSandbox.jsx:164-194 | with an API the draft becomes its initial draft; without one nothing changes |
| `Sandbox.ApiSandbox.ApiChanged` | src/components/ApiSandbox.jsx:157-162 | a new API sets the default method and rebuilds the draft; an absent one changes nothing else |
| `Sandbox.ApiSandbox.HandleInputChange` | src/components/ApiSandbox.jsx:196-201 | the edited field takes the new value; every other key and value of the draft is unchanged |
| `Sandbox.ApiSandbox.SelectEnvironment` | src/components/ApiSandbox.jsx:470-477 | the environment selection is replaced |
| `Sandbox.ApiSandbox.SelectMethod` | src/components/ApiSandbox.jsx:483-490 | the method selection is replaced |
| `Sandbox.ApiSandbox.EditPartnerToken` | src/components/ApiSandbox.jsx:505-507 | a typed token replaces the held one |
| `Sandbox.ApiSandbox.MakeApiCall` | src/components/ApiSandbox.jsx:203-295 | without an API nothing changes; otherwise response and error are the call outcome, one live request is sent only off a loopback host, and loading ends false |
| `Sandbox.ApiSandbox.FetchPartnerToken` | src/components/ApiSandbox.jsx:54-102 | token and token error are the token outcome from the held token; one token request is sent only off a loopback host; token loading ends false |
| `Sandbox.ApiSandbox.CurlText` | src/components/ApiSandbox.jsx:303-322 | the displayed curl text is empty without an API and otherwise starts with the current request's method, URL and token lines |

## Left out

- Rendering: MUI layout, tabs, accordions, the test-data reference panel, and how the form picks its schema (`api[method]` for multi-method APIs). These are presentation only.
- Clipboard writes, the `copied` flag and its timer, and the artificial `setTimeout` delays. These are browser side effects and timing.
- Intermediate states while a call is awaited (loading shown, response cleared), and late responses that land after the selection changed. Each event is modelled as one atomic step, so these concurrency effects are not captured.
- `getEnvironmentUrl`, `mockApiServer`, `fetch`, `response.json()` and the header conversion `Object.fromEntries`. These are external and appear only as parameters: the network and the mock return either a normalised result or an exception message. An exception thrown by `getEnvironmentUrl` itself is not modelled.
- `JSON.stringify` is not modelled as text. A request body is the JSON value that would be serialised, and the curl payload comes from the `pretty` parameter. The curl text is not shown to round-trip, because single quotes in the payload are not escaped.
- RequestBuilder.Draft: the draft is a map, so the insertion order of its keys (from `Object.keys` of the sample and from later edits) is not kept. `JSON.stringify` follows that order in the request body and the curl payload, so the model treats both as depending only on the draft's entries.
- Text.ToLower: only ASCII `A`–`Z` are lowered. Other Unicode case mappings of `toLowerCase` are not modelled, for example the Kelvin sign lowering to `k`.
- Json: numbers are integers. Floating-point values, `NaN` and their string forms are not modelled.
- RequestBuilder.ApiDescriptor: the endpoint is always present. A missing endpoint, which the source would turn into the text `undefined` in the URL, is not modelled.
- Sandbox.ApiSandbox.FetchPartnerToken and Transport.TokenOutcome: a granted `jwttoken` that is not a string is held as its string form. For an array such as `[]`, whose string form is empty, the source would still use it as a truthy bearer token, but the model falls back to the sandbox token.
- Transport.TokenOutcome: when the decoded token response is `null`, the error text is V8's "Cannot read properties of null (reading 'status')". Other engines word this differently.
- The `try`/`catch` in `getTestDataOptions` never fires, because field names are always strings. It is not modelled.
- `vite.config.js` is build configuration with no behaviour.
