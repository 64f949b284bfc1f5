# aprs-api-relay in Dafny

A model of the APRS.fi API proxy, a single HTTP request handler in `index.js`.
The handler:

- answers CORS preflights and health checks itself;
- refuses non-GET proxy requests, and proxy requests when no `APRS_API_KEY` is configured;
- replaces any client-supplied `apikey` query parameter with the server's credential;
- validates the `what`/`name`/`lat` parameters;
- forwards the request once to `https://api.aprs.fi/api/get`;
- translates the upstream outcome (HTTP error, `result: "fail"`, success, timeout, any other fault) into a response. Every response carries the four cross-origin headers.

Modules:

- `Params` (params.dfy): the URLSearchParams entry list. This is an ordered multimap of name/value pairs with `get`, `delete` and `set`. The `SearchParams` class holds the list as a field that its `Delete` and `Set` methods update in place. Each method is proved against a specification function (`Without`, `SetValue`).
- `Validation` (validation.dfy): `validateRequest`, together with a position-based reference definition of the parameter lists it accepts.
- `Responses` (responses.dfy): the CORS header set, `handleOptions`, `handleHealth`, `errorResponse` and the cache policy. It also defines the decimal rendering of a status that the error message interpolates.
- `Sanitization` (sanitization.dfy): `params.delete('apikey')` followed by `params.set('apikey', key)`.
- `Handler` (handler.dfy): the `handleRequest` cascade, including its catch branch. The upstream outcome is an argument (`Timeout | Fault | Http(status, statusText, payload)`). The result records the upstream request the handler would issue, if any.

Behaviour kept as the code has it:

- The health route (`/health`, or `/` with an empty search string) answers every method except OPTIONS (index.js:98-100).
- The health check reads `url.search`, which the URL standard leaves empty for a bare `?`. The model takes "search is empty" as an input.
- `validateRequest` runs on the list after the credential is injected. `ValidateIgnoresCredential` proves that this makes no difference.
- `lat` alone satisfies the `loc`/`wx` check, and `lng` is never read. This is kept as written.
- HEAD is advertised in `Access-Control-Allow-Methods` but refused with 405 off the health route. This is kept as written and stated by `HeadAdvertisedButRefused`.
- A non-2xx upstream status is mirrored only when `new Response` accepts it with a body. For 304, a null-body status, the constructor throws and the catch answers 500 "Internal server error…" (index.js:142-143, 176-178).

## Model

| member | source | states |
|---|---|---|
| Params.FindIndex | index.js:65 | the position found holds the first entry with that name, and no earlier entry has it |
| Params.Get | index.js:65 | `get` is None exactly when no entry has the name; a value it returns belongs to an entry with that name |
| Params.GetIsFirst | index.js:65 | `get` is None exactly when no entry has the name; otherwise it returns the value of the first entry with that name |
| Params.Without | index.js:116 | `delete` never lengthens the list; every entry left comes from the list and does not have the name |
| Params.WithoutSpec | index.js:116 | `delete` leaves \|ps\| - Count entries, none with the name, and keeps exactly the entries with other names |
| Params.WithoutIdempotent | index.js:116 | deleting a name twice removes no more than deleting it once |
| Params.GetWithout | index.js:116 | deleting one name does not change `get` for any other name |
| Params.SetValue | index.js:119 | after `set`, the list holds `name=value`; every entry with the name has the new value, and every other entry comes from the old list |
| Params.SetValueCount | index.js:119 | after `set`, exactly one entry carries the name |
| Params.SetValueGet | index.js:119 | after `set`, `get` returns the value just set |
| Params.SetValueOthers | index.js:119 | `set` changes only entries with that name: every other entry keeps its value and order |
| Params.SetValueAbsent | index.js:119 | `set` on an absent name appends one entry at the end |
| Params.RemoveAll | index.js:116 | one pass over the list collects exactly the entries `delete` keeps, in order |
| Params.SearchParams.constructor | index.js:113 | the object starts with the parsed entry list |
| Params.SearchParams.Delete | index.js:116 | the entry list becomes the old list without every entry with that name |
| Params.SearchParams.Set | index.js:119 | the entry list becomes `SetValue` of the old list: the first matching entry is replaced, later ones are removed, or the entry is appended |
| Validation.Validate | index.js:64-82 | missing or empty `what` gives "Missing required parameter: what", and only then; `what` outside loc/wx/enter/list gives the invalid-`what` message, and only then; for loc/wx the result is Valid iff `name` or `lat` is non-empty, otherwise the per-kind message; enter/list are always Valid |
| Validation.ValidateMatchesReference | index.js:64-82 | Validate accepts exactly the lists whose first `what` entry is one of the four kinds and, for loc/wx, whose first `name` or first `lat` entry is non-empty |
| Validation.TruthyGet | index.js:67 | a truthy `get(name)` is exactly a first entry with a non-empty value |
| Validation.MissingTargetDistinct | index.js:78 | the loc/wx message differs from the other two messages |
| Validation.ValidTypesText | index.js:71-73 | the invalid-`what` message lists "loc, wx, enter, list" |
| Validation.ExamplesWhat | index.js:65-74 | an empty list and an empty `what` get the missing-`what` message; `what=bogus` gets the invalid-`what` message |
| Validation.ExamplesTarget | index.js:77-79 | `loc` alone and `wx` with an empty `name` are refused with their kind's message; `loc` with `lat` only is Valid |
| Validation.ExampleFirstWhatWins | index.js:65 | with two `what` entries only the first is read, so `what=list&what=loc` is Valid |
| Responses.HandleOptions | index.js:20-25 | 204, no body, and exactly the four CORS headers as its header set (so no Content-Type and no Cache-Control) |
| Responses.HandleHealth | index.js:30-43 | 200, health report `healthy`/`aprsfi-proxy`/`1.0.0` with the given timestamp, JSON, CORS headers, not cacheable |
| Responses.ErrorResponse | index.js:48-59 | the given status (500 by default), body `{error: message, service: "aprsfi-proxy"}`, JSON, CORS headers, not cacheable |
| Responses.JsonHeadersFacts | index.js:38-41 | the JSON header set is the CORS set plus Content-Type, with no Cache-Control |
| Responses.CachePolicyText | index.js:15 | the Cache-Control value is "public, max-age=30" |
| Responses.Decimal | index.js:143 | a status renders as at least one digit, all decimal digits, with no leading zero |
| Responses.DecimalRoundTrip | index.js:143 | parsing the rendered status gives the status back |
| Responses.DecimalInjective | index.js:143 | different statuses render differently |
| Sanitization.Sanitized | index.js:116-119 | the list after delete-then-set holds `apikey=key`; every `apikey` entry in it carries the key; every other entry comes from the client's list |
| Sanitization.Sanitize | index.js:116-119 | delete then set leaves the list without client `apikey` entries and with one `apikey=key` at the end |
| Sanitization.SanitizedAppends | index.js:116-119 | the sanitized list is the client's list minus its `apikey` entries, followed by `apikey=key` |
| Sanitization.SanitizedCredential | index.js:113-119 | exactly one `apikey`, equal to the server key and last; every other entry kept with its value and order; length is the input's minus its `apikey` count plus one |
| Sanitization.SanitizedKeepsOthers | index.js:113-119 | `get` of every other name is the same before and after sanitization |
| Sanitization.ValidateIgnoresCredential | index.js:113-122 | validating the sanitized list gives the same verdict as validating the client's list |
| Handler.IsHealthRoute | index.js:98 | the health route: path `/health`, or `/` with an empty search string |
| Handler.IsOk | index.js:142 | `response.ok`: the status lies in 200-299 |
| Handler.CanCarryBody | index.js:143 | the statuses for which `new Response` accepts a body: 200-599, except the null-body statuses |
| Handler.UpstreamErrorMessage | index.js:143 | the message is "APRS.fi API error: ", then the status in decimal, then a space and the reason phrase |
| Handler.Translate | index.js:141-178 | timeout gives 504 and the timeout message; other faults, a non-JSON body and a `null` body give 500 and the internal message; a non-2xx status that can carry a body is mirrored with "APRS.fi API error: status statusText", and any other non-2xx status (304) gives 500 and the internal message; `result == "fail"` gives 400 with the body verbatim; anything else gives 200 with the body verbatim and Cache-Control |
| Handler.HandleRequest | index.js:87-180 | every response carries the four CORS headers |
| Handler.PreflightFirst | index.js:93-95 | OPTIONS gives 204 with no body on any path, and no upstream call |
| Handler.HealthAnyMethod | index.js:98-100 | the health route gives the 200 health report to any method but OPTIONS, with no upstream call |
| Handler.OnlyGetIsProxied | index.js:102-105 | off the health route, every method except GET and OPTIONS gets 405 and no upstream call |
| Handler.HeadAdvertisedButRefused | index.js:9 | HEAD is advertised in Allow-Methods, but a HEAD proxy request gets 405 |
| Handler.MissingCredential | index.js:107-110 | a missing or empty credential gives 500 "APRS_API_KEY not configured…" and no upstream call |
| Handler.InvalidParameters | index.js:121-125 | an invalid client list gives 400 with the validator's message and no upstream call |
| Handler.UpstreamCalledExactlyWhenProxied | index.js:87-134 | the upstream is called iff the request is GET, off the health route, has a configured credential and passes validation |
| Handler.CredentialNeverOverridden | index.js:113-139 | the upstream request goes to the fixed endpoint, with the identifying User-Agent and the 10 s timeout; its query holds the server key as its only and last `apikey`, after the client's other entries, unchanged and in order |
| Handler.ForwardedCall | index.js:113-139 | a request that passes every check is forwarded as the client's list without `apikey`, followed by the server key, to the fixed endpoint with the User-Agent and the 10 s timeout |
| Handler.ProxiedResponse | index.js:127-178 | once the upstream is called, the response is the translation of the upstream outcome alone |
| Handler.ResponseShape | index.js:48-178 | an error envelope never has a 2xx status; an upstream body is passed on only after an upstream call and only with 200 or 400; only an upstream success is cacheable |
| Handler.ResponseConstructible | index.js:20-178 | every response status lies in 200-599, and every response with a body has a status that can carry one, so building the response never throws |
| Handler.UpstreamErrorMessageInjective | index.js:142-143 | with the same reason phrase, different upstream statuses give different error messages |
| Handler.LocWithoutTargetRefused | index.js:98-125 | `GET /?what=loc` is a proxy request and gets 400 with the loc message and no upstream call |
| Handler.ClientKeyReplaced | index.js:113-128 | `?apikey=<client>&what=loc&name=<callsign>` is forwarded as `what=loc&name=<callsign>&apikey=<server key>` |
| Handler.PostRequests | index.js:98-105 | a POST proxy request gets 405; a POST to `/` with no query gets the 200 health report |
| Handler.UpstreamErrorExample | index.js:143 | for status 503 the message is "APRS.fi API error: 503 " followed by the reason phrase |

## Left out

- The network call (`fetch`), `AbortController` and the 10 s `setTimeout`/`clearTimeout` timer: the upstream outcome is an argument (`Timeout`, `Fault` or `Http`). The timeout appears only as the constant recorded in the outbound request.
- The wall clock in `handleHealth`: the timestamp is an input string, and its ISO-8601 format is not modelled.
- JSON: `response.json()` and `JSON.stringify` are not modelled. The upstream body is an opaque text with an optional string `result` field, or "not JSON", or the literal `null`. Reading `.result` of `null` throws, which the catch branch turns into 500.
- URL parsing and percent-encoding (`new URL`, `params.toString()`): the path, whether the search string is empty and the decoded parameter list are inputs. The outbound query is recorded as a pair list, not as an encoded string.
- `console.error` logging, the `Response` object and the `export default` wrapper: a response is a plain record of status, headers and body.
