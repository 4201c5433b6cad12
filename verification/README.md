# Shiksha middleware gateway — Dafny model

This project models the two pieces of decision logic in the middleware service:

- **The request forwarder** (`GatewayService` in `src/middleware/gateway.service.ts`).
  `handleRequest` builds a fresh outbound header object from a fixed allow-list. It sends one request, then sorts the HTTP client's outcome into four classes:
  - a response: the status and body go to the response sink;
  - an error response: relayed the same way, except that the YouTube-license shim turns `ERR_YOUTUBE_LICENSE_VALIDATION` into a 200;
  - no response: a fixed internal-error payload is returned;
  - a setup failure: the bare error message is returned.

  `handleRequestForMultipartData` sorts the same four classes into a returned value. It never writes to the sink and never applies the shim.
- **The CORS origin list** (`bootstrap` and `validateCorsOriginList` in `src/main.ts`).
  The `CORS_ORIGIN_LIST` setting is split on commas. Start-up fails when the setting is absent. A leading `*` skips URL validation; otherwise every element must parse as a URL. The `origin` callback allows an origin that is exactly a list element, or any origin when the list starts with `*`.

Modules:

- `Wrappers`: `Option` and `Result`.
- `JsonValues`: JSON bodies.
- `Headers`: the header allow-list, written as a declarative rule table.
- `Gateway`: both handlers.
- `Strings`: `split` and `join` on one character.
- `CorsOrigins`: the start-up check and the callback.

The HTTP client is a function parameter `send` from the request to a `Transport` outcome (`Ok | HttpError | NoResponse | SetupFailure`). The framework response object is the `sink` field, which holds the one status-and-body write. WHATWG URL parsing (`new URL`, "URL parsing" section of the WHATWG URL Standard) is a predicate parameter `isUrl`. Every CORS statement therefore holds for every parser.

Behaviour worth noting:

- **Empty setting.** An empty `CORS_ORIGIN_LIST` splits into `[""]` and goes through URL validation. The "not defined or empty" error fires only when the setting is absent, because splitting a present value always yields at least one element.
- **Wildcard lists.** A list whose first element is `*` is accepted whatever elements follow it.
- **`x-channel-id`.** It is forwarded only when the inbound value is truthy, that is, present and non-empty.
- **Multipart results.** The multipart handler returns the bare response body for both successes and error responses; the status is discarded.
- **Missing `params`.** With the shim on, an error body whose `params` is missing or `null` makes the read of `params.err` throw inside the catch block. The handler's promise then rejects and nothing is written to the sink. The model has an explicit `Rejected` completion for this case.
- **Unused callback.** The `origin` callback is built into `corsOptions` but never installed: `app.enableCors` receives a literal option list. The model captures the callback's decision as written, not the policy the CORS middleware actually applies.

## Model

| member | source | states |
|---|---|---|
| Headers.ApplyRules | src/middleware/gateway.service.ts:18-23 | the header object built from a rule table has exactly the table's outbound names as keys, each holding the value of its source (inbound header or constant) |
| Headers.OutboundHeaders | src/middleware/gateway.service.ts:18-26 | outbound keys are exactly tenantId, academicyearid, content-type, authorization, plus x-channel-id iff the inbound value is non-empty; tenantId comes from inbound tenantid, content-type is always application/json, the rest are copied verbatim |
| Headers.ChannelAddsExactlyThatHeader | src/middleware/gateway.service.ts:24-26 | adding a non-empty inbound x-channel-id adds exactly that key and value to the outbound headers and changes nothing else; an empty one changes nothing |
| Headers.OnlyConsultedHeadersMatter | src/middleware/gateway.service.ts:18-26 | inbound header sets that agree on tenantid, academicyearid, authorization and x-channel-id give identical outbound headers: no other inbound header is ever propagated |
| Headers.ContentTypeAlwaysJson | src/middleware/gateway.service.ts:21 | the inbound content-type has no effect; the outbound one is application/json |
| Gateway.HandleRequest | src/middleware/gateway.service.ts:10-33 | exactly one request is dispatched, with the caller's method, URL and body and exactly the allow-listed outbound headers built from the inbound ones (so only allow-listed names, with a JSON content type), and the outcome of that request decides the effect |
| Gateway.ProbeErr | src/middleware/gateway.service.ts:39-41 | evaluating `data.params.err` throws iff the body is null, is not an object owning `params`, or has a null `params`; otherwise it reads `err` from `params` when `params` is an object owning it, and undefined for every other `params` |
| Gateway.OnJsonOutcome | src/middleware/gateway.service.ts:34-68 | the sink is written iff a response arrived and nothing threw; a sink write means the handler resolves with undefined; it rejects iff the shim is on and params.err cannot be read; the relayed reply differs from the downstream one only through the shim on the sentinel; no response gives the fixed 500 payload and a setup failure the bare message, neither touching the sink |
| Gateway.RemapLicense | src/middleware/gateway.service.ts:42-48 | the shim sets responseCode to 200 and result to {license: {valid: false, value: "youtube"}} and keeps every other field of the error body |
| Gateway.SuccessRelayedVerbatim | src/middleware/gateway.service.ts:34-35 | on success the sink receives exactly the downstream status and body and the handler returns nothing, whatever the shim flag |
| Gateway.ErrorRelayedUnlessSentinel | src/middleware/gateway.service.ts:37-53 | with the shim off, or with a readable params.err other than the sentinel, an error response is relayed with its original status and body |
| Gateway.SentinelRemappedToSuccess | src/middleware/gateway.service.ts:38-53 | with the shim on and the sentinel present the reply has status 200, responseCode 200, the fixed license result, the original params, and every other field untouched |
| Gateway.RemapIdempotent | src/middleware/gateway.service.ts:38-53 | feeding the shim's reply through the same handling again leaves it unchanged |
| Gateway.MissingParamsRejects | src/middleware/gateway.service.ts:39-41 | with the shim on, an error body that is null or lacks a non-null params makes the handler reject without writing the sink; with the shim off it is relayed |
| Gateway.HandleMultipart | src/middleware/gateway.service.ts:71-82 | the multipart request is always a POST to the given URL carrying the form and only the headers the form declares |
| Gateway.OnMultipartOutcome | src/middleware/gateway.service.ts:82-99 | with a response it returns the body the JSON path would relay with the shim off (status discarded); without one, the JSON path's no-response payload minus responseCode; on a setup failure the same bare message as the JSON path |
| Gateway.MultipartIgnoresSentinel | src/middleware/gateway.service.ts:84-85 | the multipart path returns an error body as it is, even one carrying the license sentinel |
| Strings.Split | src/main.ts:15-17 | split on ',' always yields at least one piece and no piece contains ',' |
| Strings.JoinSplit | src/main.ts:15-17 | joining the pieces with ',' rebuilds the setting |
| Strings.SplitJoin | src/main.ts:15-17 | splitting a ','-join of comma-free elements gives the elements back |
| CorsOrigins.ValidateList | src/main.ts:15-25 | fails with "not defined" iff the setting is absent; an accepted list is the split of the setting and is led by '*' or made only of parsable URLs; an invalid-list failure names a list not led by '*' with an element the parser rejects |
| CorsOrigins.Every | src/main.ts:61-70 | the URL check is true iff every element parses |
| CorsOrigins.PresentSettingNeverNotDefined | src/main.ts:15-21 | a present setting never fails as "not defined or empty"; the empty string is checked as the one-element list [""] |
| CorsOrigins.WildcardSkipsValidation | src/main.ts:23 | a list led by '*' is accepted unchanged whatever its later elements and whatever the URL parser says |
| CorsOrigins.NonWildcardNeedsEveryUrl | src/main.ts:23-24 | a list not led by '*' is accepted iff every element parses; one failing element gives "Invalid CORS_ORIGIN_LIST" |
| CorsOrigins.EveryIgnoresOrderAndDuplicates | src/main.ts:61-70 | two lists with the same elements get the same URL-check answer, whatever the order or duplicates |
| CorsOrigins.Includes | src/main.ts:29 | includes is true iff the origin is defined and equal to some element |
| CorsOrigins.AllowOrigin | src/main.ts:28-34 | an origin is allowed iff it is exactly an element or the first element is '*'; otherwise the answer is Forbidden("Origin not allowed") |
| CorsOrigins.ExactMatchUnlessLeadingWildcard | src/main.ts:29-33 | without a leading '*' exactly the listed origins are allowed, a later '*' only admits the literal origin "*", and an undefined origin is forbidden |
| CorsOrigins.ValidatedAllowsOnlyParsableOrigins | src/main.ts:23-34 | under a validated list not led by '*', every allowed origin is one the URL parser accepts |

## Left out

- The HTTP client (axios): the actual call, its rule for which statuses reject, and its treatment of header values that are `undefined`. The outcome of the call is an input.
- `formData.getHeaders()`: a foreign call. The form's declared headers are a field of `FormData`.
- The framework response object: only the single `res.status` / `res.json` write is modelled, as the `sink` field. A failure thrown by the sink itself inside the try block is not modelled.
- Header-name case-insensitivity: the framework provides it. Inbound names are taken as already lower-cased.
- WHATWG URL parsing: it is a foreign parser for a large standard, so it is the predicate parameter `isUrl`.
- Framework wiring: the NestFactory bootstrap, dotenv, the ConfigService lookup, Swagger, helmet, the literal `enableCors` options and `app.listen` have no decision logic (src/main.ts:10-13, 39-58). Throwing at start-up is modelled as the `Failure` result; `Message` gives the two error texts.
- `MiddlewareLogger`: injected but never used.
- async scheduling and concurrent requests: each call is one sequential function.
- Key order in JSON objects: bodies are maps, so the order in which the shim adds `responseCode` and `result` is not modelled.
- Numbers: JSON numbers are reals, so IEEE-754 doubles are not modelled. The status codes are unbounded integers.
- The TypeError's message on a rejected handler is not modelled; only the rejection is.
