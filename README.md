# Health-check sampling and the example server's request logic, in Dafny

This project models the decision logic of an example Node.js service that is
instrumented with OpenTelemetry:

- **Sampling.** `ignoreHealthCheck` is the health-check filter: it keeps every
  span except a SERVER span whose `http.route` attribute is the string
  `/health`. `filterSampler` wraps a parent sampler. When the filter rejects a
  span, it answers `NOT_RECORD` without asking the parent. Otherwise it returns
  the parent's answer for the same arguments. `setupTracing` installs
  `filterSampler(ignoreHealthCheck, new AlwaysOnSampler())`.
- **Exporter choice.** The `EXPORTER` setting is lower-cased. Zipkin is chosen
  when it starts with `z`; otherwise OTLP is chosen.
- **Server.** `authMiddleware` lets a request through to `/cats` only when its
  `authorization` header contains `secret_token`; otherwise it answers 401.
  The CRUD controller keeps a `resources` list. GET returns the list and POST
  appends the body and echoes it with status 201.

Modules:

- `Wrappers` (`wrappers.dfy`): `Option`, and `Get` for JavaScript's `m[k]`
  lookup, which may give `undefined`.
- `Strings` (`strings.dfy`): `toLowerCase`, `startsWith` and `includes`.
  `includes` is proved equal to the reference "occurs at some index".
- `Tracer` (`tracer.dfy`): span kinds, attributes, samplers, the filter,
  the service's sampler and the exporter choice.
- `Server` (`server.dfy`): the authorization predicate and the controller.
  The controller is a class whose `resources` field is a `seq` that its
  methods reassign.

A sampler is a datatype with two fields. The first is its `shouldSample`
function. The second is its `toString()` text. The context and the links are
type parameters that the model never inspects. They are passed through.
The decisions `NotRecord`, `Record` and `RecordAndSampled` correspond to the
OpenTelemetry API's `NOT_RECORD`, `RECORD` and `RECORD_AND_SAMPLED`. A dropped span is one whose decision is `NotRecord`.

## Model

| member | source | states |
|---|---|---|
| `Tracer.IgnoreHealthCheck` | src/tracer.ts:114-123 | the span is dropped (result false) if and only if its kind is SERVER and its `http.route` attribute is present and is the string `/health` |
| `Tracer.RouteNotHealthIsKept` | src/tracer.ts:121 | a span with no `http.route`, or with a route that is not the string `/health` (another string, a number, a boolean, an array), is kept, whatever its kind |
| `Tracer.NonServerIsKept` | src/tracer.ts:120 | a span whose kind is not SERVER is kept, even when its route is `/health` |
| `Tracer.FilterSampler` | src/tracer.ts:97-108 | when the filter rejects the span, the answer is `NOT_RECORD` with no attributes and does not depend on the parent; when the filter keeps it, the answer equals the parent's answer for the same context, trace id, name, kind, attributes and links; `toString()` is `"FilterSampler(" + parent.toString() + ")"` |
| `Tracer.FilterSamplerIgnoresParentOnRejected` | src/tracer.ts:99-103 | the wrapped sampler's answer depends on the parent only through the parent's answer for the same arguments, and not at all for a span the filter rejects (the parent is not asked) |
| `Tracer.AlwaysOnSampler` | src/tracer.ts:45 | the parent `new AlwaysOnSampler()` answers `RECORD_AND_SAMPLED` with no attributes for every span, and its text is `AlwaysOnSampler`; this defines a class of the external tracing SDK after its documented behaviour, taken on trust because that class is not part of this model |
| `Tracer.ServiceSampler` | src/tracer.ts:45 | the installed sampler describes itself as `FilterSampler(AlwaysOnSampler)` |
| `Tracer.ServiceSamplerDropsOnlyHealthChecks` | src/tracer.ts:45 | with the installed sampler, a span is not recorded if and only if it is a `/health` SERVER span; every other span is recorded and sampled |
| `Tracer.SelectExporter` | src/tracer.ts:32-34 | Zipkin if and only if the setting is present and its first character is `z` or `Z`; an unset or empty setting gives OTLP |
| `Strings.LowerChar` | src/tracer.ts:32 | `A`–`Z` map to their lower-case letters; every other character is unchanged |
| `Strings.ToLower` | src/tracer.ts:32 | lower-casing keeps the length and lower-cases each character in place |
| `Strings.StartsWith` | src/tracer.ts:32 | `startsWith` holds if and only if the prefix is no longer than the string and agrees with it character by character |
| `Strings.Includes` | src/server.ts:37 | `includes` of the empty token always holds, and a token longer than the string is never found; `IncludesIffOccurs` gives its full meaning |
| `Tracer.StrictEqualsString` | src/tracer.ts:121 | `v === '/health'` holds if and only if the value is present and is the string attribute `/health`; `undefined`, numbers, booleans and arrays never equal a string |
| `Wrappers.Get` | src/tracer.ts:121 | looking up a key gives a value exactly when the key is present, and that value is the map's entry (otherwise `undefined`); the same lookup reads `req.headers` at src/server.ts:36 |
| `Wrappers.Option.GetOr` | src/tracer.ts:32 | the value when present, otherwise the default; with default `""` this is `x || ''` on a string that may be `undefined` |
| `Strings.IncludesIffOccurs` | src/server.ts:37 | `includes` holds if and only if the token occurs in the string at some index |
| `Strings.OccurrenceIsIncluded` | src/server.ts:37 | an occurrence at any index, however far from the start, is found |
| `Strings.IncludesHasOccurrence` | src/server.ts:37 | when `includes` holds, there is an index where the token occurs |
| `Server.Authorize` | src/server.ts:35-42 | the request goes on (`next`) if and only if an `authorization` header is present and `secret_token` occurs in it at some index; every other request gets status 401 |
| `Server.ResourceController.constructor` | src/server.ts:26 | a new controller has no resources |
| `Server.ResourceController.List` | src/server.ts:27 | GET replies 200 with the whole list in insertion order; the list is not changed |
| `Server.ResourceController.Create` | src/server.ts:28-31 | POST makes the list the old list plus the body at the end and leaves the earlier entries as they were; it replies 201 with the same body |
| `Server.ResourceController.Handle` | src/server.ts:35-42 | a request that fails authorization gets 401 and leaves the list unchanged; one that passes is answered by GET or POST as above |
| `Server.PostTwiceThenList` | src/server.ts:24-33 | on a new controller, two POSTs and then a GET return both bodies in the order they were posted |

## Left out

- The tracer provider, the `Resource`, span processors, `register()` and the HTTP and Express instrumentations: these are calls into the tracing SDK, whose behaviour is not visible here.
- The `diag` console logger set-up: it is logging configuration.
- What the Zipkin, OTLP and Jaeger exporters do with spans: this is network I/O to tracing back-ends. Only the choice of exporter class is modelled.
- The Jaeger and console tracing variants (`src/tracing.jaeger.ts`, `src/tracing.console.ts`): they only configure the SDK and hold no logic of their own.
- Span start and end, span status and context propagation: the modelled files contain no such code.
- A filter function that throws: the source does not catch exceptions from `filterFn`, and filters here are total functions.
- The `traceState` a sampler may return: neither sampler in the model sets it.
- Express plumbing: `cors`, `cookieParser`, `dotenv`, `express.json()`, `app.listen`, the `PORT` variable, and the `/` and `/health` handlers, which send fixed text.
- The `/run_test` handler: it POSTs to the server itself through `axios`, which is asynchronous network I/O.
- Strings.ToLower: only the ASCII letters `A`–`Z` are lower-cased. JavaScript applies full Unicode case mapping. The exporter choice depends only on the first character, and besides `z` itself, only `Z` lower-cases to a string that starts with `z`.
- Strings.LowerChar: lower-cases only the ASCII letters `A`–`Z`. Every other character, including non-ASCII upper-case letters, is left unchanged, unlike JavaScript's Unicode mapping.
- Attribute numbers are integers here, while OpenTelemetry uses floating point. The filter only compares the route with a string, so nothing depends on this.
- Server.ResourceController: request bodies are of an abstract type `T`, and the JSON body parser is not modelled.
- Server.ResourceController.Handle: only `GET` and `POST` on the root of `/cats` are modelled. The prefix match of `app.use('/cats', ...)` is not modelled. Other methods and sub-paths (`PUT /cats`, `GET /cats/1`) pass the same authorization check and then get the framework's 404. The exception is `OPTIONS`, which `cors()` answers with 204 before the authorization check. `router.get` also answers `HEAD`, which is not modelled either.
