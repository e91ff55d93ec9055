# Request validation middleware, modelled in Dafny

This project models the core of an Express middleware that validates a request with zod schemas (src/index.ts). A handler made by `processRequest({ params?, query?, body? })` checks each configured section of the request in a fixed order: Params, then Query, then Body. A section that parses is overwritten in place with the schema's output. A section that fails adds a tagged item `{ type, errors }` to a list. Failures do not stop the later sections. At the end the handler either calls `next()` or answers 400 Bad Request (section 15.5.1 of RFC 9110) with the whole list. `processRequestBody`, `processRequestParams` and `processRequestQuery` are the single-section forms. `sendErrors` and `sendError` format the response.

Modules, one concept each:

- `Wrappers` (wrappers.dfy): `Option`.
- `Zod` (zod.dfy): what the middleware sees of the schema engine. A JSON-like `Value` (with `Undefined` for a section the request does not carry), an opaque `ZodError`, the `SafeParseResult` returned by `safeParse`, and `Schema`. A schema is any total, deterministic function from values to parse results, so every property below holds for every schema.
- `ErrorFormat` (error_format.dfy): `Facet`, `ErrorListItem`, the wire object `{ type, errors }`, and the `errors.map(...)` projection of `sendErrors`, with a decoder that proves the projection loses nothing.
- `Validation` (validation.dfy): the handler's decision stated on values. `Normalize` gives the request after the handler. `Failures` is a filter over the section order that judges each section on its original value, so it cannot short-circuit. `Decide` chooses continue or reject. The properties are carried by the contracts of `Normalize`, `FailureOf` and `Decide`, and by the lemmas.
- `Middleware` (middleware.dfy): the handlers as imperative code. It has `Request`, `Response` and `Continuation` classes; `next()` is a call counter. The methods assign the request sections in place and record the response status and payload. Their postconditions give the new state as functions of the old one:
  - `ProcessRequest` ties the request to `Normalize`, and the response and call count to `Decide`.
  - `CheckFacet` ties the one section it handles to `Normalize`, and the pushed items to `FailureOf`.
  - `SendErrors` and `SendError` tie the payload to `WireList` and `ToWire`.
  - `ProcessRequestBody`, `ProcessRequestParams` and `ProcessRequestQuery` state their outcome for each result of the schema. Their request ends as `Normalize` gives it with only that section configured.
  - `Request.Set` ties the request to `RequestData.With`.
  - `Continuation.Call` raises the call count by one.
- `Scenarios` (scenarios.dfy): the situations in src/index.test.ts, using a schema shaped like `z.object({ key: z.string() })`, plus one client of `ProcessRequest` that works from its contract alone.

Two points where the code is narrower or looser than one might expect, followed as written:

- `sendErrors` accepts any array, including an empty one, so `SendErrors` has no precondition. (`processRequest` only calls it with a non-empty list.)
- `sendError` sends one object where `sendErrors([e])` sends a one-element array. The two are not the same output, and `SingleMatchesList` states how they relate.

## Model

| member | source | states |
|---|---|---|
| `ErrorFormat.FacetName` | src/index.ts:48-51 | the `type` tag of a section is a literal that reads back as that section |
| `ErrorFormat.FacetFromNameInverse` | src/index.ts:48-51 | exactly "Params", "Query" and "Body" are tags, and each reads back to itself |
| `ErrorFormat.ToWire` | src/index.ts:54 | one item becomes `{ type, errors }`, with the error payload unchanged and the item recoverable |
| `ErrorFormat.WireList` | src/index.ts:54 | the sent array has the input's length and order, and entry i is item i's `{ type, errors }` with its payload unchanged |
| `ErrorFormat.WireListRoundTrip` | src/index.ts:53-55 | decoding the sent array gives back exactly the error list |
| `ErrorFormat.WireListInjective` | src/index.ts:53-55 | different error lists are never sent the same way |
| `ErrorFormat.SingleMatchesList` | src/index.ts:53-58 | `sendErrors([e])` sends the one-element array whose entry is `ToWire(e)`, the object `sendError(e)` sends |
| `Validation.OutcomeOf` | src/index.ts:113-114 | a section is skipped exactly when it has no schema; otherwise the outcome is Parsed with the schema's output or Rejected with its error, as `safeParse` returned |
| `Validation.FailureOf` | src/index.ts:115-119 | a configured section whose parse fails contributes exactly one item, tagged with that section and carrying the error; any other section contributes none |
| `Validation.Normalize` | src/index.ts:113-136 | after the handler, an unconfigured section is unchanged, a parsed one equals the schema's output, and a rejected one is unchanged |
| `Validation.Failures` | src/index.ts:112-136 | no more items than sections checked, each for a section that was configured and rejected, carrying that schema's error (one item per section is `FailuresInOrder`) |
| `Validation.OutcomeReadsOwnFacet` | src/index.ts:113-136 | a section's outcome depends only on that section's value |
| `Validation.FailuresInOrder` | src/index.ts:112-136 | checking the sections in Params, Query, Body order yields items in that order, so at most one per section |
| `Validation.FailuresComplete` | src/index.ts:112-136 | a section has an item exactly when it is checked, configured and rejected |
| `Validation.RejectionListValid` | src/index.ts:112-136 | the list `processRequest` builds is ordered, has one item exactly per rejected section, and each item carries that section's error |
| `Validation.OrderedListsDetermined` | src/index.ts:112-136 | two ordered lists with the same sections and the same item per section are equal |
| `Validation.RejectionListUnique` | src/index.ts:112-136 | no other list meets that description, so the error list is fully determined |
| `Validation.Decide` | src/index.ts:137-140 | the handler continues exactly when no configured section is rejected; otherwise it rejects with a non-empty list that meets `IsRejectionList` |
| `Validation.FacetIndependent` | src/index.ts:113-136 | no short-circuit: a section's final value and its item do not depend on the other sections' schemas, values or outcomes |
| `Validation.LaterFacetStillNormalized` | src/index.ts:113-136 | a rejected section does not stop another configured section, before or after it, from being parsed and stored, and the request is still rejected |
| `Validation.SingleFacet` | src/index.ts:60-100 | with one section configured, the handler continues on success and otherwise rejects with exactly `[{ type: that section, errors }]`; only that section can change |
| `Middleware.Request.Set` | src/index.ts:116 | assigning one section changes that section alone |
| `Middleware.Continuation.Call` | src/index.ts:140 | calling `next()` raises the call count by one |
| `Middleware.SendErrors` | src/index.ts:53-55 | status 400, and the payload is the array of `{ type, errors }` in input order |
| `Middleware.SendError` | src/index.ts:56-58 | status 400, and the payload is the single object `{ type, errors }` |
| `Middleware.CheckFacet` | src/index.ts:113-136 | one `if (schemas.x)` block: the section becomes the parsed data on success; on failure the section is kept and one tagged item is pushed |
| `Middleware.ProcessRequest` | src/index.ts:102-142 | the request ends as `Normalize` says; on continue, `next()` is called once and the response is untouched; on reject, `next()` is not called, the status is 400 and the payload is the ordered list |
| `Middleware.ProcessRequestBody` | src/index.ts:60-72 | on success the body is replaced, `next()` is called once and no response is sent; on failure the request is unchanged and `[{ type: "Body", errors }]` is sent with 400; the same state as `processRequest({ body })` |
| `Middleware.ProcessRequestParams` | src/index.ts:74-86 | the same for params, tagged "Params", matching `processRequest({ params })` |
| `Middleware.ProcessRequestQuery` | src/index.ts:88-100 | the same for query, tagged "Query", matching `processRequest({ query })` |
| `Scenarios.StringField` | src/index.test.ts:181-183 | the tests' `z.object({ key: z.string() })` schema accepts exactly objects whose `key` is a string, keeps that key alone, and reports its error otherwise |
| `Scenarios.StringFieldStrips` | src/index.test.ts:61-77 | a strip-mode object schema keeps only its declared key |
| `Scenarios.BodyExtraKeyDropped` | src/index.test.ts:337-353 | a body with an extra key continues and is stored without the extra key |
| `Scenarios.ParamsWrongTypeRejected` | src/index.test.ts:251-267 | a number for a string param gives exactly one Params item, sent as "Params" |
| `Scenarios.QueryOnlyFailure` | src/index.test.ts:285-301 | when only the query fails, the list is exactly one Query item, and params and body are still stored |
| `Scenarios.QueryFailureClient` | src/index.test.ts:285-301 | on live objects with the query failing, `next()` is not called, the status is 400, the payload is `[{ type: "Query", errors }]`, and params and body are stored |
| `Scenarios.UnconfiguredParamsKept` | src/index.test.ts:355-387 | unconfigured params keep their extra key while query and body are stripped, and the request continues |

## Left out

- The schema engine's internals (coercion, key stripping, how `ZodError` is built): a schema is an arbitrary total function, and its error an opaque payload.
- JavaScript numbers are floating point; `Value` holds integers, which is enough for the scenarios and does not affect the handlers.
- Express plumbing: handler wiring, the `res.status(...).send(...)` chaining and JSON serialisation. `Response` records only the last status and payload. Express's refusal to send twice is not modelled.
- The values the handlers return (whatever `next()` or `send` returns), which carry no behaviour.
- The type-only declarations `RequestValidation`, `RequestProcessing`, `TypedRequest*` and `NonReadOnly` (src/index.ts:5-46), and `stripReadOnly`, which is an identity cast.
- `if (schemas.params)` tests a schema object, which is always truthy, so it is modelled as `Option`.
- The three `if (schemas.x)` blocks of `processRequest` are written out separately in the source; the model uses one method, `CheckFacet`, called for each section in the same order.
