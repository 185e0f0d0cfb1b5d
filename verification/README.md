# Yext API client: transport core and Knowledge Graph entity operations

A Dafny model of the decision logic in the Yext REST client:

- **Client construction** (`Api.NewClient`): a `Config` resolves to a base
  URL `https://{host}/v2/accounts/{accountId}/`, an API key and a `v`
  parameter. A non-empty host override wins over the environment; an unset
  or empty environment means `PROD` (`api.yext.com`), `SANDBOX` means
  `api-sandbox.yext.com`, and anything else fails with
  `Unknown Yext environment: …`. Unset or empty `accountId` and `vParam`
  default to `me` and `20211028`.
- **Request construction** (`Api.BuildRequest`, `Api.BuildQuery`): the query
  the client appends is `api_key`, then `v`, then the caller's parameters
  with repeated-key expansion of lists; a truthy body becomes the JSON payload with the single
  header `Content-Type: application/json; charset=utf-8`.
- **Outcome classification** (`Api.Classify`): a 2xx status returns the
  parsed body; any other status throws `ApiError` carrying the response.
- **Knowledge Graph entity operations** (`KnowledgeGraph.*`): create, get,
  update and delete as request descriptors plus outcome mapping, including
  the rule that a 404 becomes `null` on get and `false` on delete, and the
  `meta.id` merge of create.

The network round trip is an input: `HttpResult` is either a received
`Response(status, json)` — `json` is the body parsed as JSON, `None` when it
is not JSON — or `Rejected` when `fetch` itself fails. Each operation is a
pure function from its arguments and that input to an `Exchange`: the
request it issues and the value it returns or the `Failure` it throws.

Files: `results.dfy` (`Option`, `Result`), `json.dfy` (field values and
JavaScript truthiness), `api.dfy` (src/api.ts), `knowledge_graph.dfy`
(src/knowledge_graph.ts).

Where the code and its doc comments differ, the model follows the code:

- The `@returns` comment of `deleteEntity` (src/knowledge_graph.ts:116)
  promises `true` when the entity was deleted. The code returns `true`
  only when the call returns, and the call parses the 2xx body as JSON
  first, so a 2xx whose body is not JSON throws instead of returning
  `true`.

Notes on the code's behaviour:

- `getEntity` returns JSON `null` on a 404, which is the same value it
  returns when a 2xx envelope's `response` is itself `null`; there is no
  separate "absent" variant.
- `api_key` and `v` are the first two entries the client appends, but a
  caller parameter with the same key is appended as well; the query is not
  guaranteed to hold exactly one `api_key`.
- The environment is checked at run time, so the model takes it as an
  arbitrary string and models the failure.

## Model

| member | source | states |
|---|---|---|
| Api.NewClient | src/api.ts:127-153 | Construction succeeds exactly when the override is non-empty or the environment (empty meaning PROD) is PROD or SANDBOX; the base URL uses the override, `api.yext.com` or `api-sandbox.yext.com` accordingly with the account defaulting to `me`; a failure names the unknown environment; the key is kept and `v` defaults to `20211028` |
| Api.HostOverrideWins | src/api.ts:129-130 | With a non-empty override the environment has no influence on the client and construction cannot fail |
| Api.EmptyOverrideFallsThrough | src/api.ts:129-132 | An empty-string override behaves exactly like no override |
| Api.DefaultsApply | src/api.ts:132-152 | Unset and empty environment, account and `v` give the same client as `PROD`, `me` and `20211028` given explicitly |
| Api.UnknownEnvironmentFails | src/api.ts:132-144 | Without an override, any non-empty environment other than PROD and SANDBOX fails with the message `Unknown Yext environment: <env>` |
| Api.UrlBaseDeterminesAccount | src/api.ts:148-150 | On one host, equal base URLs imply equal account segments, so the account can be read back from the base URL |
| Api.ExpandParams | src/api.ts:175-184 | The caller's parameters expand to exactly the sum of their value counts (one per string, N per list of N) |
| Api.ExpandAppend | src/api.ts:175-184 | Expansion of two parameter lists one after the other is the concatenation of their expansions, so caller order is kept |
| Api.ExpandSplit | src/api.ts:175-184 | Around any parameter, the expansion is the entries of the parameters before it, then its own entries, then those of the parameters after it |
| Api.ExpandIndex | src/api.ts:175-184 | The j-th value of the i-th parameter appears, under the i-th key, right after all entries of the parameters before it |
| Api.AppendValues | src/api.ts:177-180 | The inner loop appends one entry per list element under the same key, in list order, leaving earlier entries untouched |
| Api.BuildQuery | src/api.ts:172-184 | The loop-built query has `api_key` at index 0, `v` at index 1, then exactly the expansion of the caller's parameters; its length is 2 plus their total value count |
| Api.BuildRequest | src/api.ts:172-190 | The request keeps the method, targets base URL plus path, carries the two fixed query entries then the expansion, carries the body as payload exactly when it is truthy, and sends the JSON content-type header exactly when there is a payload |
| Api.Classify | src/api.ts:192-197 | Success exactly for a 2xx status with a JSON body, returning that body; `ApiError` exactly for a non-2xx status, carrying that very response; a failed fetch propagates; never a property error |
| Api.Call | src/api.ts:166-198 | A call issues the method to base URL plus path with `api_key`, `v`, then the caller's expanded parameters; a truthy body is sent as the payload itself with the single JSON content-type header, otherwise neither payload nor headers; it succeeds exactly on a 2xx with a JSON body, returning that body, throws `ApiError` carrying the very response for any other status, the parse error for a 2xx body that is not JSON, and the fetch failure when there is no response |
| Api.ClassifyDecisionTable | src/api.ts:193-197 | The total table over statuses: 2xx with JSON is success, 2xx without JSON a parse error, anything else `ApiError(response)` |
| KnowledgeGraph.CreateEntityBody | src/knowledge_graph.ts:45-48 | The body keeps every top-level field but `meta` unchanged; the new `meta` has `id` set to the entity id and every other field of the old `meta` unchanged, or is `{id}` when there was no `meta` object |
| KnowledgeGraph.CreateEntityBodyIdempotent | src/knowledge_graph.ts:45-48 | Merging the same id into an already merged body changes nothing |
| KnowledgeGraph.CreateEntityBodyLastIdWins | src/knowledge_graph.ts:45-48 | Merging a second id over a first gives the same body as merging the second alone |
| KnowledgeGraph.ResponseField | src/knowledge_graph.ts:55 | Reading `response` of an envelope object yields its payload; it throws only on null, and yields undefined for any other non-object |
| KnowledgeGraph.RecoverNotFound | src/knowledge_graph.ts:74-81 | The catch block turns an `ApiError` with status 404 into the absent value, never lets a 404 through, and rethrows every other error unchanged; a success passes through |
| KnowledgeGraph.CreateEntity | src/knowledge_graph.ts:40-56 | POST to `entities` with query `api_key`, `v`, `entityType` and the merged body with the JSON header; success returns the envelope's `response`, and every error, 404 included, propagates unchanged |
| KnowledgeGraph.GetEntity | src/knowledge_graph.ts:68-82 | GET `entities/<id>` with only `api_key` and `v`, no body, no headers; a 404 returns null, it never throws a 404, every other error is rethrown unchanged, success returns `response` |
| KnowledgeGraph.UpdateEntity | src/knowledge_graph.ts:95-106 | PUT `entities/<id>` with only `api_key` and `v` and the partial entity verbatim as body; every error, 404 included, propagates; success returns `response` |
| KnowledgeGraph.DeleteEntity | src/knowledge_graph.ts:118-130 | DELETE `entities/<id>` with no body; returns true exactly when the call succeeds, false exactly on a 404 response, and otherwise throws the call's own error, never a 404 |
| KnowledgeGraph.StatusDecisionTable | src/knowledge_graph.ts:40-130 | For a well-formed envelope, the outcome of all four operations as a table over the status: 2xx, 404, anything else |
| KnowledgeGraph.RejectedFetchPropagates | src/knowledge_graph.ts:74-81 | A fetch failure is not an `ApiError`, so every operation, get and delete included, rethrows it |
| KnowledgeGraph.CreateEntityExample | src/knowledge_graph.ts:45-55 | Creating `loc1` of type `location` from `{name: "Store"}` posts `{name: "Store", meta: {id: "loc1"}}` to `entities` with `entityType=location`, and on a 2xx envelope returns its `response` |
| KnowledgeGraph.UpdateEntityExample | src/knowledge_graph.ts:99-104 | Updating `loc1` with `{name: "New Name"}` puts exactly that body to `entities/loc1` with no query beyond `api_key` and `v` |

## Left out

- Choosing between the global `fetch` and `cross-fetch`, the HTTP round trip itself and async sequencing: network I/O, replaced by the `HttpResult` input.
- URL parsing and query encoding by `URL`/`URLSearchParams`: foreign library behaviour. The URL is the concatenation `urlBase + path` and the query a list of pairs; a `new URL` that throws on a malformed base or path is not modelled.
- `Request.query` holds only the pairs the client appends. A path or entity id containing `?` or `#` is not split by URL parsing: in the real request, a `?` in the id moves the rest of the id into the query ahead of `api_key` and `v` (so `getEntity("a?x=1")` requests `entities/a` with `x=1` first), and a `#` turns the rest of the URL into a fragment. The model keeps such characters in `url`.
- `JSON.stringify` and `response.json()`: the payload is the value that would be serialised, and the parsed body is part of the `Response` input (`None` when it is not JSON).
- A parsed body never contains `undefined`, but `Response.json` admits `Json.Undefined`; the outcomes for such inputs (for example `Some(Undefined)` reading as a property error) are unreachable in the real client and carry no promise.
- Caller query parameters are a list of pairs; JavaScript's own enumeration order of object keys (integer-like keys first) is not modelled.
- Numbers are integers; fractions, `NaN` and `-0` (and their truthiness) are not modelled.
- Response headers and the body stream carried by `ApiError` are reduced to the status and the parsed body; the error's `name` and prototype setup have no behaviour to model.
- KnowledgeGraph.CreateEntity: requires that `meta`, if present, is not a string or an array; spreading those would copy index keys, and the declared entity type only admits an object there.
- KnowledgeGraph.CreateEntityBody: requires the same of `meta`, for the same reason.
- The `KnowledgeGraphApi` constructor only constructs a `Client`, which is `Api.NewClient`.
- src/entities.ts, src/fields.ts and src/index.ts declare types and re-exports only; `Json.Value` mirrors the field-value type.
