# inverse-fetch: the contract-driven validation layer in Dafny

This project models the request/response validation core of inverse-fetch.
A route handler receives a standard `Request` and produces a `Response`.
The core has two layers:

- `FetchHelper` (src/index.ts) extracts path parameters from a `{name}`
  pattern, flattens the query string and decodes the body by Content-Type.
  Beside it sit the `HttpError` family (404, 415, 422, 500), `toHttpError`,
  which normalises anything thrown, the default renderer
  `toJsonErrorResponse`, and `errorHandler`, which turns a throwing handler
  into a total one.
- `OpenAPIHelper` (src/openapi/index.ts) wraps a `FetchHelper` for one
  OpenAPI route. It validates the parameters and query (404 on failure),
  the body (415 for an unknown media type, 422 for a schema failure) and
  the response (500 for an undeclared status or a body that breaks the
  declared schema), all through `validateObject`. The file also holds the
  shared error-response configurations `Response404` to `Response500`.

Modules, in dependency order:

| file | module | contents |
|---|---|---|
| wrappers.dfy | `Wrappers` | `Option`, `Result` |
| json.dfy | `JsonValues` | the `Json` value type, JavaScript falsiness, string records as objects |
| entries.dfy | `Entries` | `Object.fromEntries`: keys, last value wins |
| http_errors.dfy | `HttpErrors` | `HttpError` and its subclasses, thrown values, `toHttpError` |
| fetch_api.dfy | `FetchApi` | requests and responses as values, `Response.json` |
| path_pattern.dfy | `PathPattern` | placeholder names, the compiled regular expression and its `matchAll`, the `{name}` to `:name` rewrite |
| fetch_helper.dfy | `Fetch` | `FetchHelper`, `toJsonErrorResponse`, `errorHandler` |
| text.dfy | `Text` | decimal rendering of statuses, ascending key order, infixes |
| openapi_helper.dfy | `OpenApi` | `OpenAPIHelper`, `validateObject`, the shared error responses |
| pipeline.dfy | `Pipeline` | a handler in the order the example route uses, wrapped by `errorHandler` |
| things_route.dfy | `ThingsRoute` | the example route `POST /things/{thingId}` and the outcomes its tests expect |

A thrown value is a `Thrown`: an `HttpError` (which keeps its subclass, so
`instanceof` can be stated), another `Error` (name and message), or a
value that is not an `Error`. Each operation that may throw returns a
`Result<T, Thrown>`. A schema is a pair of a `safeParse` function, which
returns the parsed and possibly coerced data or fails, and its JSON Schema
rendering. `JSON.stringify(…, null, 2)` is a function the helper carries.
A request carries its pathname, its search parameters in order, its
Content-Type header, and the outcome of decoding its body as JSON and as a
form. A response carries its status, Content-Type and the outcome of
decoding its body as JSON.

The path matcher follows the regular expression the code builds. That
expression is global and unanchored.
Value `i` is group 1 of the `i`-th match. When the placeholders each fill a
whole segment, the whole pathname is one match, so with two or more of them
only the first name receives a value (`Fetch.WholeSegmentParams`, and
`Fetch.TwoSegmentParams` for the two-placeholder case).

The code and the test suite disagree on one point. The FormData test
(src/validate.test.ts:41-45) expects a multipart request to be echoed.
But such a request's Content-Type carries a `boundary` parameter, and
`bodyObject` compares the whole header text exactly. So the code answers
415 (`ThingsRoute.MultipartIs415`). Even if the helper accepted it, the
schema lookup at src/openapi/index.ts:101 would miss for the same reason:
the route registers the bare `multipart/form-data` key. The model follows
the code.

The business logic of a route may throw. Whatever it throws is normalised
and rendered like any other failure (`Pipeline.LogicThrowRendered`). So an
`HttpError` with another status, say 403, reaches the client with that
status. The claim that the client only sees declared statuses and the four
error statuses therefore holds for logic that throws no other
`HttpError` (`Pipeline.StatusIsDeclaredOrError`), as the example route's
logic does (`ThingsRoute.ThingStatuses`).

## Model

| member | source | states |
|---|---|---|
| HttpErrors.NewHttpError | src/index.ts:3-10 | `new HttpError(message, status)` keeps the message and the status; it is an `HttpError` but not an `HttpError500`, and has no cause |
| HttpErrors.NewSubclassError | src/index.ts:12-34 | each subclass fixes its status (404, 415, 422, 500), keeps the message unchanged and is also an `HttpError` |
| HttpErrors.ToHttpError | src/index.ts:121-131 | an `HttpError` is returned unchanged; another `Error` becomes an `HttpError500` with the same message and the original as cause; anything else becomes an `HttpError500` "Unknown error"; a well-formed error's status fits its class |
| HttpErrors.ToHttpErrorIdempotent | src/index.ts:121-131 | normalising an already normalised error changes nothing |
| Entries.FromEntriesKeys | src/index.ts:79 | `Object.fromEntries` has exactly the keys of its entries |
| Entries.FromEntriesLastWins | src/index.ts:79 | a key repeated among the entries keeps the value of its last occurrence |
| Entries.LastOccurrenceExists | src/index.ts:79 | every key of the entries has a last occurrence |
| Entries.FromEntriesValue | src/index.ts:79 | each value of the record comes from the last entry with that key |
| JsonValues.StringObject | src/index.ts:83 | a string record read as a JSON object has the same keys and values |
| JsonValues.DefinedFields | src/openapi/index.ts:80-82 | the parameter record handed to the schema has exactly the defined entries, with their values |
| FetchApi.JsonResponse | src/index.ts:118 | `Response.json(data, { status })` has that status, Content-Type `application/json` and `data` as its body |
| PathPattern.IndexOf | src/index.ts:75 | the position of the first `}` in the text after a `{` |
| PathPattern.PlaceholderName | src/index.ts:75-76 | a placeholder name never contains `}` |
| PathPattern.ParamNames | src/index.ts:75-76 | the names `/{([^}]*)}/g` captures, in pattern order; its properties are `PathPattern.PlaceholderSplit` and `PathPattern.ParamNamesBraced` |
| PathPattern.Compile | src/index.ts:77 | the pattern with every placeholder replaced by a `([^/]*)` group has one group per placeholder name |
| PathPattern.RunEnd | src/index.ts:77 | a `[^/]*` group takes the longest run of non-`/` characters |
| PathPattern.MatchAt | src/index.ts:77-78 | the compiled expression tried at one position, backtracking as JavaScript does; a match ends within the pathname; `PathPattern.MatchAtSound` and `PathPattern.MatchAtComplete` state that it matches exactly where the text spells the pattern |
| PathPattern.TryGroup | src/index.ts:77 | a `([^/]*)` group that starts with the whole run and gives back one character at a time; a match ends within the pathname; `PathPattern.TryGroupSound` and `PathPattern.TryGroupComplete` give its meaning |
| PathPattern.FirstMatch | src/index.ts:78 | `matchAll` finds the leftmost match at or after the search position: no match starts between the search position and the one returned, and when none is found the expression matches at no position from there to the end |
| PathPattern.MatchAtSound | src/index.ts:77-78 | a match spells the pattern with its captures put in place of its groups, and no capture contains `/` |
| PathPattern.TryGroupSound | src/index.ts:77-78 | the same for a group that gives characters back while backtracking |
| PathPattern.MatchAtComplete | src/index.ts:77-78 | whenever the text at a position spells the pattern with slash-free captures, the matcher finds a match there |
| PathPattern.TryGroupComplete | src/index.ts:77 | backtracking never gives up while a shorter capture remains after which the rest of the expression matches |
| PathPattern.FirstMatchComplete | src/index.ts:78 | the search finds a match no later than any position where the pathname spells the pattern, so finding none means the pathname holds no such spelling |
| PathPattern.GroupOne | src/index.ts:78 | `m[1]` of a match: its first capture, or `undefined` when the expression has no group |
| PathPattern.FirstGroups | src/index.ts:78 | `[...pathname.matchAll(pathRegex)].map(m => m[1])`, resuming after each match; its properties are `PathPattern.FirstGroupsNoSlash`, `PathPattern.NoMatchNoValues`, `PathPattern.OneSegmentMatch` and `PathPattern.TwoSegmentMatch` |
| PathPattern.FirstGroupsNoSlash | src/index.ts:78 | no extracted value contains `/` |
| PathPattern.NoMatchNoValues | src/index.ts:78 | a pathname the expression does not match yields no values |
| PathPattern.PlaceholderSplit | src/index.ts:75 | `{name}` followed by text is read as one placeholder called `name` |
| PathPattern.ColonPattern | src/fastify/index.ts:43 | the `{name}` to `:name` rewrite of the Fastify adapter; its property is `PathPattern.ColonPatternBraced` |
| PathPattern.ParamNamesBraced | src/index.ts:75-76 | the names of a pattern built from text and `{name}` placeholders are those names, in pattern order |
| PathPattern.ColonPatternBraced | src/fastify/index.ts:43 | the `{name}` to `:name` rewrite turns every non-empty placeholder into `:name` and leaves the text alone |
| PathPattern.CompileSkipsText | src/index.ts:77 | text without braces compiles to literal characters |
| PathPattern.CompilePlaceholder | src/index.ts:77 | a placeholder compiles to one group |
| PathPattern.MatchLiteral | src/index.ts:77-78 | literal characters match themselves and nothing else |
| PathPattern.MatchGroupGreedy | src/index.ts:77-78 | a group followed by a part that matches after the whole run takes that whole run |
| PathPattern.MatchFinalGroup | src/index.ts:77-78 | a final group captures up to the next `/` or the end |
| PathPattern.NoMatchAtEnd | src/index.ts:78 | an expression starting with literal text finds nothing at the end of the pathname |
| PathPattern.OneSegmentMatch | src/index.ts:74-80 | `/things/{thingId}` has the one name `thingId`, and against `/things/1` the matches yield exactly `["1"]` |
| PathPattern.TwoSegmentMatch | src/index.ts:74-80 | with two placeholders the whole path is one match, and only its first group is collected |
| PathPattern.CompileBraced | src/index.ts:77 | a pattern of text and `{name}` placeholders compiles to its text as literal characters with one group in place of each placeholder |
| PathPattern.MatchSpelled | src/index.ts:77-78 | when every placeholder fills a whole segment, the expression matches the pathname it spells in one piece, each group capturing its own segment |
| PathPattern.WholeSegmentValues | src/index.ts:77-78 | with any number (at least one) of whole-segment placeholders, the whole pathname is one match, so the values are exactly the first segment's value |
| Fetch.ParamValues | src/index.ts:77-78 | the values of `params()`: group 1 of each match of the compiled pattern against the pathname |
| Fetch.Params | src/index.ts:74-80 | `params()`: the placeholder names paired with the values through `Object.fromEntries`; its properties are `Fetch.ParamsKeys`, `Fetch.ParamsValue`, `Fetch.ParamsNoSlash`, `Fetch.ParamsNoMatch` and `Fetch.ParamsSingleMatch` |
| Fetch.ParamEntries | src/index.ts:79 | name `i` is paired with value `i`, or `undefined` when there are fewer values than names |
| Fetch.ParamsKeys | src/index.ts:75-79 | `params()` has exactly the placeholder names as keys |
| Fetch.ParamsValue | src/index.ts:79 | each name's value is the value paired with its last occurrence in the pattern: no later placeholder has that name |
| Fetch.ParamsNoSlash | src/index.ts:77-79 | no parameter value contains `/` |
| Fetch.ParamsNoMatch | src/index.ts:77-79 | when the pathname does not match, every name maps to `undefined` and nothing is thrown |
| Fetch.ParamsSingleMatch | src/index.ts:78-79 | with a single match, the first name gets that match's group and every other name is `undefined` |
| Fetch.OneSegmentParams | src/index.ts:74-80 | `/things/{thingId}` against `/things/1` gives `{ thingId: "1" }` |
| Fetch.TwoSegmentParams | src/index.ts:74-80 | `/a/{x}/b/{y}` against `/a/1/b/2` gives `{ x: "1", y: undefined }` |
| Fetch.RepeatedNameParams | src/index.ts:74-80 | `/a/{x}/b/{x}` against `/a/1/b/2` gives `{ x: undefined }`: the second use of the name wins |
| Fetch.WholeSegmentParams | src/index.ts:74-80 | with any number of whole-segment placeholders of distinct names, `params()` gives the first name its segment and every other name `undefined` |
| Fetch.Query | src/index.ts:82-84 | `query()`: the search parameters through `Object.fromEntries`; its property is `Fetch.QueryLastWins` |
| Fetch.FormObject | src/index.ts:99-100 | a form body as the flat record of its fields, a repeated field keeping its last value; used by `Fetch.BodyObject` and `ThingsRoute.GoodFormObject` |
| Fetch.MissingContentType | src/index.ts:92-95 | `!contentType`: the header is absent or the empty string; `Fetch.BodyObject` then throws the 415 "No Content-Type header" |
| Fetch.QueryLastWins | src/index.ts:82-84 | `query()` has exactly the search keys, and a repeated key keeps its last value |
| Fetch.BodyObject | src/index.ts:91-103 | a missing or empty Content-Type is 415 "No Content-Type header"; exactly `application/json` gives the decoded JSON; exactly `application/x-www-form-urlencoded` gives the form fields as a flat record; a decoding error is rethrown unchanged; any other type is 415 "Unsupported Content-Type: …" |
| Fetch.RespondWith | src/index.ts:105-107 | the plain helper returns the response unchanged |
| Fetch.ToJsonErrorResponse | src/index.ts:116-119 | the error's status with the JSON body `{ message }` |
| Fetch.ErrorHandler | src/index.ts:133-145 | the wrapped handler never throws: a response passes through, anything thrown is normalised and rendered |
| Fetch.DefaultErrorResponse | src/index.ts:116-145 | with the default renderer a failure is a JSON `{ message }` response carrying the thrown `HttpError`'s status, or 500 for anything else |
| Text.NatToString | src/openapi/index.ts:117 | a status is written as a non-empty string of decimal digits |
| Text.NatToStringRoundTrip | src/openapi/index.ts:117 | reading those digits back gives the status |
| Text.LeastExists | src/openapi/index.ts:115 | every non-empty set of statuses has a least element |
| Text.SortedStatuses | src/openapi/index.ts:115 | `Object.keys` of the responses lists every declared status once, in ascending order |
| Text.JoinStatuses | src/openapi/index.ts:115 | `join(', ')` of the statuses; its property is `Text.JoinShowsEach` |
| OpenApi.Inner | src/openapi/index.ts:74 | the wrapped `FetchHelper` is built on the route's `path` and the same request; `params()` and `query()` read through it |
| OpenApi.BodySchema | src/openapi/index.ts:101 | `routeConfig.request?.body?.content[contentType]?.schema`, looked up with the exact Content-Type text; used by `OpenApi.BodyObject` |
| OpenApi.ValidationMessage | src/openapi/index.ts:150-152 | the text of a validation failure; `OpenApi.ValidationMessageMentions` states it names the value and the schema |
| OpenApi.ValidateObject | src/openapi/index.ts:137-154 | a missing schema is a plain `HttpError` 500 "No <type> schema"; it succeeds exactly when the schema parses the value and then returns the parsed data; a failure is an instance of the caller's class whose message embeds the serialised value and schema |
| OpenApi.ValidationMessageMentions | src/openapi/index.ts:150-152 | the validation message contains both the serialised value and the serialised schema |
| OpenApi.RawParams | src/openapi/index.ts:80 | the record `params()` hands to its schema: the plain helper's parameters; `JsonValues.DefinedFields` states its contents |
| OpenApi.Params | src/openapi/index.ts:79-83 | `params()` succeeds exactly when the params schema accepts the extracted record, and returns its parsed data; a failure is an `HttpError404`; without a schema it is a 500 "No params schema" |
| OpenApi.RawQuery | src/openapi/index.ts:86 | the record `query()` hands to its schema: the flattened search parameters as strings; `JsonValues.StringObject` and `Fetch.QueryLastWins` state its contents |
| OpenApi.Query | src/openapi/index.ts:85-89 | the same for `query()` and the query schema |
| OpenApi.BodyObject | src/openapi/index.ts:91-106 | the helper's media-type errors come first; a falsy body is returned unvalidated; a Content-Type without a schema is 415 "No schema for Content-Type: …"; otherwise it succeeds exactly when the schema accepts the body, and a failure is an `HttpError422` |
| OpenApi.RespondWith | src/openapi/index.ts:108-135 | success returns the response unchanged; an undeclared status is an `HttpError500` listing the allowed statuses; a non-JSON response passes unchecked; a JSON response without content config is an `HttpError500`; a content config without an `application/json` entry throws a `TypeError`; an entry without a schema fails with a 500; with a schema the response passes exactly when its body decodes and satisfies the schema, and a decoded body that fails it is an `HttpError500`; every failure reads as 500 |
| OpenApi.UndeclaredStatusMessage | src/openapi/index.ts:115-117 | the message of an undeclared status; its property is `OpenApi.UndeclaredStatusListsAllowed` |
| OpenApi.UndeclaredStatusListsAllowed | src/openapi/index.ts:113-118 | the undeclared-status message names the offending status and every declared status |
| Text.JoinShowsEach | src/openapi/index.ts:115 | `join(', ')` of a list of statuses shows every status of the list |
| Text.InfixWithin | src/openapi/index.ts:115-117 | text put around a message keeps every occurrence within it |
| OpenApi.ParseErrorBody | src/openapi/index.ts:19-21 | `ErrorSchema.safeParse`: an object with a string `message`, other keys stripped; `OpenApi.ErrorResponsesConform` shows the rendered errors pass it |
| OpenApi.ErrorResponsesConform | src/openapi/index.ts:19-57 | a route declaring `Response404` … `Response500` accepts its own rendered error responses |
| Pipeline.Handle | src/test_helpers.ts:113-120 | the example handler: `params()`, then `bodyObject()`, then the logic, then `respondWith`; each stage's failure is thrown on; the `Pipeline` lemmas below state its outcomes |
| Pipeline.Serve | src/index.ts:133-145 | `errorHandler` with the default renderer around the handler; the `Pipeline` lemmas below state the response the client receives |
| Pipeline.ParamsRejectedIs404 | src/openapi/index.ts:79-83 | parameters that fail their schema reject the request with an `HttpError404`, rendered as a 404 |
| Pipeline.UnsupportedMediaTypeIs415 | src/index.ts:96-102 | with valid parameters, an unsupported Content-Type is an `HttpError415`, rendered as a 415 |
| Pipeline.UnregisteredMediaTypeIs415 | src/openapi/index.ts:101-104 | with valid parameters, a supported Content-Type the route registers no schema for is an `HttpError415` |
| Pipeline.BodyRejectedIs422 | src/openapi/index.ts:105 | with valid parameters and a registered Content-Type, a body that fails its schema is an `HttpError422` |
| Pipeline.UndeclaredStatusIs500 | src/openapi/index.ts:113-119 | a response with an undeclared status becomes an `HttpError500`, rendered as a 500 |
| Pipeline.ResponseRejectedIs500 | src/openapi/index.ts:121-133 | a JSON response failing its declared schema becomes an `HttpError500` |
| Pipeline.SuccessPassesResponseThrough | src/test_helpers.ts:113-120 | when every stage succeeds the client receives exactly the response the logic returned from the parsed parameters and body |
| Pipeline.LogicThrowRendered | src/index.ts:137-143 | what the logic throws after validation is normalised and rendered: an `HttpError` keeps its status, anything else is a 500 |
| Pipeline.StatusIsDeclaredOrError | src/openapi/index.ts:79-135 | for logic that throws no `HttpError` of another status, the client only sees a declared status or one of 404, 415, 422, 500 |
| Pipeline.EchoRoundTrip | src/test_helpers.ts:119 | echoing a validated body that the status-200 schema accepts returns that body with status 200 |
| ThingsRoute.ThingLogic | src/test_helpers.ts:116-119 | the example route's logic: `{ foo: "bar" }` for `thingId` "2", otherwise the body echoed with status 200; the `ThingsRoute` lemmas below state its outcomes |
| ThingsRoute.ThingParams | src/validate.test.ts:93-100 | every test request's path gives `{ thingId: id }` |
| ThingsRoute.ThingParamsValidated | src/test_helpers.ts:42-44 | `params()` accepts `thingId` exactly when it holds a digit |
| ThingsRoute.ThingBodyValidated | src/test_helpers.ts:50-53 | `bodyObject()` accepts a thing exactly when both fields hold a lower-case letter, and rejects it with a 422 otherwise |
| ThingsRoute.GoodFormObject | src/validate.test.ts:103-115 | the form fields of the good thing read as the good thing |
| ThingsRoute.GoodJsonRequestEchoed | src/validate.test.ts:29-33 | a valid JSON request is answered with status 200 and its own body |
| ThingsRoute.GoodFormRequestEchoed | src/validate.test.ts:35-39 | a valid form request is answered with status 200 and its fields as a JSON object |
| ThingsRoute.MultipartIs415 | src/validate.test.ts:41-45 | a multipart request, whose Content-Type carries a boundary, is rejected with an `HttpError415` |
| ThingsRoute.BadParamsIs404 | src/validate.test.ts:47-49 | `thingId` "xyz" is rejected with an `HttpError404`, rendered as a 404 |
| ThingsRoute.CsvIs415 | src/validate.test.ts:51-63 | a `text/csv` body is rejected with an `HttpError415`, rendered as a 415 |
| ThingsRoute.BadBodyIs422 | src/validate.test.ts:65-67 | an upper-case body is rejected with an `HttpError422`, rendered as a 422 |
| ThingsRoute.BadResponseIs500 | src/validate.test.ts:69-73 | for `thingId` "2" the `{ foo: "bar" }` response is rejected with an `HttpError500`, rendered as a 500 |
| ThingsRoute.ThingStatuses | src/test_helpers.ts:69-82 | the example route only ever answers 200, 404, 415, 422 or 500 |

## Left out

- The runtime adapters (Fastify, Express, Node HTTP, AWS Lambda, Astro) are stream conversion, header copying and server registration. Only their one-line `{name}` to `:name` rewrite is modelled (`PathPattern.ColonPattern`).
- File-based routing and OpenAPI document generation use the file system, dynamic imports and a foreign library.
- The `FetchHelper` constructor's dispatch on the input's runtime type (src/index.ts:57-72) is not modelled: a request is given directly.
- Promises are not modelled: each operation is its sequential result.
- Regular-expression metacharacters in a pattern are not modelled. Every character outside a placeholder is matched literally, as in every route of the project; the code does not escape the pattern.
- URL parsing is not modelled. The pathname is the URL's pathname as given, still percent-encoded, and `params()` never decodes it: `/things/a%2Fb` yields the single value `a%2Fb`. The search parameters are given already decoded, as `URLSearchParams` yields them.
- JsonValues.DefinedFields: the record handed to the params schema leaves out the names that received no value, where the source passes them with the value `undefined`. An object schema treats both alike; a schema that tells them apart (a record of strings rejects `undefined`, a pass-through object keeps the key) is not modelled.
- Zod's `safeParse`, `zodToJsonSchema`, `JSON.stringify` and `JSON.parse`, `FormData` and `Request.json()`/`formData()`/`clone()` are foreign code. Schemas are modelled as a parse function with a JSON rendering, serialisation as a function the helper carries, and body decoding as a given outcome (decoded value or error).
- JSON numbers are integers. Floating point is left out; falsiness only needs to tell zero from non-zero.
- Object key order is not modelled: JSON objects are maps. `JSON.stringify` follows insertion order (pattern order for parameters, field order in the JSON text or the form for bodies), so in the source two bodies with the same fields in another order give different validation messages (src/openapi/index.ts:150) and response bodies; in the model the serialisation function takes the unordered map, and such messages are equal. The list of allowed statuses follows JavaScript's ascending order for integer keys (`Text.SortedStatuses`).
- Form fields that are files are left out: a form body is a list of string pairs.
- `Response` construction with a status outside 200-599 throws a `RangeError`; statuses are taken as given.
- A route whose `path` is undefined (before file-based routing sets it) is not modelled: the path is a string.
- The test helpers and the registry that the test files import from are not part of this model, except the handler order they show.
