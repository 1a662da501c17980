# catapp REST-API description language, modelled in Dafny

catapp describes a REST API as a tree of tagged nodes. There are eight tags:

- `METHOD` is a leaf carrying a verb and a list of response templates.
- `PATH`, `CAPTURE`, `HEADER`, `QUERY_PARAM` and `BODY` each wrap exactly one `next` child.
- `OR` has two alternatives.
- `ANY` has an ordered list of alternatives.

Several pure interpreters walk the same tree:

- the path lister;
- the query-key lister;
- the client deriver, which threads a request accumulator `{path, headers, queryParams, body}` down to each leaf and then matches the observed response against the leaf's templates;
- the mock deriver, which registers a handler per leaf that serves a queue of canned responses;
- a fluent builder of composed continuations, which produces the tree.

Two small helpers are modelled as well: the status summary of `combineQueryResults` and `groupBy`.

One module per source file:

| file | module | models |
|---|---|---|
| results.dfy | `Results` | `Option`, `Result`, map lookup |
| core.dfy | `ApiCore` | src/servo/core.ts: the tree, the templates, `getHeaders`, `getStatus`, first-match lookup by status (`Array.prototype.find`) |
| routes.dfy | `Routes` | what the interpreters return, the route a caller takes through it, and the reference walk of a tree along a route |
| paths.dfy | `ServoPaths` | src/servo/paths.ts and the identical `getPathsAcc` of src/api.ts |
| querykeys.dfy | `QueryKeys` | src/servo/queryKeys.ts |
| client.dfy | `ClientHandlers` | src/servo/clientHandlers.ts and the five-parameter `getClientHandlers` of src/api.ts |
| mocks.dfy | `Mocks` | src/servo/mocks.ts and `generateMockHandlers`, `ok`, `response`, `serverError` of src/api.ts |
| dsl.dfy | `Dsl` | src/servo/dsl.ts, and the `Dsl` class, curried constructors and `combine` of src/api.ts |
| experimentation.dfy | `Experimentation` | src/experimentation.ts |
| combine.dfy | `QueryResults` | src/combineQueryResults.ts |
| groupby.dfy | `Grouping` | src/utils.ts |
| agreement.dfy | `Agreement` | how the client and the mocks derived from one tree fit together |

## How interpreters that return functions are modelled

Where an interpreter returns a function (at a `CAPTURE`, and in the client also at `HEADER`, `QUERY_PARAM` and `BODY`), the model returns `Await(pending)`. Here `pending` is what the closure captured: the node's payload, the rest of the tree and the accumulator so far. Each interpreter supplies an `apply` that gives the pending value its meaning.

A caller's use of the result is a route: a sequence of `Pick(i)` steps (destructure a pair or list) and `Give(v)` steps (call the function). `Routes.Run` follows a route. `Routes.Walk` is the reference reading of the same route directly on the tree; it lists the extender nodes passed and the leaf reached.

Each interpreter is proved equal, for every tree, accumulator and route, to a fold over what `Walk` returns. This is one theorem per interpreter that covers every branch:

- the accumulator rules;
- the same snapshot handed to every `OR`/`ANY` branch;
- order preservation;
- which nodes take an argument.

The JavaScript conversions are parameters and stay uninterpreted:

- string interpolation and `toString` (`Codec.show`);
- `JSON.stringify` (`Codec.stringify`);
- truthiness (`Js.truthy`, and `IsSet` in `QueryResults`).

In src/servo the captures and headers take objects `{[name]: value}`, and the code reads only the one field `c[name]`. The model has the caller supply that field's value, which makes these the same as the plain strings that src/api.ts takes.

## Notes on the code

- The mock deriver does not mirror the client node for node. `HEADER`, `QUERY_PARAM` and `BODY` take an argument in the client but pass straight through in the mocks (src/servo/mocks.ts:155-157, src/api.ts:626-628). `Agreement.MockRoute` translates a client route into the matching mock route.
- No code rejects a template list that repeats a status. The first template with the status wins, via `find`.
- Both `getPathsAcc` versions (src/servo/paths.ts and src/api.ts) append the capture's placeholder name, not a value. The sketch in src/experimentation.ts, the query keys, the client and the mocks append the caller's value.

## Model

| member | source | states |
|---|---|---|
| `ApiCore.FirstMatch` | src/servo/clientHandlers.ts:134-136 | The index `find` stops at is the first template whose status equals the one sought. There is none exactly when no template has that status. |
| `ApiCore.FindTemplate` | src/servo/mocks.ts:110-112 | The template found is the one at the first matching position. Nothing is found exactly when no status matches. |
| `ApiCore.HeadersOnlyForHeaderResponses` | src/servo/core.ts:55-61 | `getHeaders` returns the header list exactly for a header response and nothing for a plain one. `getStatus` returns the template's status for both variants. |
| `ApiCore.FirstMatchUnique` | src/servo/clientHandlers.ts:134-136 | At most one position is the first match for a status. |
| `Routes.Walk` | src/servo/core.ts:45-53 | Every node a route passes on the way to a leaf is an extender. It carries a value exactly when the interpreter's functions take one there. |
| `ServoPaths.PathsFollowRoute` | src/servo/paths.ts:40-69 | Along every route, the listing ends at the verb, a space, the base, and then `/segment` for each PATH and `/name` for each CAPTURE passed. OR and ANY branches all start from the same accumulator, and the other nodes add nothing. The listing accepts exactly the routes through the tree. |
| `ServoPaths.SinglePathExample` | src/servo/paths.ts:69 | `PATH a` over `METHOD GET` lists `"GET /a"`. |
| `ServoPaths.CaptureListedLiterally` | src/api.ts:154-180 | A CAPTURE is listed by its placeholder name: `"DELETE /favourites/:id"`. |
| `QueryKeys.KeysFollowRoute` | src/servo/queryKeys.ts:40-70 | Along every route, the key is the base list followed by one element per PATH segment and one per value given to a CAPTURE. OR and ANY branches start from the same list, and HEADER, QUERY_PARAM and BODY pass through. |
| `QueryKeys.KeyLengthCountsSegments` | src/servo/queryKeys.ts:72 | Starting from the empty list, a leaf's key has exactly one element per PATH and CAPTURE node on its route. |
| `ClientHandlers.AddPath` | src/servo/clientHandlers.ts:162-166 | PATH extends only the path, by `/segment`. |
| `ClientHandlers.AddCapture` | src/servo/clientHandlers.ts:168-174 | CAPTURE extends only the path, by `/value`. |
| `ClientHandlers.AddHeader` | src/servo/clientHandlers.ts:176-182 | HEADER adds or overwrites the entry for its own name and keeps every other header. Path, query parameters and body are unchanged. |
| `ClientHandlers.AddQueryParam` | src/servo/clientHandlers.ts:196-209 | QUERY_PARAM adds or overwrites only its own name, holding the value's string form. |
| `ClientHandlers.AddRequestBody` | src/servo/clientHandlers.ts:184-194 | BODY stores the JSON text exactly when the body type is `"JSON"`, and the raw value otherwise. |
| `ClientHandlers.ClientFollowsRoute` | src/servo/clientHandlers.ts:62-118 | Along every route, the client ends at a call for the leaf's verb and templates. Its request is the base accumulator with the route's extensions applied in order. Every OR/ANY branch starts from the same snapshot. |
| `ClientHandlers.ReplayPath` | src/api.ts:367-399 | After a route, the request path is the base path followed by every PATH segment and CAPTURE value, in order. |
| `ClientHandlers.ReplayHeaders` | src/api.ts:400-409 | After a route, each header holds the value given at the last HEADER of that name, or the base value if there is none. |
| `ClientHandlers.ReplayQueryParams` | src/api.ts:410-422 | After a route, each query parameter holds the string form of the value given at the last QUERY_PARAM of that name, or the base value. |
| `ClientHandlers.ReplayBody` | src/api.ts:423-432 | After a route, the body is what the last BODY stored (JSON text for `"JSON"`, the raw value otherwise), or the base body. |
| `ClientHandlers.BranchesShareSnapshot` | src/servo/clientHandlers.ts:77-83 | A route into the right branch of an OR resolves as if the left branch were absent. |
| `ClientHandlers.Handle` | src/servo/clientHandlers.ts:134-158 | The call fails with "Unexpected response" carrying the status and status text exactly when no template's status matches. Otherwise the reply carries the response's data and status. Headers are present exactly when the first match is a header template; their keys are that template's names and their values are the observed ones (`null` when absent). |
| `ClientHandlers.ResponseMatchingExample` | src/api.ts:340-364 | With templates for 200 and 400, an observed 400 gives a reply with status 400. An observed 404 fails with the status and its text. |
| `ClientHandlers.MessageExample` | src/servo/clientHandlers.ts:156-158 | The failure for an observed 404 "Not Found" reads "Unexpected response 404 Not Found". |
| `Mocks.MocksFollowRoute` | src/servo/mocks.ts:133-157 | Along every route, the mocks end at an installer for the leaf's verb and templates. Its path is the base plus `/segment` for each PATH and `/value` for each CAPTURE. HEADER, QUERY_PARAM and BODY take no argument, and OR/ANY hand every branch the same path. |
| `Mocks.RespondFollowsTemplates` | src/servo/mocks.ts:110-128 | A canned response is served with its status and data exactly when some template has its status ("Couldn't mock" otherwise). For a header template, exactly that template's header names are set, each to the canned value; it fails only when the template names headers and the canned response has none, and it never reports an empty queue. |
| `Mocks.QueueNeverEmpties` | src/servo/mocks.ts:97-108 | From a non-empty queue, after n requests the queue is the original from position min(n, length-1) on. It is never empty, and only the queue changes. |
| `Mocks.ServedInOrder` | src/api.ts:569-580 | Request k receives canned response min(k, length-1): responses are served in registration order and the last one sticks. |
| `Mocks.OutcomeAfter` | src/servo/mocks.ts:99-108 | Request k receives what the handler serves after k earlier requests. |
| `Mocks.StickyLastExample` | src/servo/mocks.ts:104-108 | Registering `[A, B]` and serving three requests gives A, B, B. |
| `Mocks.EmptyQueueFails` | src/servo/mocks.ts:104-108 | With no canned responses, every request fails and the handler does not change. |
| `Mocks.OkResponse` | src/servo/mocks.ts:168-177 | `ok` has status 200. Its data is the given data when truthy and `{}` otherwise, and its headers are present only when supplied. |
| `Mocks.Response` | src/servo/mocks.ts:202-211 | `response` falls back to status 200 when the status is omitted or 0, keeps any other status, and defaults data like `ok`. |
| `Mocks.ServerError` | src/servo/mocks.ts:179-184 | `serverError` has status 500, the data as given and no headers. |
| `Dsl.Wrap` | src/servo/dsl.ts:86-121 | Each extender frame builds a node with one child, exactly the plugged-in sub-tree. |
| `Dsl.ChainNests` | src/servo/dsl.ts:82-95 | Extenders nest in application order: the first one applied ends up outermost. |
| `Dsl.PeelNest` | src/servo/dsl.ts:82-121 | The frames and the core a nested tree was built from can be read back from it. |
| `Dsl.NestPeel` | src/servo/dsl.ts:82-121 | Nesting what a tree peels into rebuilds the tree. |
| `Dsl.ClosedChain` | src/servo/dsl.ts:40-121 | Extenders applied to `Dsl.empty()` and closed by any non-extender node build exactly the nested tree, and the extenders can be read back from it in application order. |
| `Dsl.BuiltTree` | src/servo/dsl.ts:46-80 | A chain of extenders closed by `get`, `post`, `delete_` or `options` builds the nested tree ending in that METHOD leaf, with the templates in order. |
| `Dsl.OrBuilt` | src/servo/dsl.ts:122-131 | A chain of extenders closed by `or(l1, l2)` builds the nested tree ending in an OR of the two finished trees. |
| `Dsl.AnyBuilt` | src/servo/dsl.ts:132-140 | A chain of extenders closed by `any(...xs)` builds the nested tree ending in an ANY whose alternatives are the finished trees in argument order. |
| `Dsl.TopLevelCombinators` | src/servo/dsl.ts:165-179 | The top-level `path`, `capture`, `header`, `queryParam`, `body`, `get`, `post`, `delete_`, `options`, `or` and `any` build exactly their own node. |
| `Dsl.CombinedNests` | src/api.ts:57-107 | Nested `combine` calls on the curried constructors build the nested tree, the outermost call giving the outermost node. |
| `Dsl.LegacyBuilderAgrees` | src/api.ts:460-502 | In the older builder, whose extenders call the curried constructors inside the continuation, a chain of extenders nests like the newer builder's, so both build the same tree from the same calls. |
| `Dsl.JsonResponse` | src/servo/dsl.ts:153-156 | `jsonResponse` is a plain template with status 200. |
| `Dsl.BadRequest` | src/servo/dsl.ts:158-161 | `badRequest` is a plain template with status 400. |
| `Dsl.WithHeaders` | src/servo/dsl.ts:143-151 | `withHeaders` keeps the status, switches to a header response and records the header list. |
| `Experimentation.SketchFollowsRoute` | src/experimentation.ts:41-58 | Along every route, the sketch yields the base path followed by `/segment` for each PATH and `/value` for each value given to a CAPTURE, with no verb. Both OR branches start from the same path. |
| `Experimentation.SketchAgreesWithMocks` | src/experimentation.ts:54-56 | Along every route, the sketch yields a path exactly when the mock deriver yields an installer, and that path is the installer's path. |
| `Experimentation.SimpleExample` | src/experimentation.ts:60-63 | `capture(":foo")` then `get()`, applied to `"foo"`, gives `"/foo"`. |
| `Experimentation.ExampleResolves` | src/experimentation.ts:65-83 | The example tree resolves to `[["/v1/images", f], "/v1/favourites"]`, with `f("001") = "/v1/images/001"`. |
| `QueryResults.AnyIs` | src/combineQueryResults.ts:48 | `some(s => s === target)` holds exactly when the target occurs. |
| `QueryResults.Summarise` | src/combineQueryResults.ts:47-55 | The summary is error exactly when some status is error. It is loading exactly when none is error and some is loading, and success otherwise, including for no statuses. |
| `QueryResults.SummaryOfConcatenation` | src/combineQueryResults.ts:47-55 | The summary of two lists joined is the worse of their summaries. |
| `QueryResults.SummaryIgnoresOrder` | src/combineQueryResults.ts:47-55 | Any permutation of the statuses has the same summary. |
| `QueryResults.FirstSet` | src/combineQueryResults.ts:67 | `find(err => !!err)` gives the first error that is set, and nothing exactly when none is. |
| `QueryResults.CombineQueryResults` | src/combineQueryResults.ts:57-69 | Data and errors are the inputs' in the same order and number. The status is error if any query failed, else loading if any is loading. The error is the first one set. |
| `Grouping.GroupBy` | src/utils.ts:1-12 | The keys are exactly the keys of the items. Every group is non-empty and holds exactly the items with its key, in input order. |
| `Grouping.GroupSizesSum` | src/utils.ts:5-12 | Over any duplicate-free listing of the keys, the group sizes add up to the number of items: nothing is lost or duplicated. |
| `Grouping.EveryItemGrouped` | src/utils.ts:5-11 | Every item is in the group of its own key. |
| `Grouping.NoItemsNoGroups` | src/utils.ts:12 | No items give no groups. |
| `Agreement.MockRouteWalks` | src/servo/mocks.ts:149-157 | Where a client route reaches a leaf, the matching mock route reaches the same leaf through the same nodes. It keeps the CAPTURE values and holds nothing at the other extenders. |
| `Agreement.RequestPathAlongRoute` | src/servo/clientHandlers.ts:162-174 | Along every route through the client, the request path is the base path followed by each PATH segment and CAPTURE value. |
| `Agreement.ClientAndMockShareLeaf` | src/api.ts:367-399 | For one tree, a client route and its mock route end at the same verb and templates. The client's request path is the path the mock handler is registered at. |
| `Agreement.MockedReplyAccepted` | src/api.ts:582-600 | A reply the mock serves from a leaf's templates is accepted by the client's call for the same templates, with the same status and the data as its JSON round trip delivers it. Each header the template lists arrives with its canned value. |
| `Agreement.OkMatchesJsonResponse` | src/servo/mocks.ts:168-177 | `ok(data)` against a `jsonResponse()` template serves the data with status 200 and no headers. |
| `Agreement.FavouriteRequestExample` | src/servo/clientHandlers.ts:168-174 | `DELETE /favourites/:id` called with `"42"` sends its request to `/favourites/42`. |

## Left out

- Network I/O is not modelled: `runRequest`, `fetch`, `URLSearchParams` and `response.json()`. The observed response is an input record, and a leaf's call is the request it would issue plus its templates.
- msw registration (`rest.get` and the rest) and `ctx`/`res` are not modelled, being a foreign library. Registration is a record of verb, path, templates and queue; what the handler sends is a record of status, body and header settings.
- Async behaviour and Promises are not modelled. Each call is a value, and the number of requests appears only as a count of served requests.
- `JSON.stringify`, `toString` and string interpolation are uninterpreted function parameters.
- `Agreement.PlainCodec` fixes both interpolation and `JSON.stringify` of strings to the identity. Interpolation of a string is the identity in JavaScript, but `JSON.stringify` adds quotes and escapes. The agreement lemmas use only the path, so only the interpolation matters to them.
- `Agreement.Observe` assumes a header the template names but the canned response lacks is not sent. The mock calls `ctx.set(key, undefined)` for it (src/servo/mocks.ts:116-118), and what msw sends then is outside the model. The JSON round trip of the body (`ctx.json` then `response.json()`) is the uninterpreted parameter `transit`, not the identity.
- The TypeScript type-level machinery (`FancyReturn`, `ClientHandler`, `MockHandler`, `Paths`, `QueryKeys`) is replaced by one result datatype plus routes. A route the type checker would refuse makes `Routes.Run` return nothing.
- HTTP header names are case-insensitive in `response.headers.get`. The model compares them exactly.
- `Grouping.GroupBy` treats every key as a fresh property. A key that names an inherited property of a JavaScript object (such as `constructor`) behaves differently in JavaScript.
- `QueryResults.CombineQueryResults` models an absent error as `None` and leaves truthiness of present errors to a parameter. It does not model JavaScript values beyond that.
- `Mocks.Response` models a falsy status only as 0 or omitted. Statuses are integers here, so `NaN` does not arise. (`ok` takes no status.)
- The `CatsApi` pagination loop, React components, hooks, routing and test setup are left out, being UI or network-driven.
- The alias `p` of `path` (src/servo/dsl.ts:81, src/api.ts:482) and `r` of `jsonResponse` are the same functions under a second name and are not modelled separately.
