# Named-query builder and raw-filter handler of tower-client, in Dafny

This project models the request logic of two small read-only HTTP servers
over time-stamped sensor readings stored in a document store:

- the **named-query server** (`src/clientAPI.js`): a fixed table of three
  query definitions (`values`, `valuesCnt`, `valuesPerDevice`), each with a
  collection, default parameters and a pure function from parameters to an
  aggregation pipeline; a coercion of query-string text into numbers,
  timestamps or text; the merge of defaults with the caller's query string;
  and the handler that runs the pipeline against the store;
- the **raw-filter server** (`clientAPI.js`): a handler that takes a JSON
  filter in `q`, rejects it when missing or unparsable, forwards it verbatim
  to the route's collection with a fixed field projection, and maps a store
  failure to 500.

Modules, leaves first:

| file | module | contents |
|---|---|---|
| `wrappers.dfy` | `Wrappers` | `Option` |
| `js_values.dfy` | `JsValues` | `Value = Null \| Num \| Str`, JavaScript truthiness, documents and parameter sets |
| `coercion.dfy` | `Coercion` | `parseDateParameter` and the per-value coercion, over abstract number and date parsers |
| `merge.dfy` | `Merge` | the defaults-then-overrides merge, as a function and as the handler's loop |
| `routing.dfy` | `Routing` | how a request path reaches a registered route: ASCII case-insensitive, one optional trailing slash |
| `pipeline.dfy` | `Pipeline` | the `Stage` datatype (`$match`, `$project`, `$limit`, `$count`, `$group`, `$set`, `$replaceRoot`, `$sort`) |
| `semantics.dfy` | `Semantics` | a reference semantics over lists of flat documents for `$match`, inclusion `$project`, `$limit`, `$count`, and for `$arrayToObject` / `$mergeObjects` |
| `queries.dfy` | `Queries` | the filters, the three pipeline builders, the defaults and the registry |
| `query_properties.dfy` | `QueryProperties` | what the queries mean: filters, row cap, count, pivot shape, defaults |
| `named_query.dfy` | `NamedQueryService` | the named-query handler and its route |
| `raw_filter.dfy` | `RawFilterService` | the raw-filter handler and its routes |

External collaborators are parameters: the clock reading `now`, the
JavaScript number and date parsers (`string -> Option<int>`), `JSON.parse`
(`string -> Option<F>` for an abstract filter type `F`), and the store
(`(collection, pipeline) -> reply` for the named queries,
`(collection, filter) -> reply` for the raw filter). `ReferenceStore` is one
particular store that evaluates pipelines by the reference semantics, used
to state end-to-end properties.

Behaviour of the code a reader may not expect:

- The only route the named-query server registers, `/aggregated-values`,
  looks up `aggregatedValues`, which is not in the table. The handler then
  throws while copying `undefined.parameters`, before its `try`, so it never
  reaches the store and writes no response of its own; the model calls this
  outcome `UnknownQuery` and proves every request to that route ends there.
  The other three queries have no route yet.
- `$count` over an empty input yields no document at all, so `valuesCnt`
  over a window with no readings answers `[]`; there is no `count` field
  holding 0. `ReadCount` reads "no document" as 0 when the count is compared
  with the fetch.
- `valuesPerDevice` starts its window at the epoch (0); the two windowed
  queries start thirty days (2 592 000 000 ms) before `now`.
- The query table, defaults included, is built once when the module loads
  (src/clientAPI.js:26-34), so `now` is the process start time: a request
  that names no window bounds gets the window as it stood at start-up, and
  that window does not move while the process runs.
- Every integer is a fixed point of `parseDateParameter`: inside the Date
  range `new Date(n).getTime()` is `n`, outside it the function returns its
  argument.
- A digits-only value is coerced to a number before any date parse, so
  `deviceId=123` filters on the number 123 and misses readings whose device
  id is stored as the text `"123"` (`NumericDeviceIdMissesTextIds`).

## Model

| member | source | states |
|---|---|---|
| `Coercion.ParseDateParameter` | src/clientAPI.js:125-132 | numbers come back unchanged; text that parses as a date becomes its epoch-ms timestamp; text that does not is returned unchanged; null becomes 0 (the epoch); the result is never null |
| `Coercion.Coerce` | src/clientAPI.js:140 | numeric text becomes that number; non-numeric text that parses as a date becomes its timestamp; anything else stays the same text |
| `Coercion.CoerceNeverNull` | src/clientAPI.js:125-132 | coercion never yields null, and a text result is the raw text itself |
| `Coercion.NumericTextIgnoresDateParser` | src/clientAPI.js:140 | for numeric text the date parser cannot influence the result: the number check comes first |
| `Coercion.ParseDateParameterFixesIntegers` | src/clientAPI.js:127-131 | every integer, in or out of the Date range, is returned unchanged |
| `Coercion.CoercionIdempotent` | src/clientAPI.js:125-132 | applying the date step again to a coerced value changes nothing |
| `Merge.MergeParameters` | src/clientAPI.js:137-141 | the merged keys are the default keys plus the caller keys; each caller key, known or not, holds its coerced value; every other default keeps its value |
| `Merge.MergeQuery` | src/clientAPI.js:137-141 | the copy-then-assign loop, visiting the caller keys in any order, ends with exactly the merged parameter set |
| `Merge.MergeWithEmptyQuery` | src/clientAPI.js:137 | with no query string the merged set equals the defaults |
| `Semantics.FilterDocs` | src/clientAPI.js:36-42 | `$match` keeps exactly the documents the filter accepts, and no others, in collection order (a subsequence of the input) |
| `Semantics.FilterDocsCounts` | src/clientAPI.js:36-42 | `$match` keeps each accepted document as many times as the collection holds it, and drops every other one |
| `Semantics.Run` | src/clientAPI.js:146-148 | running a pipeline succeeds iff every stage is one the reference semantics covers (`$match`, an inclusion `$project` with a kept field, a positive `$limit`, `$count`) |
| `Semantics.PairsToObject` | src/clientAPI.js:98-102 | `$arrayToObject` succeeds iff every pushed name is a string; every name becomes a field; every field carries a value pushed under its name; the last pair pushed sets its name's field |
| `Semantics.PairsToObjectLastPairWins` | src/clientAPI.js:98-102 | for a repeated value type, the field takes the value of the last pair pushed under that name |
| `Semantics.MergeDocs` | src/clientAPI.js:111-115 | `$mergeObjects` keeps every field of every input, and the last input's fields win |
| `Semantics.MergeDocsAddsNoField` | src/clientAPI.js:111-115 | every field of a merged object comes from one of the inputs |
| `Semantics.MergeDocsLastHolderWins` | src/clientAPI.js:111-115 | a merged field takes its value from the last input that has it |
| `JsValues.Truthy` | src/clientAPI.js:39-40 | the falsy values are exactly null, 0 and the empty string |
| `Queries.ValuesMatch` | src/clientAPI.js:37-41 | the filter bounds validAt by [validAtStart, validAtEnd]; it has a deviceId (valueType) equality conjunct iff that parameter is truthy; it has no other field |
| `Queries.PerDeviceMatch` | src/clientAPI.js:87-90 | the pivot filter is the shared filter without its valueType conjunct |
| `Queries.ValuesPipeline` | src/clientAPI.js:35-55 | the fetch opens with the shared `$match`, then an inclusion projection (every entry kept) onto exactly the fetch fields, and ends with `$limit 1000` |
| `Queries.ValuesCntPipeline` | src/clientAPI.js:65-76 | the count opens with the same `$match` as the fetch, ends with `$count "count"`, and neither projects nor limits |
| `Queries.ValuesPerDevicePipeline` | src/clientAPI.js:85-121 | the pivot's `$match` is the fetch's without the valueType conjunct, it groups by the (validAt, deviceId) key object, ends with an ascending sort on validAt, and has no row cap |
| `Queries.WindowedDefaults` | src/clientAPI.js:29-34 | the window spans the 2592000000 ms up to `now`, with falsy deviceId and valueType, and no other parameter |
| `Queries.PerDeviceDefaults` | src/clientAPI.js:79-84 | the window runs from 0 to `now` with a falsy deviceId; there is no valueType parameter |
| `Queries.Registry` | src/clientAPI.js:26-123 | the table holds exactly the three names, all on the `values` collection, and the two windowed queries share their defaults |
| `Queries.Lookup` | src/clientAPI.js:26-123 | exactly `values`, `valuesCnt` and `valuesPerDevice` resolve, all to the `values` collection with window and device defaults, and each name carries its own pipeline builder |
| `QueryProperties.WindowIsInclusive` | src/clientAPI.js:38 | a reading passes the window iff its timestamp t satisfies start <= t <= end |
| `QueryProperties.ValuesMatchMeaning` | src/clientAPI.js:37-41 | a reading passes the shared filter iff it lies in the window and agrees with every truthy deviceId / valueType parameter |
| `QueryProperties.OmittedFiltersLeaveWindowOnly` | src/clientAPI.js:39-40 | with deviceId and valueType null, "" or 0 the filter is the window alone |
| `QueryProperties.TextBoundExcludesTimestamps` | src/clientAPI.js:38 | a window bound left as text matches no reading with a numeric timestamp |
| `QueryProperties.NumericDeviceIdMissesTextIds` | src/clientAPI.js:140 | a digits-only deviceId is coerced to a number and then misses readings whose device id is text |
| `QueryProperties.FetchAndCountShareMatch` | src/clientAPI.js:66-72 | `values` and `valuesCnt` open with the same `$match` stage |
| `QueryProperties.ValuesPipelineMeaning` | src/clientAPI.js:35-55 | `values` returns the first 1000 matching readings, each projected to the fetch fields |
| `QueryProperties.ValuesRowCap` | src/clientAPI.js:52-54 | `values` returns at most 1000 rows, each the projection of a matching reading, with no field outside receivedAt, validAt, deviceId, valueType, value and `_id` |
| `QueryProperties.ValuesCntMeaning` | src/clientAPI.js:73-75 | `valuesCnt` returns one `{count: N}` document where N is the number of readings the shared filter accepts, and no document when N is 0 |
| `QueryProperties.CountAgreesWithFetch` | src/clientAPI.js:35-76 | on any collection the fetch returns min(1000, count) rows |
| `QueryProperties.EmptyCollectionYieldsNoRows` | src/clientAPI.js:35-76 | on an empty collection both windowed queries return no document |
| `QueryProperties.PerDevicePipelineShape` | src/clientAPI.js:85-121 | the pivot filters on window and truthy deviceId only; groups by (validAt, deviceId) pushing `{k: valueType, v: value}`; turns the pairs into an object; drops `_id` and lifts validAt and deviceId out of it while keeping the values; merges the key object after the pivoted values; promotes the merge to the row; and ends with an ascending sort on validAt |
| `QueryProperties.PerDeviceIgnoresValueType` | src/clientAPI.js:85-90 | the pivot pipeline is the same whatever valueType parameter is supplied |
| `QueryProperties.PerDeviceRow` | src/clientAPI.js:98-118 | a group's row exists iff every pushed value type is a string, and then carries the group's validAt and deviceId |
| `QueryProperties.PerDeviceRowShape` | src/clientAPI.js:92-118 | a pivoted row exists iff every value type is a string; it holds exactly validAt, deviceId and one field per observed value type; the key fields win over a same-named value type |
| `QueryProperties.RegistryDefaults` | src/clientAPI.js:29-84 | `values` and `valuesCnt` default to [now - 2592000000, now] with null deviceId and valueType; `valuesPerDevice` to [0, now] with null deviceId and no valueType |
| `QueryProperties.AggregatedValuesIsUnregistered` | src/clientAPI.js:158 | the name `aggregatedValues` resolves to no definition |
| `QueryProperties.EmptyQueryKeepsDefaults` | src/clientAPI.js:137-141 | for every registered query, merging an empty query string reproduces its defaults |
| `QueryProperties.MergedWindowBoundsAreSet` | src/clientAPI.js:137-141 | after any merge into a registered query's defaults, neither window bound is null |
| `QueryProperties.EveryPipelineOpensWithWindow` | src/clientAPI.js:35-90 | every registered pipeline opens with a `$match` bounding validAt by the window, with a deviceId conjunct iff deviceId is truthy, and a valueType conjunct iff the query is windowed and valueType is truthy |
| `NamedQueryService.HandleQuery` | src/clientAPI.js:135-153 | the outcome is UnknownQuery iff the name is not registered; a 200 carries rows the store returned; a 500 carries the generic message |
| `NamedQueryService.RouteQueryName` | src/clientAPI.js:157-159 | a path reaches the handler iff it matches `/aggregated-values` (any ASCII case, optional trailing slash), and it asks for `aggregatedValues` |
| `NamedQueryService.HandleRoute` | src/clientAPI.js:157-159 | a request is handled iff its path matches the one route, and every handled request ends in UnknownQuery |
| `NamedQueryService.UnknownNamesNeverReachStore` | src/clientAPI.js:135-137 | an unregistered name ends in UnknownQuery whatever the store would answer |
| `NamedQueryService.AggregatedValuesRouteIsUnresolved` | src/clientAPI.js:157-159 | requests to `/aggregated-values` and to `/Aggregated-Values/` end in UnknownQuery, whatever the query string and the store |
| `NamedQueryService.RegisteredQueryForwardsPipeline` | src/clientAPI.js:143-153 | a registered query sends its pipeline over the merged parameters to its collection; the store's rows give 200, a store failure gives 500 |
| `NamedQueryService.WindowedQueriesEndToEnd` | src/clientAPI.js:135-153 | against the reference store, `values` answers with at most 1000 rows and `valuesCnt` with the number of readings the merged filter accepts |
| `RawFilterService.HandleQuery` | clientAPI.js:26-49 | each request gets exactly one of 200/400/500; a missing or empty `q` gives 400 with the missing-parameter message; an unparsable `q` gives 400 with the invalid-JSON message; 500 with the generic message iff the store fails |
| `RawFilterService.RouteCollection` | clientAPI.js:51-59 | a path matching `/values` reads collection `values`, one matching `/log` reads `log` (any ASCII case, optional trailing slash), and a routed path matches the route of the collection it reads; no other path is routed |
| `RawFilterService.HandleRoute` | clientAPI.js:51-59 | a request is handled iff its path is routed; every handled request gets 200, 400 or 500, and a missing `q` gets the missing-parameter 400 |
| `Routing.RouteMatchingExamples` | clientAPI.js:57 | `/log`, `/LOG/` and `/Log` reach the `/log` handler; `/log//` and `/logs` do not |
| `Routing.RouteMatchingIgnoresCase` | clientAPI.js:51-59 | for every route and path: lower-casing is idempotent, a path matches iff its lower-cased form matches, and a matching path is as long as the route or one character longer |
| `RawFilterService.RoutesIgnoreCaseAndTrailingSlash` | clientAPI.js:52-58 | `/VALUES/` and `/Log` reach the `values` and `log` handlers; `/values/x` reaches none |
| `RawFilterService.RejectedRequestsNeverReachStore` | clientAPI.js:29-38 | a missing or unparsable `q` is answered the same whatever the store would answer |
| `RawFilterService.MissingCheckPrecedesParse` | clientAPI.js:29-31 | an absent or empty `q` is reported missing, before any parse |
| `RawFilterService.ParsedFilterForwardedVerbatim` | clientAPI.js:40-59 | the response depends on the store only through its answer for the route's collection and the parsed filter, unchanged |
| `RawFilterService.ReturnedDocumentsAreAllowlisted` | clientAPI.js:43 | each returned document has a field iff the stored one has it and it is validAt, deviceId, valueType or value, with the stored value; `_id` is always excluded |

## Left out

- Express setup, middleware, `listen`, route registration plumbing and console logging: I/O glue.
- The MongoDB client, `connectToMongo` and `process.exit`: network and process lifecycle; the store is a function parameter.
- What follows the named-query handler's throw (`UnknownQuery`): under Express 4 the rejected promise is unhandled, no response is sent and a Node.js 15+ process stops; Express 5 answers 500. This is framework and runtime behaviour, not this code's.
- Express route options other than the defaults (case-sensitive or strict routing), and percent-encoded letters in the path.
- JavaScript `Number`/`isNaN` on strings, `new Date(string)` and `JSON.parse`: runtime parsers, modelled as uninterpreted functions.
- Fractional and infinite numbers: numbers are integers, so `Number("1.5")` followed by the truncation inside `new Date` is not modelled.
- The clock: the source calls `Date.now()` separately for each default when the table is built; the model reads one `now`.
- Evaluation of `$group`, `$set`, `$project` with computed fields, `$replaceRoot` and `$sort`: the pivot is pinned stage by stage (`PerDevicePipelineShape` states all seven stages) and the row its reshape stages build from one group is evaluated (`PerDeviceRow`), but the whole pipeline is not run; the reference store fails on these stages.
- Missing fields inside the pivot's group key, and `$gte`/`$lte` against `null` matching missing fields: documents are flat maps of `Value`, and merged window bounds are never null.
- Collations: strings compare by code point, which is UTF-8 byte order, the store's default binary comparison; a collation-aware order is not modelled.
- Array- and object-valued query parameters: `RawQuery` maps each key to one string. Under Express 4's default extended query parser, `?deviceId[$ne]=x` makes `deviceId` the object `{$ne: "x"}`. Coercion passes it through: `isNaN` holds and the Date is invalid. The object is truthy, so it lands in `$match` as `deviceId: {$ne: "x"}`, and callers can choose query operators on the named path. A repeated key, or an array or object `q` on the raw-filter path, is left out for the same reason.
- PerDeviceRowShape: documents are flat and every reading is assumed to carry both `valueType` and `value`. In MongoDB a reading missing either pushes `{k}` or `{v}` only, and `$arrayToObject` then fails. So "a row exists iff every value type is a string" holds only for readings that carry both fields.
- Async handling and concurrent requests.
