/** The request handler of the named-query server: look the query up,
    merge the parameters, build the pipeline and hand it to the store. */
module NamedQueryService {
  import opened Wrappers
  import opened JsValues
  import opened Coercion
  import opened Merge
  import opened Pipeline
  import opened Semantics
  import opened Queries
  import opened Routing
  import QueryProperties

  /** What the store answers to `collection.aggregate(pipeline).toArray()`. */
  datatype StoreReply = Rows(docs: seq<Doc>) | StoreFailure

  /** The store, as a function from (collection, pipeline) to its answer. */
  type Aggregate = (string, seq<Stage>) -> StoreReply

  const ExecutionFailedMessage: string := "Failed to execute query"

  /** The outcome of one request:
      - Ok: status 200 with the result rows;
      - ExecutionFailed: status 500 with `{ error: message }`;
      - UnknownQuery: the handler was given `undefined` for the definition and
        throws while copying its parameters, before its try block. It never
        reaches the store and writes no response itself; the async route
        handler's promise is then rejected, which Express 4 leaves unhandled
        (no response is sent, and a Node.js 15+ process stops on the
        unhandled rejection) and Express 5 answers with 500. */
  datatype Outcome = Ok(rows: seq<Doc>) | ExecutionFailed(message: string) | UnknownQuery

  /** The parameter set a registered query runs with. */
  function RequestParams(def: QueryDefinition, query: RawQuery, numParse: NumParser, dateParse: DateParser): Params
  {
    MergeParameters(def.parameters, query, numParse, dateParse)
  }

  /** One request for the query `name`. `now` is the clock reading taken
      once, when the query table is built at process start: the default
      window is fixed then and does not advance from request to request. */
  function HandleQuery(now: int, name: string, query: RawQuery, numParse: NumParser, dateParse: DateParser, aggregate: Aggregate): (o: Outcome)
    ensures o.UnknownQuery? <==> name !in RegisteredNames
    ensures o.Ok? ==> exists ps :: aggregate("values", ps) == Rows(o.rows)
    ensures o.ExecutionFailed? ==> o.message == ExecutionFailedMessage
  {
    match Lookup(now, name)
    case None => UnknownQuery
    case Some(def) =>
      var pipeline := def.pipeline(RequestParams(def, query, numParse, dateParse));
      match aggregate(def.collection, pipeline)
      case Rows(docs) => Ok(docs)
      case StoreFailure => ExecutionFailed(ExecutionFailedMessage)
  }

  /** The only route the server registers, and the query name it uses. */
  function RouteQueryName(path: string): (name: Option<string>)
    ensures name.Some? <==> RouteMatches("/aggregated-values", path)
    ensures name.Some? ==> name.value == "aggregatedValues"
  {
    if RouteMatches("/aggregated-values", path) then Some("aggregatedValues") else None
  }

  /** A request to the server; None for a path no route matches. Every
      routed request ends in UnknownQuery. */
  function HandleRoute(now: int, path: string, query: RawQuery, numParse: NumParser, dateParse: DateParser, aggregate: Aggregate): (r: Option<Outcome>)
    ensures r.Some? <==> RouteMatches("/aggregated-values", path)
    ensures r.Some? ==> r.value == UnknownQuery
  {
    match RouteQueryName(path)
    case None => None
    case Some(name) => Some(HandleQuery(now, name, query, numParse, dateParse, aggregate))
  }

  /** A name outside the table never reaches the store: the outcome is the
      same whatever the store would answer. */
  lemma UnknownNamesNeverReachStore(now: int, name: string, query: RawQuery, numParse: NumParser, dateParse: DateParser, aggregate1: Aggregate, aggregate2: Aggregate)
    requires name !in RegisteredNames
    ensures HandleQuery(now, name, query, numParse, dateParse, aggregate1) == UnknownQuery
    ensures HandleQuery(now, name, query, numParse, dateParse, aggregate1)
         == HandleQuery(now, name, query, numParse, dateParse, aggregate2)
  {
  }

  /** The one registered route resolves to no query, for every request. */
  lemma AggregatedValuesRouteIsUnresolved(now: int, query: RawQuery, numParse: NumParser, dateParse: DateParser, aggregate: Aggregate)
    ensures HandleRoute(now, "/aggregated-values", query, numParse, dateParse, aggregate) == Some(UnknownQuery)
    ensures HandleRoute(now, "/Aggregated-Values/", query, numParse, dateParse, aggregate) == Some(UnknownQuery)
  {
    assert AsciiLower("/aggregated-values") == "/aggregated-values";
    assert AsciiLower("/Aggregated-Values/") == "/aggregated-values/";
  }

  /** A registered query sends exactly its pipeline over the merged
      parameters to its collection, and answers 200 or 500 according to the
      store alone. */
  lemma RegisteredQueryForwardsPipeline(now: int, name: string, query: RawQuery, numParse: NumParser, dateParse: DateParser, aggregate: Aggregate)
    requires name in RegisteredNames
    ensures var def := Lookup(now, name).value;
      var reply := aggregate("values", def.pipeline(RequestParams(def, query, numParse, dateParse)));
      && (reply.Rows? ==> HandleQuery(now, name, query, numParse, dateParse, aggregate) == Ok(reply.docs))
      && (reply.StoreFailure? ==> HandleQuery(now, name, query, numParse, dateParse, aggregate) == ExecutionFailed(ExecutionFailedMessage))
  {
  }

  /** A store that evaluates pipelines by the reference semantics over the
      collection contents `contents`, and fails on stages it does not cover. */
  function ReferenceStore(contents: string -> seq<Doc>): Aggregate
  {
    (collection: string, ps: seq<Stage>) =>
      match Run(ps, contents(collection))
      case Some(rows) => Rows(rows)
      case None => StoreFailure
  }

  /** End to end, whatever the query string: `values` answers 200 with at
      most 1000 rows, and `valuesCnt` answers 200 with the number of
      readings `values` would match before its cap. */
  lemma WindowedQueriesEndToEnd(now: int, query: RawQuery, numParse: NumParser, dateParse: DateParser, contents: string -> seq<Doc>)
    ensures var fetch := HandleQuery(now, "values", query, numParse, dateParse, ReferenceStore(contents));
      var count := HandleQuery(now, "valuesCnt", query, numParse, dateParse, ReferenceStore(contents));
      var p := MergeParameters(WindowedDefaults(now), query, numParse, dateParse);
      && fetch.Ok? && |fetch.rows| <= 1000
      && count.Ok? && ReadCount(count.rows, "count") == |FilterDocs(ValuesMatch(p), contents("values"))|
  {
    var p := MergeParameters(WindowedDefaults(now), query, numParse, dateParse);
    QueryProperties.ValuesRowCap(p, contents("values"));
    QueryProperties.ValuesCntMeaning(p, contents("values"));
  }
}
