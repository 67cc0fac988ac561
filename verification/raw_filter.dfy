/** The request handler of the raw-filter server: the caller sends a
    structured filter as JSON text in `q`, and it is forwarded verbatim to
    the route's collection with a fixed field projection. */
module RawFilterService {
  import opened Wrappers
  import opened JsValues
  import opened Pipeline
  import opened Semantics
  import opened Routing

  const MissingQueryMessage: string := "Missing query string parameter \"q\""
  const InvalidQueryMessage: string := "Invalid query string. Must be a valid JSON object."
  const ExecutionFailedMessage: string := "Failed to execute query"

  /** The fields a returned document may carry. */
  const ReturnedFields: set<string> := {"validAt", "deviceId", "valueType", "value"}

  /** `{ validAt: 1, deviceId: 1, valueType: 1, value: 1, _id: 0 }`. */
  const RawProjection: map<string, ProjItem> :=
    map["validAt" := Keep, "deviceId" := Keep, "valueType" := Keep, "value" := Keep, "_id" := Drop]

  datatype Body = Documents(docs: seq<Doc>) | Error(message: string)

  datatype Response = Response(status: int, body: Body)

  /** What the store answers to `collection.find(filter)`, before the
      projection is applied. */
  datatype FindReply = Found(docs: seq<Doc>) | FindFailed

  /** `!queryString`: the parameter is absent or empty. */
  predicate QueryMissing(q: Option<string>)
  {
    q.None? || q.value == ""
  }

  /** The handler, for a collection, the `q` parameter, a JSON parser
      (None when `JSON.parse` throws) and the store's `find`. */
  function HandleQuery<F>(collection: string, q: Option<string>, parse: string -> Option<F>, find: (string, F) -> FindReply): (r: Response)
    ensures r.status in {200, 400, 500}
    ensures QueryMissing(q) ==> r == Response(400, Error(MissingQueryMessage))
    ensures !QueryMissing(q) && parse(q.value).None? ==> r == Response(400, Error(InvalidQueryMessage))
    ensures r.status == 400 <==> QueryMissing(q) || parse(q.value).None?
    ensures r.status == 500 <==> !QueryMissing(q) && parse(q.value).Some? && find(collection, parse(q.value).value).FindFailed?
    ensures r.status == 500 ==> r.body == Error(ExecutionFailedMessage)
    ensures r.status == 200 ==> r.body.Documents?
  {
    if QueryMissing(q) then Response(400, Error(MissingQueryMessage))
    else match parse(q.value)
      case None => Response(400, Error(InvalidQueryMessage))
      case Some(filter) =>
        match find(collection, filter)
        case Found(docs) => Response(200, Documents(ProjectAll(RawProjection, docs)))
        case FindFailed => Response(500, Error(ExecutionFailedMessage))
  }

  /** `/values` reads the `values` collection and `/log` the `log` one. */
  function RouteCollection(path: string): (c: Option<string>)
    ensures c.Some? <==> RouteMatches("/values", path) || RouteMatches("/log", path)
    ensures c.Some? ==> RouteMatches("/" + c.value, path)
    ensures RouteMatches("/values", path) ==> c == Some("values")
    ensures RouteMatches("/log", path) ==> c == Some("log")
  {
    if RouteMatches("/values", path) then Some("values")
    else if RouteMatches("/log", path) then Some("log")
    else None
  }

  /** A request to the server; None for a path no route matches. */
  function HandleRoute<F>(path: string, q: Option<string>, parse: string -> Option<F>, find: (string, F) -> FindReply): (r: Option<Response>)
    ensures r.Some? <==> RouteCollection(path).Some?
    ensures r.Some? ==> r.value.status in {200, 400, 500}
    ensures r.Some? && QueryMissing(q) ==> r.value == Response(400, Error(MissingQueryMessage))
  {
    match RouteCollection(path)
    case None => None
    case Some(collection) => Some(HandleQuery(collection, q, parse, find))
  }

  /** The routes match regardless of ASCII case and with one trailing
      slash; other paths reach no handler. */
  lemma RoutesIgnoreCaseAndTrailingSlash()
    ensures RouteCollection("/values") == Some("values") && RouteCollection("/VALUES/") == Some("values")
    ensures RouteCollection("/Log") == Some("log")
    ensures RouteCollection("/values/x").None?
  {
    assert AsciiLower("/values") == "/values";
    assert AsciiLower("/VALUES/") == "/values/";
    assert AsciiLower("/Log") == "/log";
    assert AsciiLower("/values/x")[7] == '/';
    assert |AsciiLower("/values/x")| == 9;
  }

  /** A missing or unparsable `q` is answered without consulting the store. */
  lemma RejectedRequestsNeverReachStore<F>(collection: string, q: Option<string>, parse: string -> Option<F>, find1: (string, F) -> FindReply, find2: (string, F) -> FindReply)
    requires QueryMissing(q) || parse(q.value).None?
    ensures HandleQuery(collection, q, parse, find1) == HandleQuery(collection, q, parse, find2)
  {
  }

  /** The missing-parameter check comes first: an empty `q` is reported
      missing even when the parser would reject it too. */
  lemma MissingCheckPrecedesParse<F>(collection: string, parse: string -> Option<F>, find: (string, F) -> FindReply)
    ensures HandleQuery(collection, Some(""), parse, find).body == Error(MissingQueryMessage)
    ensures HandleQuery(collection, None, parse, find).body == Error(MissingQueryMessage)
  {
  }

  /** The parsed filter is forwarded unchanged to the route's collection:
      the response depends on the store only through its answer to
      `find(collection, filter)` for exactly that collection and filter. */
  lemma ParsedFilterForwardedVerbatim<F>(path: string, q: Option<string>, parse: string -> Option<F>, find1: (string, F) -> FindReply, find2: (string, F) -> FindReply)
    requires RouteCollection(path).Some?
    requires !QueryMissing(q) && parse(q.value).Some?
    requires find1(RouteCollection(path).value, parse(q.value).value) == find2(RouteCollection(path).value, parse(q.value).value)
    ensures HandleRoute(path, q, parse, find1) == HandleRoute(path, q, parse, find2)
  {
  }

  /** Every returned document is the stored one cut down to the allowlist:
      a field is present exactly when the stored document has it and it is
      one of validAt, deviceId, valueType, value; `_id` never is. */
  lemma ReturnedDocumentsAreAllowlisted<F>(collection: string, q: Option<string>, parse: string -> Option<F>, find: (string, F) -> FindReply)
    requires HandleQuery(collection, q, parse, find).status == 200
    ensures var found := find(collection, parse(q.value).value);
      var docs := HandleQuery(collection, q, parse, find).body.docs;
      && found.Found? && |docs| == |found.docs|
      && forall i, k :: 0 <= i < |docs| ==>
           && (k in docs[i] <==> k in found.docs[i] && k in ReturnedFields)
           && (k in docs[i] ==> docs[i][k] == found.docs[i][k])
           && "_id" !in docs[i]
  {
  }
}
