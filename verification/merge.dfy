/** Merging a query definition's defaults with the caller's query string. */
module Merge {
  import opened JsValues
  import opened Coercion

  /** The parsed query string: each key with its single text value. */
  type RawQuery = map<string, string>

  /** `{ ...defaults }` followed by `params[key] = coerce(value)` for every
      query entry. Query keys are distinct, so the order of the writes does
      not matter and a caller key always wins over a default. */
  function MergeParameters(defaults: Params, query: RawQuery, numParse: NumParser, dateParse: DateParser): (params: Params)
    ensures params.Keys == defaults.Keys + query.Keys
    ensures forall k :: k in query ==> params[k] == Coerce(query[k], numParse, dateParse)
    ensures forall k :: k in defaults && k !in query ==> params[k] == defaults[k]
  {
    defaults + map k | k in query :: Coerce(query[k], numParse, dateParse)
  }

  /** The copy-then-assign loop of the request handler, visiting the query
      keys in any order; it always ends with the merged parameter set. */
  method MergeQuery(defaults: Params, query: RawQuery, numParse: NumParser, dateParse: DateParser)
    returns (params: Params)
    ensures params == MergeParameters(defaults, query, numParse, dateParse)
  {
    params := defaults;
    var pending := query.Keys;
    while pending != {}
      invariant pending <= query.Keys
      invariant params.Keys == defaults.Keys + (query.Keys - pending)
      invariant forall k :: k in query && k !in pending ==> params[k] == Coerce(query[k], numParse, dateParse)
      invariant forall k :: k in defaults && (k !in query || k in pending) ==> params[k] == defaults[k]
      decreases pending
    {
      var key :| key in pending;
      params := params[key := Coerce(query[key], numParse, dateParse)];
      pending := pending - {key};
    }
  }

  /** With no query string the merged set is exactly the defaults. */
  lemma MergeWithEmptyQuery(defaults: Params, numParse: NumParser, dateParse: DateParser)
    ensures MergeParameters(defaults, map[], numParse, dateParse) == defaults
  {
  }
}
