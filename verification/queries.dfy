/** The registry of named queries: for each name a collection, default
    parameters and a pure function from parameters to a pipeline. */
module Queries {
  import opened Wrappers
  import opened JsValues
  import opened Pipeline

  /** 1000 * 60 * 60 * 24 * 30: thirty days in milliseconds. */
  const ThirtyDaysMs: int := 1000 * 60 * 60 * 24 * 30

  /** The row cap of the raw fetch. */
  const FetchRowCap: nat := 1000

  /** The fields the raw fetch returns (besides `_id`, which an inclusion
      projection keeps unless told otherwise). */
  const FetchFields: set<string> := {"receivedAt", "validAt", "deviceId", "valueType", "value"}

  const FetchProjection: map<string, ProjItem> :=
    map["receivedAt" := Keep, "validAt" := Keep, "deviceId" := Keep, "valueType" := Keep, "value" := Keep]

  const RegisteredNames: set<string> := {"values", "valuesCnt", "valuesPerDevice"}

  // ---------------------------------------------------------------------
  // Filters

  /** `validAt: { $gte: validAtStart, $lte: validAtEnd }`. */
  function Window(p: Params): Filter
  {
    map["validAt" := Between(Param(p, "validAtStart"), Param(p, "validAtEnd"))]
  }

  /** `...(params[key] && { key: params[key] })`: spreading a falsy value
      adds nothing. */
  function EqualityIfTruthy(p: Params, key: string): Filter
  {
    if Truthy(Param(p, key)) then map[key := Equals(Param(p, key))] else map[]
  }

  /** The `$match` document shared by `values` and `valuesCnt`. */
  function ValuesMatch(p: Params): (f: Filter)
    ensures f.Keys <= {"validAt", "deviceId", "valueType"}
    ensures "validAt" in f && f["validAt"] == Between(Param(p, "validAtStart"), Param(p, "validAtEnd"))
    ensures "deviceId" in f <==> Truthy(Param(p, "deviceId"))
    ensures "valueType" in f <==> Truthy(Param(p, "valueType"))
    ensures forall k :: k in f && k != "validAt" ==> f[k] == Equals(Param(p, k))
  {
    Window(p) + EqualityIfTruthy(p, "deviceId") + EqualityIfTruthy(p, "valueType")
  }

  /** The `$match` document of `valuesPerDevice`: the same window and device
      conjunct, and never a value-type conjunct. */
  function PerDeviceMatch(p: Params): (f: Filter)
    ensures "valueType" !in f
    ensures f == ValuesMatch(p) - {"valueType"}
  {
    Window(p) + EqualityIfTruthy(p, "deviceId")
  }

  // ---------------------------------------------------------------------
  // Pipelines

  /** `values`: the matching readings, projected to the fetch fields, at
      most 1000 of them. */
  function ValuesPipeline(p: Params): (ps: seq<Stage>)
    ensures |ps| == 3
    ensures ps[0] == Match(ValuesMatch(p))
    ensures ps[|ps| - 1] == Limit(FetchRowCap)
    ensures forall i :: 0 <= i < |ps| ==> ps[i].Project? ==> ps[i].spec.Keys == FetchFields
    ensures ps[1].Project? && forall k :: k in ps[1].spec ==> ps[1].spec[k] == Keep
  {
    [Match(ValuesMatch(p)), Project(FetchProjection), Limit(FetchRowCap)]
  }

  /** `valuesCnt`: the number of matching readings. */
  function ValuesCntPipeline(p: Params): (ps: seq<Stage>)
    ensures |ps| == 2
    ensures ps[0] == ValuesPipeline(p)[0]
    ensures ps[|ps| - 1] == Count("count")
    ensures forall i :: 0 <= i < |ps| ==> !ps[i].Project? && !ps[i].Limit?
  {
    [Match(ValuesMatch(p)), Count("count")]
  }

  /** `{ validAt: "$validAt", deviceId: "$deviceId" }`: the group key, and
      later the object that puts the key fields back into a row. */
  const KeyObject: Expr := ObjectOf([("validAt", Ref("validAt")), ("deviceId", Ref("deviceId"))])

  /** `valuesPerDevice`: one wide row per (validAt, deviceId) with one field
      per value type, sorted by validAt. */
  function ValuesPerDevicePipeline(p: Params): (ps: seq<Stage>)
    ensures |ps| == 7
    ensures ps[0].Match? && ps[0].filter == ValuesPipeline(p)[0].filter - {"valueType"}
    ensures ps[1].Group? && ps[1].id == KeyObject
    ensures ps[|ps| - 1] == Sort("validAt", Ascending)
    ensures forall i :: 0 <= i < |ps| ==> !ps[i].Limit?
  {
    [ Match(PerDeviceMatch(p)),
      Group(KeyObject, map["values" := Push(ObjectOf([("k", Ref("valueType")), ("v", Ref("value"))]))]),
      Set(map["values" := ArrayToObject(Ref("values"))]),
      Project(map["_id" := Drop,
                  "validAt" := Computed(FieldPath(["_id", "validAt"])),
                  "deviceId" := Computed(FieldPath(["_id", "deviceId"])),
                  "values" := Keep]),
      Set(map["combined" := MergeObjects([Ref("values"), KeyObject])]),
      ReplaceRoot(Ref("combined")),
      Sort("validAt", Ascending) ]
  }

  // ---------------------------------------------------------------------
  // Registry

  datatype QueryDefinition = QueryDefinition(
    collection: string,
    parameters: Params,
    pipeline: Params -> seq<Stage>)

  /** Defaults of `values` and `valuesCnt`: the trailing thirty days up to
      `now` (the clock reading taken when the table is built), no device or
      value-type filter. */
  function WindowedDefaults(now: int): (p: Params)
    ensures p.Keys == {"validAtStart", "validAtEnd", "deviceId", "valueType"}
    ensures p["validAtEnd"] == Num(now) && p["validAtStart"] == Num(now - 2592000000)
    ensures !Truthy(p["deviceId"]) && !Truthy(p["valueType"])
  {
    map["validAtStart" := Num(now - ThirtyDaysMs), "validAtEnd" := Num(now),
        "deviceId" := Null, "valueType" := Null]
  }

  /** Defaults of `valuesPerDevice`: from the epoch up to `now`, no device
      filter, and no value-type parameter at all. */
  function PerDeviceDefaults(now: int): (p: Params)
    ensures p.Keys == {"validAtStart", "validAtEnd", "deviceId"}
    ensures p["validAtStart"] == Num(0) && p["validAtEnd"] == Num(now)
    ensures !Truthy(p["deviceId"])
  {
    map["validAtStart" := Num(0), "validAtEnd" := Num(now), "deviceId" := Null]
  }

  function Registry(now: int): (r: map<string, QueryDefinition>)
    ensures r.Keys == RegisteredNames
    ensures forall name :: name in r ==> r[name].collection == "values"
    ensures r["values"].parameters == r["valuesCnt"].parameters
  {
    map["values" := QueryDefinition("values", WindowedDefaults(now), ValuesPipeline),
        "valuesCnt" := QueryDefinition("values", WindowedDefaults(now), ValuesCntPipeline),
        "valuesPerDevice" := QueryDefinition("values", PerDeviceDefaults(now), ValuesPerDevicePipeline)]
  }

  /** `queries[name]`: `undefined` for a name outside the table. */
  function Lookup(now: int, name: string): (d: Option<QueryDefinition>)
    ensures d.Some? <==> name in RegisteredNames
    ensures d.Some? ==> d.value.collection == "values"
    ensures d.Some? ==> {"validAtStart", "validAtEnd", "deviceId"} <= d.value.parameters.Keys
    ensures name == "values" ==> d.value.pipeline == ValuesPipeline
    ensures name == "valuesCnt" ==> d.value.pipeline == ValuesCntPipeline
    ensures name == "valuesPerDevice" ==> d.value.pipeline == ValuesPerDevicePipeline
  {
    if name in Registry(now) then Some(Registry(now)[name]) else None
  }
}
