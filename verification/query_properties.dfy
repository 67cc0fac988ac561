/** What the named queries mean: their filters, row cap, count, the shape
    of the pivot, and the registry's defaults. */
module QueryProperties {
  import opened Wrappers
  import opened JsValues
  import opened Coercion
  import opened Merge
  import opened Pipeline
  import opened Semantics
  import opened Queries

  function Min(a: int, b: int): int
  {
    if a <= b then a else b
  }

  // ---------------------------------------------------------------------
  // Filters

  /** The window condition is inclusive at both ends on timestamps. */
  lemma WindowIsInclusive(d: Doc, lo: int, hi: int)
    ensures Satisfies(d, "validAt", Between(Num(lo), Num(hi)))
        <==> "validAt" in d && d["validAt"].Num? && lo <= d["validAt"].n <= hi
  {
  }

  /** A document passes the shared filter exactly when it lies in the
      window and agrees with each truthy device / value-type parameter. */
  lemma ValuesMatchMeaning(p: Params, d: Doc)
    ensures Matches(ValuesMatch(p), d)
        <==> && Satisfies(d, "validAt", Between(Param(p, "validAtStart"), Param(p, "validAtEnd")))
             && (Truthy(Param(p, "deviceId")) ==> "deviceId" in d && d["deviceId"] == Param(p, "deviceId"))
             && (Truthy(Param(p, "valueType")) ==> "valueType" in d && d["valueType"] == Param(p, "valueType"))
  {
  }

  /** With `deviceId` and `valueType` both falsy (null, "" or 0) the filter
      is the window alone: every device and type in range matches. */
  lemma OmittedFiltersLeaveWindowOnly(p: Params, d: Doc)
    requires !Truthy(Param(p, "deviceId")) && !Truthy(Param(p, "valueType"))
    ensures ValuesMatch(p) == Window(p)
    ensures Matches(ValuesMatch(p), d) <==> Satisfies(d, "validAt", Between(Param(p, "validAtStart"), Param(p, "validAtEnd")))
  {
  }

  /** A bound that stayed text (neither number nor date) matches no reading
      with a numeric timestamp. */
  lemma TextBoundExcludesTimestamps(p: Params, d: Doc)
    requires Param(p, "validAtStart").Str? || Param(p, "validAtEnd").Str?
    requires "validAt" in d && d["validAt"].Num?
    ensures !Matches(ValuesMatch(p), d)
  {
  }

  /** Numeric-first coercion: a device id given as digits becomes a number
      and no longer matches a reading whose device id is stored as text. */
  lemma NumericDeviceIdMissesTextIds(defaults: Params, raw: string, numParse: NumParser, dateParse: DateParser, d: Doc)
    requires numParse(raw).Some? && numParse(raw).value != 0
    requires "deviceId" in d && d["deviceId"].Str?
    ensures !Matches(ValuesMatch(MergeParameters(defaults, map["deviceId" := raw], numParse, dateParse)), d)
  {
  }

  // ---------------------------------------------------------------------
  // values and valuesCnt

  /** Both windowed queries open with the very same `$match` stage. */
  lemma FetchAndCountShareMatch(p: Params)
    ensures ValuesPipeline(p)[0] == ValuesCntPipeline(p)[0] == Match(ValuesMatch(p))
  {
  }

  /** The fetch returns the first 1000 matching readings, projected. */
  lemma ValuesPipelineMeaning(p: Params, docs: seq<Doc>)
    ensures Run(ValuesPipeline(p), docs)
         == Some(Take(ProjectAll(FetchProjection, FilterDocs(ValuesMatch(p), docs)), FetchRowCap))
  {
    var ps := ValuesPipeline(p);
    var matched := FilterDocs(ValuesMatch(p), docs);
    var projected := ProjectAll(FetchProjection, matched);
    assert ApplyStage(ps[0], docs) == Some(matched);
    assert ps[1..] == [Project(FetchProjection), Limit(FetchRowCap)];
    assert ApplyStage(ps[1], matched) == Some(projected);
    assert ps[1..][1..] == [Limit(FetchRowCap)];
    assert Run(ps[1..][1..], projected) == Run([], Take(projected, FetchRowCap));
  }

  /** Row cap and field allowlist of the fetch: at most 1000 rows, each the
      projection of a matching reading onto the fetch fields and `_id`. */
  lemma ValuesRowCap(p: Params, docs: seq<Doc>)
    ensures Run(ValuesPipeline(p), docs).Some?
    ensures var rows := Run(ValuesPipeline(p), docs).value;
      && |rows| <= 1000
      && forall i :: 0 <= i < |rows| ==>
           && rows[i].Keys <= FetchFields + {"_id"}
           && exists d :: d in docs && Matches(ValuesMatch(p), d) && rows[i] == ProjectDoc(FetchProjection, d)
  {
    ValuesPipelineMeaning(p, docs);
    var matched := FilterDocs(ValuesMatch(p), docs);
    var projected := ProjectAll(FetchProjection, matched);
    var rows := Take(projected, FetchRowCap);
    forall i | 0 <= i < |rows|
      ensures rows[i].Keys <= FetchFields + {"_id"}
      ensures exists d :: d in docs && Matches(ValuesMatch(p), d) && rows[i] == ProjectDoc(FetchProjection, d)
    {
      assert rows[i] == projected[i] == ProjectDoc(FetchProjection, matched[i]);
      assert matched[i] in matched;
    }
  }

  /** The count query reports the number of readings the shared filter
      accepts: one `{count: N}` document when N > 0, none when N = 0. */
  lemma ValuesCntMeaning(p: Params, docs: seq<Doc>)
    ensures Run(ValuesCntPipeline(p), docs) == Some(CountDocs("count", |FilterDocs(ValuesMatch(p), docs)|))
  {
    var ps := ValuesCntPipeline(p);
    var matched := FilterDocs(ValuesMatch(p), docs);
    assert ApplyStage(ps[0], docs) == Some(matched);
    assert ps[1..] == [Count("count")];
    assert Run(ps[1..], matched) == Run([], CountDocs("count", |matched|));
  }

  /** Cross-check of the two windowed queries on one collection: the fetch
      returns as many rows as the count reports, up to the cap. */
  lemma CountAgreesWithFetch(p: Params, docs: seq<Doc>)
    ensures Run(ValuesPipeline(p), docs).Some? && Run(ValuesCntPipeline(p), docs).Some?
    ensures |Run(ValuesPipeline(p), docs).value|
         == Min(FetchRowCap, ReadCount(Run(ValuesCntPipeline(p), docs).value, "count"))
  {
    ValuesPipelineMeaning(p, docs);
    ValuesCntMeaning(p, docs);
  }

  /** On an empty collection both windowed queries return no document. */
  lemma EmptyCollectionYieldsNoRows(p: Params)
    ensures Run(ValuesPipeline(p), []) == Some([])
    ensures Run(ValuesCntPipeline(p), []) == Some([])
  {
    ValuesPipelineMeaning(p, []);
    ValuesCntMeaning(p, []);
  }

  // ---------------------------------------------------------------------
  // valuesPerDevice

  /** The pivot's stage list: the device-and-window filter without any
      value-type conjunct; a group keyed by (validAt, deviceId) that pushes
      `{k: valueType, v: value}` pairs; the pairs turned into an object; the
      key fields lifted out of `_id`; the key object merged after the
      pivoted values and the merge promoted to the row (the steps
      `PerDeviceRow` evaluates for one group); and a final ascending sort on
      validAt. */
  lemma PerDevicePipelineShape(p: Params)
    ensures var ps := ValuesPerDevicePipeline(p);
      && |ps| == 7
      && ps[0].Match? && "valueType" !in ps[0].filter
      && ("deviceId" in ps[0].filter <==> Truthy(Param(p, "deviceId")))
      && ps[0].filter["validAt"] == Between(Param(p, "validAtStart"), Param(p, "validAtEnd"))
      && ps[1].Group? && ps[1].id == ObjectOf([("validAt", Ref("validAt")), ("deviceId", Ref("deviceId"))])
      && ps[1].accumulators == map["values" := Push(ObjectOf([("k", Ref("valueType")), ("v", Ref("value"))]))]
      && ps[2] == Set(map["values" := ArrayToObject(Ref("values"))])
      && ps[3] == Project(map["_id" := Drop,
                              "validAt" := Computed(FieldPath(["_id", "validAt"])),
                              "deviceId" := Computed(FieldPath(["_id", "deviceId"])),
                              "values" := Keep])
      && ps[4] == Set(map["combined" := MergeObjects([Ref("values"), ps[1].id])])
      && ps[5] == ReplaceRoot(Ref("combined"))
      && ps[6] == Sort("validAt", Ascending)
  {
  }

  /** The value type given to the pivot never reaches its filter. */
  lemma PerDeviceIgnoresValueType(p: Params, vt: Value)
    ensures ValuesPerDevicePipeline(p["valueType" := vt]) == ValuesPerDevicePipeline(p)
  {
  }

  /** One pivoted row, built from a group's key and its pushed
      `{k: valueType, v: value}` pairs as the reshape stages do: the pairs
      become an object, the key object is merged after it, and the merge
      becomes the row. None when a value type is not a string. */
  function PerDeviceRow(validAt: Value, deviceId: Value, pushed: seq<(Value, Value)>): (r: Option<Doc>)
    ensures r.Some? <==> forall i :: 0 <= i < |pushed| ==> pushed[i].0.Str?
    ensures r.Some? ==> "validAt" in r.value && r.value["validAt"] == validAt
    ensures r.Some? ==> "deviceId" in r.value && r.value["deviceId"] == deviceId
  {
    match PairsToObject(pushed)
    case None => None
    case Some(values) => Some(MergeDocs([values, map["validAt" := validAt, "deviceId" := deviceId]]))
  }

  /** A pivoted row holds exactly validAt, deviceId and one field per
      observed value type; the key fields win over a value type of the same
      name, and every other field carries a value pushed under its name. */
  lemma PerDeviceRowShape(validAt: Value, deviceId: Value, pushed: seq<(Value, Value)>)
    ensures PerDeviceRow(validAt, deviceId, pushed).Some? <==> forall i :: 0 <= i < |pushed| ==> pushed[i].0.Str?
    ensures PerDeviceRow(validAt, deviceId, pushed).Some? ==>
      var row := PerDeviceRow(validAt, deviceId, pushed).value;
      && row.Keys == {"validAt", "deviceId"} + (set i | 0 <= i < |pushed| :: pushed[i].0.s)
      && row["validAt"] == validAt && row["deviceId"] == deviceId
      && forall k :: k in row && k != "validAt" && k != "deviceId" ==>
           exists i :: 0 <= i < |pushed| && pushed[i] == (Str(k), row[k])
  {
    if PairsToObject(pushed).Some? {
      var values := PairsToObject(pushed).value;
      var keys := map["validAt" := validAt, "deviceId" := deviceId];
      var row := MergeDocs([values, keys]);
      forall k | k in row
        ensures k in values || k in keys
      {
        MergeDocsAddsNoField([values, keys], k);
      }
      forall k | k in row && k != "validAt" && k != "deviceId"
        ensures row[k] == values[k]
      {
        MergeDocsLastHolderWins([values, keys], 0, k);
      }
    }
  }

  // ---------------------------------------------------------------------
  // Registry

  /** The declared defaults: the trailing thirty days (2592000000 ms) up to
      `now` for the windowed queries, from the epoch for the pivot, no
      device or value-type filter, and no value-type key for the pivot. */
  lemma RegistryDefaults(now: int)
    ensures Lookup(now, "values").Some? && Lookup(now, "valuesCnt").Some? && Lookup(now, "valuesPerDevice").Some?
    ensures Lookup(now, "values").value.parameters == Lookup(now, "valuesCnt").value.parameters
         == map["validAtStart" := Num(now - 2592000000), "validAtEnd" := Num(now),
                "deviceId" := Null, "valueType" := Null]
    ensures Lookup(now, "valuesPerDevice").value.parameters
         == map["validAtStart" := Num(0), "validAtEnd" := Num(now), "deviceId" := Null]
  {
  }

  /** The name `/aggregated-values` asks for is not in the table. */
  lemma AggregatedValuesIsUnregistered(now: int)
    ensures Lookup(now, "aggregatedValues").None?
  {
  }

  /** With no query string every registered query runs on its defaults. */
  lemma EmptyQueryKeepsDefaults(now: int, name: string, numParse: NumParser, dateParse: DateParser)
    requires Lookup(now, name).Some?
    ensures var defaults := Lookup(now, name).value.parameters;
      MergeParameters(defaults, map[], numParse, dateParse) == defaults
  {
  }

  /** After merging into a registered query's defaults, neither window bound
      is ever null: the defaults are numbers and coercion never yields null. */
  lemma MergedWindowBoundsAreSet(now: int, name: string, query: RawQuery, numParse: NumParser, dateParse: DateParser)
    requires Lookup(now, name).Some?
    ensures var p := MergeParameters(Lookup(now, name).value.parameters, query, numParse, dateParse);
      Param(p, "validAtStart") != Null && Param(p, "validAtEnd") != Null
  {
  }

  /** Every registered pipeline opens with a `$match` that bounds validAt
      by [validAtStart, validAtEnd] and carries the device conjunct exactly
      when deviceId is truthy; only the windowed queries narrow by type. */
  lemma EveryPipelineOpensWithWindow(now: int, name: string, p: Params)
    requires Lookup(now, name).Some?
    ensures var ps := Lookup(now, name).value.pipeline(p);
      && |ps| > 0 && ps[0].Match?
      && "validAt" in ps[0].filter
      && ps[0].filter["validAt"] == Between(Param(p, "validAtStart"), Param(p, "validAtEnd"))
      && ("deviceId" in ps[0].filter <==> Truthy(Param(p, "deviceId")))
      && ("valueType" in ps[0].filter <==> name != "valuesPerDevice" && Truthy(Param(p, "valueType")))
  {
  }
}
