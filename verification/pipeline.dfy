/** Aggregation pipeline stages as plain data: what the pipeline builders
    emit and the data store receives. */
module Pipeline {
  import opened JsValues

  /** One condition of a `$match` document. */
  datatype Cond =
    | Between(lo: Value, hi: Value)   // { $gte: lo, $lte: hi }
    | Equals(v: Value)                // field: v

  /** A `$match` document: field name to the condition on that field. */
  type Filter = map<string, Cond>

  /** Aggregation expressions used by the pivot query. */
  datatype Expr =
    | FieldPath(path: seq<string>)             // "$a.b"
    | ObjectOf(fields: seq<(string, Expr)>)    // { k1: e1, k2: e2 }, in key order
    | ArrayToObject(arg: Expr)                 // { $arrayToObject: e }
    | MergeObjects(args: seq<Expr>)            // { $mergeObjects: [e1, e2] }

  /** One entry of a `$project` document. */
  datatype ProjItem =
    | Keep                // field: 1
    | Drop                // field: 0
    | Computed(e: Expr)   // field: "<expression>"

  /** A `$group` accumulator. */
  datatype Accumulator = Push(e: Expr)

  datatype Direction = Ascending | Descending

  datatype Stage =
    | Match(filter: Filter)
    | Project(spec: map<string, ProjItem>)
    | Limit(n: nat)
    | Count(field: string)
    | Group(id: Expr, accumulators: map<string, Accumulator>)
    | Set(fields: map<string, Expr>)
    | ReplaceRoot(newRoot: Expr)
    | Sort(field: string, direction: Direction)

  /** `"$name"`: a reference to a top-level field. */
  function Ref(name: string): Expr
  {
    FieldPath([name])
  }
}
