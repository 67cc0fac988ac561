/** A reference semantics for the stages whose meaning the model relies on,
    over a collection given as a list of flat documents: `$match`,
    inclusion `$project`, `$limit` and `$count`, plus the two object
    operators the pivot query uses to build a row. */
module Semantics {
  import opened Wrappers
  import opened JsValues
  import opened Pipeline

  /** Code-unit lexicographic order on strings. */
  predicate StrLe(a: string, b: string)
    decreases |a|
  {
    if |a| == 0 then true
    else if |b| == 0 then false
    else if a[0] != b[0] then a[0] < b[0]
    else StrLe(a[1..], b[1..])
  }

  /** `$gte`/`$lte` comparison: values of different types never compare. */
  predicate ValueLe(a: Value, b: Value)
  {
    match (a, b)
    case (Num(x), Num(y)) => x <= y
    case (Str(x), Str(y)) => StrLe(x, y)
    case (Null, Null) => true
    case _ => false
  }

  /** Document `d` meets condition `c` on `field`. */
  predicate Satisfies(d: Doc, field: string, c: Cond)
  {
    && field in d
    && match c
       case Between(lo, hi) => ValueLe(lo, d[field]) && ValueLe(d[field], hi)
       case Equals(v) => d[field] == v
  }

  /** A `$match` document is a conjunction over its fields. */
  predicate Matches(f: Filter, d: Doc)
  {
    forall field :: field in f ==> Satisfies(d, field, f[field])
  }

  /** `a` is `b` with some elements left out, the rest in their order. */
  predicate Subsequence(a: seq<Doc>, b: seq<Doc>)
    decreases |b|
  {
    if |b| == 0 then |a| == 0
    else (|a| > 0 && a[0] == b[0] && Subsequence(a[1..], b[1..])) || Subsequence(a, b[1..])
  }

  /** `$match`: the documents that satisfy the filter, in collection order. */
  function FilterDocs(f: Filter, docs: seq<Doc>): (r: seq<Doc>)
    ensures |r| <= |docs|
    ensures forall d :: d in r ==> d in docs && Matches(f, d)
    ensures forall d :: d in docs && Matches(f, d) ==> d in r
    ensures Subsequence(r, docs)
  {
    if docs == [] then []
    else
      var rest := FilterDocs(f, docs[1..]);
      if Matches(f, docs[0]) then
        assert ([docs[0]] + rest)[1..] == rest;
        [docs[0]] + rest
      else
        rest
  }

  /** `$match` keeps each matching document as often as the collection
      holds it, and drops every other one. */
  lemma {:induction false} FilterDocsCounts(f: Filter, docs: seq<Doc>, d: Doc)
    ensures multiset(FilterDocs(f, docs))[d] == if Matches(f, d) then multiset(docs)[d] else 0
    decreases |docs|
  {
    if docs != [] {
      FilterDocsCounts(f, docs[1..], d);
      assert docs == [docs[0]] + docs[1..];
      assert multiset(docs) == multiset{docs[0]} + multiset(docs[1..]);
      if Matches(f, docs[0]) {
        assert multiset(FilterDocs(f, docs)) == multiset{docs[0]} + multiset(FilterDocs(f, docs[1..]));
      }
    }
  }

  /** An inclusion projection keeps its listed fields, and `_id` unless
      the projection excludes it explicitly. */
  predicate Keeps(spec: map<string, ProjItem>, field: string)
  {
    if field in spec then spec[field] == Keep else field == "_id"
  }

  function ProjectDoc(spec: map<string, ProjItem>, d: Doc): (r: Doc)
    ensures forall k :: k in r <==> k in d && Keeps(spec, k)
    ensures forall k :: k in r ==> r[k] == d[k]
  {
    map k | k in d && Keeps(spec, k) :: d[k]
  }

  function ProjectAll(spec: map<string, ProjItem>, docs: seq<Doc>): (r: seq<Doc>)
    ensures |r| == |docs|
    ensures forall i :: 0 <= i < |docs| ==> r[i] == ProjectDoc(spec, docs[i])
  {
    seq(|docs|, i requires 0 <= i < |docs| => ProjectDoc(spec, docs[i]))
  }

  /** `$limit n`: the first n documents. */
  function Take(docs: seq<Doc>, n: nat): (r: seq<Doc>)
    ensures |r| <= n
    ensures |r| == if |docs| < n then |docs| else n
    ensures r == docs[..|r|]
  {
    if |docs| <= n then docs else docs[..n]
  }

  /** `$count field`: one document `{ field: N }` for N > 0 input documents
      and no document at all for an empty input. */
  function CountDocs(field: string, n: nat): (r: seq<Doc>)
    ensures n == 0 <==> r == []
    ensures n > 0 ==> |r| == 1 && r[0].Keys == {field} && r[0][field] == Num(n)
  {
    if n == 0 then [] else [map[field := Num(n)]]
  }

  /** The number a `$count` result reports, reading "no document" as 0. */
  function ReadCount(rows: seq<Doc>, field: string): int
  {
    if |rows| == 1 && field in rows[0] && rows[0][field].Num? then rows[0][field].n else 0
  }

  /** The stages this reference semantics gives a meaning to. */
  predicate Covered(s: Stage)
  {
    match s
    case Match(_) => true
    case Project(spec) =>
      // An inclusion projection: at least one kept field, and nothing
      // excluded but `_id` (`{_id: 0}` alone is an exclusion projection,
      // and an empty projection is an error).
      && (exists k :: k in spec && spec[k] == Keep)
      && (forall k :: k in spec ==> spec[k] == Keep || (k == "_id" && spec[k] == Drop))
    case Limit(n) => n > 0
    case Count(field) => field != ""
    case _ => false
  }

  function ApplyStage(s: Stage, docs: seq<Doc>): (r: Option<seq<Doc>>)
    ensures r.Some? <==> Covered(s)
  {
    if !Covered(s) then None
    else match s
      case Match(f) => Some(FilterDocs(f, docs))
      case Project(spec) => Some(ProjectAll(spec, docs))
      case Limit(n) => Some(Take(docs, n))
      case Count(field) => Some(CountDocs(field, |docs|))
  }

  /** Runs a pipeline stage by stage; None when a stage lies outside the
      reference semantics. */
  function Run(ps: seq<Stage>, docs: seq<Doc>): (r: Option<seq<Doc>>)
    ensures r.Some? <==> forall i :: 0 <= i < |ps| ==> Covered(ps[i])
    decreases |ps|
  {
    if ps == [] then Some(docs)
    else match ApplyStage(ps[0], docs)
      case None => None
      case Some(next) => Run(ps[1..], next)
  }

  /** `$arrayToObject` over `{k, v}` pairs: every name must be a string
      (otherwise the aggregation fails), and a repeated name keeps the
      value of its last pair. */
  function PairsToObject(pairs: seq<(Value, Value)>): (r: Option<Doc>)
    ensures r.Some? <==> forall i :: 0 <= i < |pairs| ==> pairs[i].0.Str?
    ensures r.Some? ==> forall i :: 0 <= i < |pairs| ==> pairs[i].0.s in r.value
    ensures r.Some? ==> forall k :: k in r.value ==> exists i :: 0 <= i < |pairs| && pairs[i] == (Str(k), r.value[k])
    ensures r.Some? && |pairs| > 0 ==> r.value[pairs[|pairs| - 1].0.s] == pairs[|pairs| - 1].1
    decreases |pairs|
  {
    if pairs == [] then Some(map[])
    else
      var last := pairs[|pairs| - 1];
      match PairsToObject(pairs[..|pairs| - 1])
      case None => None
      case Some(m) => if last.0.Str? then Some(m[last.0.s := last.1]) else None
  }

  /** Every name takes the value of its last pair: a pair with no later
      pair of the same name decides that field. */
  lemma {:induction false} PairsToObjectLastPairWins(pairs: seq<(Value, Value)>, i: nat)
    requires forall j :: 0 <= j < |pairs| ==> pairs[j].0.Str?
    requires i < |pairs|
    requires forall j :: i < j < |pairs| ==> pairs[j].0 != pairs[i].0
    ensures PairsToObject(pairs).Some? && PairsToObject(pairs).value[pairs[i].0.s] == pairs[i].1
    decreases |pairs|
  {
    var front := pairs[..|pairs| - 1];
    if i < |pairs| - 1 {
      assert front[i] == pairs[i];
      assert forall j :: i < j < |front| ==> front[j] == pairs[j];
      PairsToObjectLastPairWins(front, i);
      assert pairs[|pairs| - 1].0 != pairs[i].0;
    }
  }

  /** `$mergeObjects`: the union of the objects, a field taking its value
      from the last object that has it. */
  function MergeDocs(docs: seq<Doc>): (r: Doc)
    ensures forall i :: 0 <= i < |docs| ==> docs[i].Keys <= r.Keys
    ensures |docs| > 0 ==> forall k :: k in docs[|docs| - 1] ==> r[k] == docs[|docs| - 1][k]
    decreases |docs|
  {
    if docs == [] then map[]
    else
      var front := docs[..|docs| - 1];
      assert forall i :: 0 <= i < |front| ==> front[i] == docs[i];
      MergeDocs(front) + docs[|docs| - 1]
  }

  /** Every field of the merged object comes from one of the inputs. */
  lemma {:induction false} MergeDocsAddsNoField(docs: seq<Doc>, k: string)
    requires k in MergeDocs(docs)
    ensures exists i :: 0 <= i < |docs| && k in docs[i]
    decreases |docs|
  {
    var last := |docs| - 1;
    if k !in docs[last] {
      var front := docs[..last];
      MergeDocsAddsNoField(front, k);
      var i :| 0 <= i < |front| && k in front[i];
      assert docs[i] == front[i];
    }
  }

  /** A field of the merged object comes from the last object that has it;
      earlier objects only contribute fields no later object sets. */
  lemma {:induction false} MergeDocsLastHolderWins(docs: seq<Doc>, i: nat, k: string)
    requires i < |docs| && k in docs[i]
    requires forall j :: i < j < |docs| ==> k !in docs[j]
    ensures k in MergeDocs(docs) && MergeDocs(docs)[k] == docs[i][k]
    decreases |docs|
  {
    if i < |docs| - 1 {
      var front := docs[..|docs| - 1];
      assert front[i] == docs[i];
      MergeDocsLastHolderWins(front, i, k);
      assert k !in docs[|docs| - 1];
    }
  }
}
