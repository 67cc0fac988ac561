/** The values that request parameters and stored readings hold, and the
    JavaScript notion of truthiness the pipeline builders branch on. */
module JsValues {

  /** A JavaScript value as it appears in a parameter set or in a flat
      document of the `values` collection. Numbers and timestamps are
      integers (epoch milliseconds for timestamps). */
  datatype Value = Null | Num(n: int) | Str(s: string)

  /** A flat document: field name to value. */
  type Doc = map<string, Value>

  /** A parameter set: parameter name to typed value. */
  type Params = map<string, Value>

  /** JavaScript truthiness on Value: `null`, `0` and `""` are falsy. */
  function Truthy(v: Value): (b: bool)
    ensures !b <==> v in {Null, Num(0), Str("")}
  {
    match v
    case Null => false
    case Num(n) => n != 0
    case Str(s) => s != ""
  }

  /** `params[key]`: a key that is absent reads as `undefined`, which the
      builders treat exactly like `null` (falsy, never a bound). */
  function Param(p: Params, key: string): Value
  {
    if key in p then p[key] else Null
  }
}
