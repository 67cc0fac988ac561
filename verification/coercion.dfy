/** Turning query-string text into typed parameter values: numbers first,
    then dates, otherwise the text itself. */
module Coercion {
  import opened Wrappers
  import opened JsValues

  /** Largest magnitude of a JavaScript time value, in milliseconds
      (100 000 000 days either side of the epoch). */
  const MaxTimeValue: int := 8_640_000_000_000_000

  /** Stands in for `isNaN(text)` / `Number(text)`: Some(n) when the text
      reads as a number, None when `isNaN` holds. */
  type NumParser = string -> Option<int>

  /** Stands in for `new Date(text).getTime()`: Some(ms) for a valid date,
      None when the result is NaN. */
  type DateParser = string -> Option<int>

  /** `parseDateParameter`: a value that makes a valid Date becomes its
      timestamp, any other value is returned as it is. */
  function ParseDateParameter(v: Value, dateParse: DateParser): (r: Value)
    ensures v.Num? ==> r == v
    ensures r.Str? ==> r == v
    ensures v.Str? && dateParse(v.s).Some? ==> r == Num(dateParse(v.s).value)
    ensures v.Str? && dateParse(v.s).None? ==> r == v
    ensures v == Null ==> r == Num(0)
    ensures r != Null
  {
    match v
    case Num(n) =>
      // `new Date(n)` is valid exactly when |n| <= MaxTimeValue, and then its
      // time value is n itself (n is already an integer); otherwise the time
      // is NaN and the original value is returned.
      if -MaxTimeValue <= n <= MaxTimeValue then Num(n) else v
    case Str(s) =>
      (match dateParse(s)
       case Some(t) => Num(t)
       case None => v)
    case Null =>
      // `new Date(null)` is the epoch.
      Num(0)
  }

  /** The coercion applied to each query-string value:
      `parseDateParameter(isNaN(value) ? value : Number(value))`. */
  function Coerce(raw: string, numParse: NumParser, dateParse: DateParser): (r: Value)
    ensures numParse(raw).Some? ==> r == Num(numParse(raw).value)
    ensures numParse(raw).None? && dateParse(raw).Some? ==> r == Num(dateParse(raw).value)
    ensures numParse(raw).None? && dateParse(raw).None? ==> r == Str(raw)
  {
    var typed := match numParse(raw)
      case Some(n) => Num(n)
      case None => Str(raw);
    ParseDateParameter(typed, dateParse)
  }

  /** Coercion never produces `null`, and text only ever survives verbatim. */
  lemma CoerceNeverNull(raw: string, numParse: NumParser, dateParse: DateParser)
    ensures Coerce(raw, numParse, dateParse) != Null
    ensures Coerce(raw, numParse, dateParse).Str? ==> Coerce(raw, numParse, dateParse).s == raw
  {
  }

  /** Numeric text is decided before any date parse is tried: the date
      parser cannot influence the result. */
  lemma NumericTextIgnoresDateParser(raw: string, numParse: NumParser, dateParse1: DateParser, dateParse2: DateParser)
    requires numParse(raw).Some?
    ensures Coerce(raw, numParse, dateParse1) == Coerce(raw, numParse, dateParse2)
  {
  }

  /** Every integer, inside or outside the Date range, is a fixed point of
      `parseDateParameter`. */
  lemma ParseDateParameterFixesIntegers(n: int, dateParse: DateParser)
    ensures ParseDateParameter(Num(n), dateParse) == Num(n)
  {
  }

  /** Re-applying the date step to an already coerced value changes nothing. */
  lemma CoercionIdempotent(raw: string, numParse: NumParser, dateParse: DateParser)
    ensures ParseDateParameter(Coerce(raw, numParse, dateParse), dateParse) == Coerce(raw, numParse, dateParse)
  {
  }
}
