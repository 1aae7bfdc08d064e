/** Small shared vocabulary: optional values, results, and how the service reads query strings. */
module Basics {

  /** A value that may be absent (JavaScript `undefined` / `null`). */
  datatype Option<+T> = None | Some(value: T)

  /** The outcome of an operation that either produces a value or throws. */
  datatype Result<+T, +E> = Success(value: T) | Failure(error: E)

  /** Parsed query string of an Express request: parameter name to raw string value. */
  type Query = map<string, string>

  /** JavaScript truthiness of `query[name]`: the parameter is present and not the empty string. */
  predicate Given(q: Query, name: string)
  {
    name in q && q[name] != ""
  }

  /** `query[name] || fallback`. */
  function ValueOr(q: Query, name: string, fallback: string): (r: string)
    ensures Given(q, name) ==> r == q[name]
    ensures !Given(q, name) ==> r == fallback
  {
    if Given(q, name) then q[name] else fallback
  }

  /** `parseInt(query[name] || fallback)` for a parameter whose parsed integer value is supplied by the caller. */
  function IntOr(v: Option<int>, fallback: int): int
  {
    match v
    case Some(n) => n
    case None => fallback
  }

  /**
   * `num / den * 100` in JavaScript arithmetic over exact reals: a zero denominator gives a
   * non-finite number (NaN or Infinity), written None here.
   */
  function PercentOf(num: real, den: real): (r: Option<real>)
    ensures r.None? <==> den == 0.0
    ensures r.Some? ==> r.value * den == num * 100.0
  {
    if den == 0.0 then None else Some(num / den * 100.0)
  }
}
