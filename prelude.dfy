/** Shared vocabulary: identifiers, optional values and results. */
module Prelude {

  /** Identifiers are the strings the application stores (Clerk user ids, document ids). */
  type UserId = string

  /** `24 * 60 * 60 * 1000`: the delay, in milliseconds, of both delayed workflows. */
  const Day: int := 24 * 60 * 60 * 1000

  datatype Option<+T> = None | Some(value: T)

  /** A handler either produces a value or fails with the reason it threw. */
  datatype Result<+T> = Ok(value: T) | Err(reason: string)

  /** JavaScript's `String(x)` for a value that is either a string or `null`. */
  function JsString(v: Option<string>): (s: string)
    ensures v.Some? ==> s == v.value
    ensures v.None? ==> s == "null"
  {
    match v
    case Some(t) => t
    case None => "null"
  }
}
