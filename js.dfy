/** How the client's JavaScript sees values that may be missing, strings used as
    booleans, and awaited calls that may throw. */
module Js {

  /** A field or result that may be `undefined` or `null`. */
  datatype Option<+T> = None | Some(value: T) {
    /** `x ?? fallback` */
    function GetOr(fallback: T): T {
      if Some? then value else fallback
    }
  }

  /** A string is truthy when it is present and not empty. */
  predicate Truthy(s: Option<string>) {
    s.Some? && s.value != ""
  }

  /** `s || fallback` on a string that may be missing. */
  function Or(s: Option<string>, fallback: string): string {
    if Truthy(s) then s.value else fallback
  }

  /** What a `catch` clause receives: an `Error` with its message, or any other value. */
  datatype Thrown = ErrorObject(message: string) | NonError

  /** `(err as Error).message`: a non-`Error` value has no message. */
  function MessageOf(t: Thrown): Option<string> {
    match t
    case ErrorObject(m) => Some(m)
    case NonError => None
  }

  /** The end of an `await`: the promise resolved with a value, or it rejected. */
  datatype Outcome<+T> = Resolved(value: T) | Rejected(thrown: Thrown)
}
