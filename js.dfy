/** Values as the client sees them: missing fields and JavaScript truthiness. */
module Js {

  datatype Option<T> = None | Some(value: T) {
    /** `x || fallback` for a value that is either missing or truthy. */
    function GetOr(fallback: T): T {
      match this
      case Some(v) => v
      case None => fallback
    }
  }

  /** A string that may be `undefined`/`null` is truthy iff it is present and not empty. */
  predicate Truthy(s: Option<string>) {
    s.Some? && s.value != ""
  }

  /** `a || b` for a possibly missing string `a`. */
  function OrElse(a: Option<string>, b: string): string {
    if Truthy(a) then a.value else b
  }

  /** The text of the template `Bearer ${token}`: a missing token interpolates as "null". */
  function Bearer(token: Option<string>): string {
    "Bearer " + (if token.Some? then token.value else "null")
  }

  /** What `localStorage.setItem` stores for a value that may be `undefined`. */
  function Stringified(v: Option<string>): string {
    if v.Some? then v.value else "undefined"
  }

  /** How a rejected request is seen by a handler: `err.response?.data?.detail` and `err.message`. */
  datatype Failure = Failure(detail: Option<string>, errMessage: string)

  /** `prefix + (err.response?.data?.detail || err.message)`. */
  function FailureMessage(prefix: string, f: Failure): (r: string)
    ensures Truthy(f.detail) ==> r == prefix + f.detail.value
    ensures !Truthy(f.detail) ==> r == prefix + f.errMessage
  {
    prefix + OrElse(f.detail, f.errMessage)
  }
}
