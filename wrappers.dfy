/** Optional values and the JavaScript truthiness rules the client relies on. */
module Wrappers {

  /** A value that may be absent (`undefined` in the client). */
  datatype Option<T> = None | Some(value: T) {
    function GetOr(default: T): T {
      if Some? then value else default
    }
  }

  /** An optional string is truthy when it is present and not the empty string. */
  predicate Truthy(s: Option<string>) {
    s.Some? && s.value != ""
  }

  /** JavaScript `a || b` on optional strings: `a` when it is truthy, `b` otherwise. */
  function Or(a: Option<string>, b: Option<string>): (r: Option<string>)
    ensures Truthy(a) ==> r == a
    ensures !Truthy(a) ==> r == b
  {
    if Truthy(a) then a else b
  }

  /** The outcome of an operation that the client reports by throwing. */
  datatype Outcome = Pass | Fail(error: string)
}
