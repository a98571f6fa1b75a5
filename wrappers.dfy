/** Optional and fallible values, standing for JavaScript's `undefined`/`null`
    and for the code paths that throw. */
module Wrappers {

  datatype Option<+T> = None | Some(value: T) {
    function GetOr(default: T): T {
      match this
      case Some(v) => v
      case None => default
    }
  }

  datatype Result<+T, +E> = Ok(value: T) | Err(error: E)

  /** JavaScript truthiness of an optional millisecond timestamp or count:
      `undefined`, `null` and `0` are falsy. */
  predicate Truthy(o: Option<int>) {
    o.Some? && o.value != 0
  }
}
