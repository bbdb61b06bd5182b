/** Optional values and results, standing for JavaScript's `null`/`undefined`
    and for a thrown-and-caught error. */
module Wrappers {

  datatype Option<+T> = None | Some(value: T) {
    /** The value, or `default` when there is none (the `x || default` idiom
        when `x` can only be absent, never another falsy value). */
    function GetOr(default: T): T {
      match this
      case Some(v) => v
      case None => default
    }
  }

  datatype Result<+T, +E> = Ok(value: T) | Err(error: E)
}
