/** Optional values and the outcome of a JavaScript computation that may throw. */
module Wrappers {

  /** A JavaScript value that may be absent (`undefined`; for a stored
      property, an empty value). */
  datatype Option<+T> = None | Some(value: T) {

    /** The value, or `default` when absent (the `x || default` idiom on
        non-falsy values). */
    function GetOr(default: T): T {
      match this
      case Some(v) => v
      case None => default
    }
  }

  /** The result of a computation that either returns a value or throws
      (a TypeError on a missing array element, or a rejected store call). */
  datatype Result<+T> = Ok(value: T) | Threw
}
