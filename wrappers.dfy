/** Optional values, standing for JavaScript's `null`/`undefined` and Python's `None`. */
module Wrappers {

  datatype Option<+T> = None | Some(value: T) {

    /** The value, or `default` when there is none (the `x || default` idiom on a maybe-absent field). */
    function GetOr(default: T): T {
      match this
      case Some(v) => v
      case None => default
    }
  }
}
