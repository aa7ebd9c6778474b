/** Optional values: JavaScript's `null` / `undefined` for the fields the
    extension treats as "may be absent". */
module Wrappers {

  datatype Option<+T> = None | Some(value: T) {

    /** The value, or `default` when absent (JavaScript's `x || default`
        once falsy values have been mapped to None). */
    function GetOr(default: T): T {
      match this
      case Some(v) => v
      case None => default
    }
  }
}
