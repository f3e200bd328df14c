/** Optional values: JavaScript's `undefined`/`null`, and results of `find`. */
module Wrappers {

  datatype Option<+T> = None | Some(value: T) {

    /** The value if present, else `default` (the `??` / `||` fallback). */
    function GetOr(default: T): T {
      match this
      case Some(v) => v
      case None => default
    }
  }
}
