/** Optional values: JavaScript's `undefined` on one side, a present value on the other. */
module Wrappers {

  datatype Option<+T> = None | Some(value: T) {

    /** The value if present, the default otherwise (JavaScript's `x || d` for a value that is truthy when present). */
    function GetOr(default: T): T {
      match this
      case Some(v) => v
      case None => default
    }
  }
}
