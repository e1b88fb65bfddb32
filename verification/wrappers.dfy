/** The optional value used wherever JavaScript would produce NaN or `undefined`. */
module Wrappers {
  datatype Option<+T> = None | Some(value: T) {
    /** The contained value, or `default` when there is none (JavaScript's `x || default`). */
    function GetOr(default: T): T {
      match this
      case Some(v) => v
      case None => default
    }
  }
}
