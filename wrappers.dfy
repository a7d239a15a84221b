/** Option and Outcome: the model's stand-ins for `null`/`undefined` and for a thrown `Error`. */
module Wrappers {

  /** A value that may be missing (`null` or `undefined` in the original). */
  datatype Option<+T> = None | Some(value: T) {
    function GetOr(default: T): T {
      match this
      case Some(v) => v
      case None => default
    }
  }

  /** The result of an operation that either completes or throws an `Error` carrying a message. */
  datatype Outcome<+E> = Pass | Fail(error: E)
}
