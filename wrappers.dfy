/** Option and Result, the two failure-carrying shapes the model uses for
    JavaScript's null/undefined and for the early-return error paths. */
module Wrappers {

  datatype Option<+T> = None | Some(value: T) {
    /** The value, or a default when absent (JavaScript's `x || d` on a nullable). */
    function GetOr(default: T): T {
      match this
      case Some(v) => v
      case None => default
    }
  }

  datatype Result<+R, +E> = Ok(value: R) | Err(error: E)
}
