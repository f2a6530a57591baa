/** Optional values and results with an error, the way the script's helpers
    return either a value, None, or raise an exception. */
module Wrappers {

  datatype Option<+T> = None | Some(value: T) {
    /** `x or default` for a value that may be missing. */
    function GetOr(default: T): T {
      match this
      case Some(v) => v
      case None => default
    }
  }

  /** `Err` stands for an exception that propagates out of the call. */
  datatype Result<+T, +E> = Ok(value: T) | Err(error: E)
}
