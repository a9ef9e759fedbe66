/** Option and Result, used for absent state fields and for the Python
    exceptions that the modelled code lets escape or catches. */
module Wrappers {

  datatype Option<+T> = None | Some(value: T) {
    /** The value, or `default` when absent (Python's `dict.get(key, default)`). */
    function GetOr(default: T): T {
      match this
      case Some(v) => v
      case None => default
    }
  }

  datatype Result<+R, +E> = Ok(value: R) | Err(error: E)
}
