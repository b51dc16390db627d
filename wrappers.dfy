/** Failure-compatible wrappers shared by the model: an optional value (a
    dictionary key that may be absent, Python's None) and a result that is
    either a value or the exception the Python code would raise. */
module Wrappers {

  datatype Option<+T> = None | Some(value: T) {

    /** The value, or `default` when absent (Python's `d.get(key, default)`). */
    function GetOr(default: T): T {
      match this
      case Some(v) => v
      case None => default
    }
  }

  datatype Result<+T, +E> = Ok(value: T) | Err(error: E)
}
