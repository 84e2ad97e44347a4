/** Option and Result, the failure-carrying datatypes used throughout the model. */
module Wrappers {

  datatype Option<+T> = None | Some(value: T) {
    /** The value, or default when there is none. With default "" this is
        Python's `x or ""` on an optional string (an empty string gives ""
        either way); with any other default the two differ on Some(""). */
    function GetOr(default: T): T {
      match this
      case Some(v) => v
      case None => default
    }
  }

  /** A successful value, or the exception that a Python call raised. */
  datatype Result<+T, +E> = Success(value: T) | Failure(error: E)
}
