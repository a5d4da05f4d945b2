/** Optional values and error-carrying results shared by the dashboard model. */
module Wrappers {

  /** A telemetry channel or a Python variable that may hold nothing (`None`). */
  datatype Option<+T> = None | Some(value: T) {

    /** The wrapped value, or `default` when there is none. */
    function GetOr(default: T): (v: T) {
      match this
      case Some(v) => v
      case None => default
    }
  }

  /** The outcome of a callback: its outputs, or the exception it raises. */
  datatype Result<+R, +E> = Ok(value: R) | Err(error: E)
}
