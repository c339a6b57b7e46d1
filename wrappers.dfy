/** Option and Result, the two failure-carrying datatypes the model uses for
    Python's `None` and for calls that may raise. */
module Wrappers {

  datatype Option<T> = None | Some(value: T) {
    /** The value, or `default` when absent (Python's `d.get(k, default)`). */
    function GetOr(default: T): T {
      match this
      case Some(v) => v
      case None => default
    }
  }

  /** `Err` stands for an exception raised by the call being modelled. */
  datatype Result<T, E> = Ok(value: T) | Err(error: E)
}
