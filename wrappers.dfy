/** Optional values and fallible results shared by the chart modules. */
module Wrappers {

  /** A value that may be absent (`undefined` in the chart component). */
  datatype Option<+T> = None | Some(value: T)

  /** The outcome of an operation that may throw: `Err` carries the error message. */
  datatype Result<+T, +E> = Ok(value: T) | Err(error: E)
}
