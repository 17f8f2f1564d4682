/** Optional values and results with an error, shared by the other modules. */
module Wrappers {

  /** Python's `None` or a present value. */
  datatype Option<+T> = None | Some(value: T)

  /** A value, or the error that aborts the computation that would have made it. */
  datatype Result<+T, +E> = Ok(value: T) | Err(error: E)
}
