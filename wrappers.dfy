/** Optional values and results shared by the two chart scripts. */
module Wrappers {

  /** Python's `None` or a present value. */
  datatype Option<+T> = None | Some(value: T)

  /** A value, or the exception that the Python code would have raised instead. */
  datatype Result<+T, +E> = Ok(value: T) | Err(error: E)
}
