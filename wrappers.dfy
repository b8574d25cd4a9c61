/** Failure-carrying results shared by the modules of this model. */
module Wrappers {

  /** A value that may be absent: std::optional, a null pointer, Python's None. */
  datatype Option<+T> = None | Some(value: T)

  /** Either a value or the error the source raises instead of returning one. */
  datatype Result<+T, +E> = Ok(value: T) | Err(error: E)
}
