/** Failure-carrying result types used by the model of the input checks. */
module Wrappers {

  /** A value that may be absent, as returned by a dictionary lookup. */
  datatype Option<+T> = None | Some(value: T)

  /** Either a normal return value or the exception the Python code raises. */
  datatype Result<+T, +E> = Ok(value: T) | Err(error: E)
}
