/** Failure-carrying wrappers used across the model in place of Python's None and exceptions. */
module Wrappers {

  /** A value that may be missing (Python's None). */
  datatype Option<+T> = None | Some(value: T)

  /** Either a value or the text of the exception that replaced it. */
  datatype Result<+T, +E> = Ok(value: T) | Err(error: E)
}
