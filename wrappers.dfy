/** Option and Result values used by the quotation model. */
module Wrappers {

  /** A value that may be undefined (Python's None). */
  datatype Option<+T> = None | Some(value: T)

  /** A computation that either produces a value or fails with an error. */
  datatype Result<+T, +E> = Ok(value: T) | Err(error: E)
}
