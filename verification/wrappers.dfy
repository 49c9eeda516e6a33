/** Option and Result: the nullable values and raised errors of the modelled code. */
module Wrappers {

  /** A value that may be absent (Python's `None`). */
  datatype Option<+T> = None | Some(value: T)

  /** Either a value or the error the original code raises instead. */
  datatype Result<+R, +E> = Success(value: R) | Failure(error: E)
}
