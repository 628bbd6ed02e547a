/** Option and Result, the optional values and error returns of the modelled code. */
module Wrappers {

  /** A value that may be absent (`undefined` in the modelled code). */
  datatype Option<+T> = None | Some(value: T)

  /** Either a value or the message of the error that was thrown instead. */
  datatype Result<+R, +E> = Success(value: R) | Failure(error: E)
}
