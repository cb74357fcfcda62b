/** Failure-carrying values shared by the whole model. */
module Wrappers {

  /** A value that may be absent (Go's nil error, a missing parse error, ...). */
  datatype Option<+T> = None | Some(value: T)

  /** Either a computed value or the error that stopped the computation. */
  datatype Result<+R, +E> = Success(value: R) | Failure(error: E)
}
