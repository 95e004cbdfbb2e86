/** Failure-compatible wrappers shared by the model. */
module Wrappers {

  /** A value that may be absent: a Python call that raised is `None`. */
  datatype Option<+T> = None | Some(value: T)

  /** Either a computed value or the error that stopped the computation. */
  datatype Result<+R, +E> = Success(value: R) | Failure(error: E)
}
