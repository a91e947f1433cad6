/** Option and result types shared by the model. */
module Wrappers {

  /** A value that may be missing: the scaler's transform either returns its output or fails. */
  datatype Option<+T> = None | Some(value: T)

  /** A value or the error that stopped its computation. */
  datatype Result<+R, +E> = Success(value: R) | Failure(error: E)
}
