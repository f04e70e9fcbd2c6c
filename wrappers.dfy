/** Option and Result datatypes shared by the model. */
module Wrappers {

  /** A value that may be absent. */
  datatype Option<+T> = None | Some(value: T)

  /** Either a computed value or the reason the computation was aborted. */
  datatype Result<+R, +E> = Success(value: R) | Failure(error: E)
}
