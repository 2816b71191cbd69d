/** Small wrappers used across the model. */
module Wrappers {

  /** An optional value: a nullable column or a missing lookup. */
  datatype Option<+T> = None | Some(value: T)

  /** A value or the error that was raised instead of producing it. */
  datatype Result<+R, +E> = Success(value: R) | Failure(error: E)
}
