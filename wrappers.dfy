/** The optional-value and success-or-error datatypes shared by every module of the model. */
module Wrappers {

  /** A value that may be absent: an optional request parameter, an optional response field. */
  datatype Option<+T> = None | Some(value: T)

  /** The outcome of an operation that can fail with an error of type E. */
  datatype Result<+R, +E> = Success(value: R) | Failure(error: E)
}
