/** Failure-carrying datatypes shared by the validation model. */
module Wrappers {

  /** A value that may be missing. */
  datatype Option<+T> = None | Some(value: T)

  /** Either a computed value or the error that prevented it. */
  datatype Result<+R, +E> = Success(value: R) | Failure(error: E)

  /** A verdict that carries an error only when it fails. */
  datatype Outcome<+E> = Pass | Fail(error: E)
}
