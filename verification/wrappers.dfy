/** Failure-carrying datatypes shared by the model. */
module Wrappers {

  /** An optional value. */
  datatype Option<+T> = None | Some(value: T)

  /** A value or an error: Go's `(value, err)` return pair. */
  datatype Result<+R, +E> = Success(value: R) | Failure(error: E)

  /** The outcome of a step that returns only an error: Go's lone `err` return. */
  datatype Outcome<+E> = Pass | Fail(error: E)
}
