/** The optional value and the raise-or-return outcome used by the model. */
module Wrappers {

  /** A value that may be absent (Python's `None`). */
  datatype Option<+T> = None | Some(value: T)

  /** A computation's value, or the fault it raised. */
  datatype Result<+R, +E> = Success(value: R) | Failure(error: E)
}
