/** The optional-value and result wrappers shared by every module of the model. */
module Options {

  /** A value that may be absent: JavaScript's `undefined` / `null` for one field. */
  datatype Option<+T> = None | Some(value: T)

  /** The outcome of an operation that either produces a value or fails with an error. */
  datatype Result<+T, +E> = Success(value: T) | Failure(error: E)
}
