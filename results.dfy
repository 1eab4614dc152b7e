/** Option and Result values used in place of JavaScript's `undefined` and thrown errors. */
module Results {

  datatype Option<+T> = None | Some(value: T)

  /** The outcome of a call that may throw: its value, or the error it throws. */
  datatype Result<+T, +E> = Success(value: T) | Failure(error: E)
}
