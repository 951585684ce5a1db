/** Option and Result, the two failure-carrying datatypes the rest of the model uses. */
module Wrappers {

  /** A value that may be absent: a JavaScript `undefined`, `null` or missing JSON member. */
  datatype Option<+T> = None | Some(value: T)

  /** The outcome of an operation that can fail with an error of type E. */
  datatype Result<+R, +E> = Success(value: R) | Failure(error: E)
}
