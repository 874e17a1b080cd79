/** Failure-carrying result types shared by the model. */
module Wrappers {

  /** A value that may be absent; `None` marks a ratio whose denominator is zero. */
  datatype Option<+T> = None | Some(value: T)

  /** Either a value or an error description. */
  datatype Result<+R, +E> = Success(value: R) | Failure(error: E)
}
