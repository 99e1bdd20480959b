/** Failure-carrying result types shared by the estimator and the reference quantile. */
module Wrappers {

  /** A value that may be absent. */
  datatype Option<+T> = None | Some(value: T)

  /** Either a computed value or the error the original code raises instead. */
  datatype Result<+T, +E> = Success(value: T) | Failure(error: E)
}
