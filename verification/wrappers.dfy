/** Option and Result, for lookups that may miss and for the fatal error paths
    of the evaluator. */
module Wrappers {
  datatype Option<+T> = None | Some(value: T)

  datatype Result<+R, +E> = Success(value: R) | Failure(error: E)
}
