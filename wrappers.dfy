/** Option and Result, the failure-carrying values used across the model
    (Python's `None` results and raised exceptions). */
module Wrappers {

  datatype Option<+T> = None | Some(value: T)

  datatype Result<+R, +E> = Success(value: R) | Failure(error: E)
}
