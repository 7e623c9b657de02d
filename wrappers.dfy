/** Optional values and results with an error, standing in for Python's
    `None`, missing dictionary keys and raised exceptions. */
module Wrappers {

  datatype Option<+T> = None | Some(value: T)

  datatype Result<+R, +E> = Success(value: R) | Failure(error: E)
}
