/** Optional values and error-carrying results, used where the Go code returns
    a nil-able pointer or a `(value, error)` pair. */
module Wrappers {

  datatype Option<+T> = None | Some(value: T)

  datatype Result<+R, +E> = Success(value: R) | Failure(error: E)
}
