/** Optional values and results with an error, used for JSON fields that may be
    absent and for operations that may throw. */
module Wrappers {

  datatype Option<+T> = None | Some(value: T)

  datatype Result<+T, +E> = Success(value: T) | Failure(error: E)
}
