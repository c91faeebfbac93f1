/** Optional values (a nullable reference or a missing value) and results that can
    fail (an operation that throws). */
module Wrappers {

  datatype Option<+T> = None | Some(value: T)

  datatype Result<+T, +E> = Success(value: T) | Failure(error: E)
}
