/** Optional values and results with an error, the shapes Go expresses as
    `(T, error)` pairs and `nil` errors. */
module Wrappers {

  datatype Option<+T> = None | Some(value: T)

  datatype Result<+R, +E> = Success(value: R) | Failure(error: E)
}
