/** Optional values and success-or-failure results, the shapes Swift's `T?` and
    `Result<T, Error>` / `throws` take in this model. */
module Wrappers {

  datatype Option<+T> = None | Some(value: T)

  datatype Result<+T, +E> = Success(value: T) | Failure(error: E)
}
