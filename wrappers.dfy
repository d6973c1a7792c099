/** Optional values and the outcome of a call that can throw. */
module Wrappers {

  /** Swift's `T?`. */
  datatype Option<+T> = None | Some(value: T)

  /** The outcome of an `async throws` call: its value, or the error's localized description. */
  datatype Result<+T, +E> = Success(value: T) | Failure(error: E)
}
