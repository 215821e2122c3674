/** Optional and exception-carrying values used across the model. */
module Wrappers {

  /** A value that may be absent, as JavaScript's `undefined` in an optional chain. */
  datatype Option<+T> = None | Some(value: T)

  /** The outcome of a computation that may throw: `Throw` stands for a JavaScript exception. */
  datatype Result<+R, +E> = Success(value: R) | Throw(error: E)
}
