/** Optional values and results with an error, used throughout the model. */
module Wrappers {

  /** A value that may be absent (JavaScript's `undefined`/`null` slots). */
  datatype Option<T> = None | Some(value: T)

  /** The outcome of a step that may throw: a value, or the error it threw. */
  datatype Result<T, E> = Success(value: T) | Failure(error: E)
}
