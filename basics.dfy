/** Option and Result, the two wrappers the rest of the model returns. */
module Basics {

  /** A value that may be missing: `null` or `undefined` in the bot. */
  datatype Option<+T> = None | Some(value: T)

  /** The outcome of an operation that may throw. */
  datatype Result<+T, +E> = Success(value: T) | Failure(error: E)
}
