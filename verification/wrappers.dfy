/** Optional values and success/failure outcomes shared by the other modules. */
module Wrappers {

  /** A value that may be absent (a TypeScript `T | null`). */
  datatype Option<+T> = None | Some(value: T)

  /** The outcome of an operation that either yields a value or throws. */
  datatype Result<+T, +E> = Success(value: T) | Failure(error: E)
}
