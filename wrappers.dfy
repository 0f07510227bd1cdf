/** Optional values and the outcome of an operation that may throw. */
module Wrappers {

  /** A value that may be absent: `null`/`undefined` on the JavaScript side. */
  datatype Option<T> = None | Some(value: T)

  /** What an async operation settles with: a value, or a thrown `Error` that
      carries only its message. */
  datatype Result<T> = Success(value: T) | Failure(message: string)
}
