/** Optional values and success-or-error results, shared by the client and the demo server. */
module Wrappers {

  /** A value that may be absent: Go's nil pointer, omitted JSON field or failed decode. */
  datatype Option<+T> = None | Some(value: T)

  /** The `(value, error)` pair every client operation returns, with exactly one side set. */
  datatype Result<+T, +E> = Success(value: T) | Failure(error: E)
}
