/** Optional values and success-or-failure results, shared by the other modules. */
module Wrappers {

  /** A value that may be absent: the model of a .NET reference that may be null. */
  datatype Option<+T> = None | Some(value: T)

  /** The outcome of an operation that either returns a value or throws. */
  datatype Result<+T, +E> = Success(value: T) | Failure(error: E)
}
