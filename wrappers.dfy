/** Java's nullable references and thrown exceptions, as values. */
module Wrappers {

  /** A reference that may be null. */
  datatype Option<+T> = None | Some(value: T)

  /** A call that either returns a value or throws a checked exception. */
  datatype Result<+T, +E> = Success(value: T) | Failure(error: E)
}
