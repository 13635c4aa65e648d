/** Failure-carrying wrappers shared by the other modules. */
module Wrappers {

  /** An optional value: `None` stands for an argument the caller left out. */
  datatype Option<+T> = None | Some(value: T)

  /** The outcome of an operation that either returns a value or throws an error. */
  datatype Result<+T, +E> = Success(value: T) | Failure(error: E)
}
