/** Failure-carrying values shared by the other modules. */
module Wrappers {

  /** A value that may be absent (an unset host setting). */
  datatype Option<T> = None | Some(value: T)

  /** The result of an operation that either produces a value or raises an error. */
  datatype Result<T, E> = Ok(value: T) | Err(error: E)

  /** The result of an operation that produces nothing or raises an error. */
  datatype Outcome<E> = Pass | Fail(error: E)
}
