/** Optional values and outcomes used in place of Python's `None` and raised exceptions. */
module Wrappers {

  datatype Option<T> = None | Some(value: T)

  /** The value of a call that either returns `value` or raises `error`. */
  datatype Result<T, E> = Success(value: T) | Failure(error: E)

  /** The outcome of a call that returns nothing or raises `error`. */
  datatype Outcome<E> = Pass | Fail(error: E)
}
