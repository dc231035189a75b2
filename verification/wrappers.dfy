/** Optional values (Kotlin's nullable types) and results with an error. */
module Wrappers {

  /** A Kotlin `T?`: `None` stands for `null`. */
  datatype Option<+T> = None | Some(value: T)

  /** The outcome of an operation that may throw: `Err` carries what went wrong. */
  datatype Result<+T, +E> = Ok(value: T) | Err(error: E)
}
