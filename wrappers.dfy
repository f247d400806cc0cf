/** Option and Result, used where the Kotlin code has nullable values or a throwable that escapes. */
module Wrappers {

  /** A Kotlin nullable value: `None` stands for `null`. */
  datatype Option<+T> = None | Some(value: T)

  /** The outcome of a call that either returns a value or lets a throwable escape. */
  datatype Result<+T, +E> = Ok(value: T) | Err(error: E)
}
