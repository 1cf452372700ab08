/** Wrappers shared by the modules of the model. */
module Wrappers {

  /** A value that may be absent (Kotlin's nullable `T?`). */
  datatype Option<+T> = None | Some(value: T)

  /** The outcome of an operation that may throw (Kotlin's exceptions). */
  datatype Result<+T, +E> = Ok(value: T) | Err(error: E)
}
