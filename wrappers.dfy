/** Option and Result: the model's stand-ins for Java's null and for a checked exception. */
module Wrappers {

  /** A value or its absence (a Java reference that may be null). */
  datatype Option<+T> = None | Some(value: T)

  /** A value or the error that replaced it (a call that may throw). */
  datatype Result<+R, +E> = Ok(value: R) | Err(error: E)
}
