/** Option and Result: Java's `null` returns and thrown exceptions, as values. */
module Wrappers {

  /** `None` stands for a Java `null`. */
  datatype Option<+T> = None | Some(value: T)

  /** `Err` stands for a thrown exception. */
  datatype Result<+R, +E> = Ok(value: R) | Err(error: E)

  /** The outcome of a `void` method that may throw: `Fail` carries the exception. */
  datatype Outcome<+E> = Pass | Fail(error: E)
}
