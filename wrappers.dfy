/** Option and Result: Java's nullable references and thrown exceptions
    are modelled by these two datatypes. */
module Wrappers {

  /** A value that may be absent: `None` stands for Java's `null`. */
  datatype Option<+T> = None | Some(value: T)

  /** The outcome of an operation that may throw: `Err` carries the kind of failure. */
  datatype Result<+T, +E> = Ok(value: T) | Err(error: E)
}
