/** Option and Result values used for the library's nullable references and thrown exceptions. */
module Wrappers {

  /** A nullable reference: `None` is the library's `null`. */
  datatype Option<+T> = None | Some(value: T)

  /** The outcome of an operation that either returns a value or throws. */
  datatype Result<+R, +E> = Success(value: R) | Failure(error: E)
}
