/** Option and Outcome datatypes shared by the model. */
module Wrappers {

  /** A value that may be absent; `None` stands for PHP's `null`. */
  datatype Option<+T> = None | Some(value: T)

  /** The result of an operation that either succeeds or throws `error`. */
  datatype Outcome<+E> = Pass | Fail(error: E)
}
