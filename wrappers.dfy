/** Option and Outcome values used for Go's nil pointers and error returns. */
module Wrappers {

  /** A value that may be missing: a Go pointer that may be nil. */
  datatype Option<+T> = None | Some(value: T)

  /** The result of a Go function that returns only an `error`. */
  datatype Outcome<+E> = Pass | Fail(error: E)
}
