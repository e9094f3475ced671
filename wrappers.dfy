/** Option values for Go's nil-able pointers, and Outcome values for calls
    that either return normally or panic. */
module Wrappers {

  /** A Go pointer or interface value: `None` is nil. */
  datatype Option<+T> = None | Some(value: T)

  /** The result of a Go call that may panic instead of returning. */
  datatype Outcome<+T> = Returns(value: T) | Panics(message: string)
}
