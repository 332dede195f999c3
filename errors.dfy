// Go's `error` results: nil, or a value carrying a message.
module Errors {

  /** An optional value; `None` stands for Go's nil. */
  datatype Option<+T> = None | Some(value: T)

  /** A non-nil Go `error`, identified by its message. */
  datatype Error = Error(message: string)
}
