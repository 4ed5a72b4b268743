/** Stock failure-carrying datatypes used by the configuration model. */
module Wrappers {

  /** A value that may be absent: the result of a lookup that can miss. */
  datatype Option<+T> = None | Some(value: T)

  /** The outcome of a check: it passes, or fails with one error. */
  datatype Outcome<+E> = Pass | Fail(error: E)
}
