/** Failure-compatible wrappers shared by the other modules. */
module Wrappers {

  datatype Option<+T> = None | Some(value: T)

  /** The result of an operation that either completes or throws with an error value. */
  datatype Outcome<+E> = Pass | Fail(error: E)
}
