/** Option, Result and Outcome: the failure-carrying values the model uses for
    Python's `None` and for exceptions a call may raise. */
module Wrappers {

  datatype Option<+T> = None | Some(value: T)

  /** A value, or the message of the exception that was raised instead. */
  datatype Result<+R> = Success(value: R) | Failure(error: string)

  /** A step that either completes or raises an exception with a message. */
  datatype Outcome = Pass | Fail(error: string)
}
