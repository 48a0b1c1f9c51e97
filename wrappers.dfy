/** Failure-carrying wrappers shared by every module of the model. */
module Wrappers {

  /** A value that may be absent (a JavaScript `null` or `undefined`). */
  datatype Option<T> = None | Some(value: T) {
    /** The value, or `default` when absent (the `??` and `|| d` idioms). */
    function GetOr(default: T): T {
      if Some? then value else default
    }
  }

  /** The result of an operation that either returns a value or throws. */
  datatype Result<T, E> = Ok(value: T) | Err(error: E)

  /** The result of an operation that returns nothing or throws. */
  datatype Outcome<E> = Pass | Fail(error: E)
}
