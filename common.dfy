/** Small failure-carrying wrappers shared by the client and server models. */
module Common {

  /** A Java reference that may be null. */
  datatype Option<+T> = None | Some(value: T)

  /** The outcome of a call that returns normally or throws an exception `error`. */
  datatype Result<+T, +E> = Success(value: T) | Failure(error: E)

  /** The outcome of a void call: returns normally, or throws `error`. */
  datatype Outcome<+E> = Pass | Fail(error: E)
}
