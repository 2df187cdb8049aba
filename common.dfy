/** Failure-carrying wrappers shared by the other modules. */
module Common {

  /** A value that may be absent: a JSON key that was not sent, a `null` reference. */
  datatype Option<+T> = None | Some(value: T)

  /** The outcome of a request handler: a value, or the error it answers with. */
  datatype Result<+T, +E> = Ok(value: T) | Err(error: E)
}
