/** Small value wrappers shared by every module of the model. */
module Common {

  /** A value that may be absent: JavaScript's `undefined`/`null`, or a missing key. */
  datatype Option<T> = None | Some(value: T) {
    function GetOr(default: T): T {
      match this
      case Some(v) => v
      case None => default
    }
  }

  /** The outcome of a call that either resolves with a value or rejects with an error message. */
  datatype Result<T> = Ok(value: T) | Err(message: string)
}
