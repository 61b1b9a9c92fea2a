/** Small failure-carrying datatypes shared by the other modules. */
module Wrappers {

  /** A value that may be absent (JavaScript's `undefined`). */
  datatype Option<+T> = None | Some(value: T) {
    function GetOr(default: T): T {
      match this
      case Some(v) => v
      case None => default
    }
  }

  /** The value of an operation, or the message of the `Error` it throws. */
  datatype Result<+T> = Ok(value: T) | Err(message: string)

  /**
   * How a call that may throw ended: normally, or with a thrown error. The error
   * is described by its message where the program fixes one (`Language not
   * supported`), and otherwise as the JavaScript runtime reports it.
   */
  datatype Outcome = Done | Thrown(error: string)
}
