/** Small value wrappers shared by the model: Java's nullable references
    become `Option`, and the unchecked exception thrown on a failed
    process becomes the error case of `Result`. */
module Wrappers {

  /** A value that may be absent (a Java `null`). */
  datatype Option<+T> = None | Some(value: T)

  /** The outcome of a command: its value, or the message of the
      exception the command would have thrown. */
  datatype Result<+T> = Ok(value: T) | Err(message: string)
}
