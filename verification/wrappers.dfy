/** Failure-carrying values used throughout the model. */
module Wrappers {

  /** `None` plays the part of Go's nil error; `Some(msg)` carries an error's message. */
  datatype Option<+T> = None | Some(value: T)

  /** A value, or the message of the error returned in its place. */
  datatype Result<+T> = Ok(value: T) | Err(msg: string) {

    /** The Go-style error of this result: nil exactly on success. */
    function Error(): (e: Option<string>)
      ensures e.None? <==> Ok?
      ensures Err? ==> e == Some(msg)
    {
      if Ok? then None else Some(msg)
    }
  }
}
