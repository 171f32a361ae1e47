/** Failure-compatible result types shared by every module. */
module Wrappers {

  datatype Option<+T> = None | Some(value: T)

  /** The source's (value, error) returns: the error carries only a message. */
  datatype Result<+T> = Ok(value: T) | Err(error: string)
}
