// Result and option types shared by every module.
module Wrappers {
  datatype Option<+T> = None | Some(value: T)

  /** A Go (value, error) pair: either the value or an error. */
  datatype Result<+T> = Ok(value: T) | Err
}
