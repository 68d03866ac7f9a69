/** Types every module shares. */
module Wrappers {

  datatype Option<+T> = None | Some(value: T)

  /** A result, or an error whose kind does not matter. */
  datatype Outcome<+T> = Ok(value: T) | Err

  type Byte = x: int | 0 <= x < 256
}
