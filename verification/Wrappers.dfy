/** The two result shapes the other modules share. */
module Wrappers {
  datatype Option<+T> = None | Some(value: T)

  /** A computation that either produces a value or throws. */
  datatype Attempt<+T> = Ok(value: T) | Refused
}
