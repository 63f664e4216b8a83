/** The two wrapper types the other modules share. */
module Outcomes {

  datatype Option<+T> = None | Some(value: T)

  /** A Python call that either returns a value or raises. */
  datatype Result<+T> = Ok(value: T) | Raised(error: string)
}
