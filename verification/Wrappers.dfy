// Values that may be absent, and answers that may be refused.

module Wrappers {
  datatype Option<+T> = None | Some(value: T)

  /** The error texts are not modelled. */
  datatype Result<+T> = Ok(value: T) | Err
}
