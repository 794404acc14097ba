/** Option and Result: the error returns and exceptions of the modelled code. */
module Wrappers {

  datatype Option<+T> = None | Some(value: T)

  /** `Err` carries the text Python would show for the failure (`str(e)`). */
  datatype Result<+T, +E> = Ok(value: T) | Err(error: E)
}
