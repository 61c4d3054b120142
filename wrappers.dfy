/** Option and Result, the two Rust enums the modelled code returns. */
module Wrappers {
  datatype Option<T> = None | Some(value: T)
  {
    /** Rust `unwrap_or`. */
    function UnwrapOr(default: T): T
    {
      match this
      case Some(v) => v
      case None => default
    }
  }

  datatype Result<T, E> = Ok(value: T) | Err(error: E)
}
