/** Shared result types. */
module Prelude {

  datatype Option<+T> = None | Some(value: T) {
    function GetOr(default: T): T {
      if Some? then value else default
    }
  }

  /** `Ok` is a normal return, `Err` a raised exception. */
  datatype Result<+T, +E> = Ok(value: T) | Err(error: E)
}
