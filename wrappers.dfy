/** Option, Result and Outcome: the model's stand-ins for `null`/`undefined`
    and for thrown errors. */
module Wrappers {

  datatype Option<+T> = None | Some(value: T) {
    /** `value ?? default` */
    function GetOr(default: T): T {
      if Some? then value else default
    }
  }

  datatype Result<+R, +E> = Ok(value: R) | Err(error: E)

  /** The result of a check that either passes or throws. */
  datatype Outcome<+E> = Pass | Fail(error: E)
}
