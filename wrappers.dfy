/** Failure-carrying values shared by the model: an optional value, a value or an
    error, and a bare pass/fail outcome (the source's `Result<(), Error>`). */
module Wrappers {

  datatype Option<T> = None | Some(value: T) {
    /** The wrapped value, or `default` when there is none (`unwrap_or_default`). */
    function GetOr(default: T): (v: T) {
      if Some? then value else default
    }
  }

  datatype Result<T, E> = Ok(value: T) | Err(error: E)

  datatype Outcome<E> = Pass | Fail(error: E)
}
