/** Option and Result, as the providers use nil and raised errors. */
module Wrappers {

  datatype Option<+T> = None | Some(value: T) {
    function GetOr(default: T): T {
      if Some? then value else default
    }
  }

  datatype Result<+T, +E> = Ok(value: T) | Err(error: E)
}

/** Puppet's `ensure` values. */
module Ensurable {

  datatype Ensure = Present | Absent
}
