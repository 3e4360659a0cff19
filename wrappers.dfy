/** Option and Result, the two failure-carrying shapes the transpiler's Rust code uses. */
module Wrappers {

  datatype Option<+T> = None | Some(value: T) {

    /** The first of two alternatives that is present: `self.or(other)`. */
    function OrElse(other: Option<T>): (r: Option<T>)
      ensures Some? ==> r == this
      ensures None? ==> r == other
    {
      if Some? then this else other
    }
  }

  datatype Result<+T, +E> = Ok(value: T) | Err(error: E)
}
