/** An optional value, as Rust's `Option`. */
module Wrappers {

  datatype Option<+T> = None | Some(value: T) {

    /** Rust's `Option::unwrap_or`: the value if there is one, otherwise `default`. */
    function UnwrapOr(default: T): (r: T)
      ensures Some? ==> r == value
      ensures None? ==> r == default
    {
      match this
      case Some(v) => v
      case None => default
    }
  }
}
