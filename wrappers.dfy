/** Option and Result values, used for optional request fields, lookups that
    may find nothing and operations that end in an exception. */
module Wrappers {

  datatype Option<+T> = None | Some(value: T) {

    /** The wrapped value, or `default` when there is none (a destructuring default). */
    function GetOr(default: T): T
    {
      match this
      case Some(v) => v
      case None => default
    }
  }

  /** `Ok` is a normal return; `Err` is a thrown exception. */
  datatype Result<+T, +E> = Ok(value: T) | Err(error: E)
}
