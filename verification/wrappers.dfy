/** The optional value used wherever the source has `undefined`, `null` or a missing record. */
module Wrappers {

  datatype Option<+T> = None | Some(value: T) {

    /** The wrapped value, or `default` when there is none (the source's `x ?? default`). */
    function GetOr(default: T): T {
      match this
      case Some(v) => v
      case None => default
    }
  }

  /** A computation that either yields a value or fails with the message the source throws or returns. */
  datatype Result<+T> = Ok(value: T) | Err(error: string)
}
