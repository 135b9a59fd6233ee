/** The optional value used wherever the source has `T | null` or `T | undefined`. */
module Opt {

  datatype Option<+T> = None | Some(value: T) {

    /** The value, or `default` when absent (JavaScript's `x ?? default` on a present/absent pair). */
    function GetOr(default: T): T {
      match this
      case Some(v) => v
      case None => default
    }
  }
}
