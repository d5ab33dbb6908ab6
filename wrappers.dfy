/** The optional value used wherever the source has `undefined`, a failed
    `find`, an absent storage entry or an unparsable number. */
module Wrappers {

  datatype Option<+T> = None | Some(value: T) {

    /** The wrapped value, or `default` when there is none. */
    function GetOr(default: T): T {
      match this
      case Some(v) => v
      case None => default
    }
  }
}
