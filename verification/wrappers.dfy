/** Optional values, used wherever the source has "maybe present" data
    (a Pool key that was never written, a protobuf field left unset). */
module Wrappers {

  datatype Option<+T> = None | Some(value: T) {

    /** The value, or `default` when absent. */
    function GetOr(default: T): T {
      match this
      case Some(v) => v
      case None => default
    }
  }
}
