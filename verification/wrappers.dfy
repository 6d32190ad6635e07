/** Optional values, used wherever the modelled program reads a field that
    may be absent, a number that may fail to parse, or a file that may be
    missing. */
module Wrappers {

  datatype Option<+T> = None | Some(value: T) {

    /** The wrapped value, or `default` when there is none. */
    function GetOr(default: T): T {
      match this
      case Some(v) => v
      case None => default
    }
  }
}
