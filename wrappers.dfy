/** Optional values: a configuration key that may be absent, a Go pointer that may be nil,
    a Go `error` that may be nil. */
module Wrappers {
  datatype Option<+T> = None | Some(value: T) {
    /** The value when present, the default otherwise. */
    function GetOr(default: T): T {
      match this
      case Some(v) => v
      case None => default
    }
  }
}
