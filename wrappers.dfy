/** Optional values, standing for Kotlin's nullable types (`T?`). */
module Wrappers {

  datatype Option<+T> = None | Some(value: T) {

    /** `x ?: default` */
    function GetOr(default: T): T {
      match this
      case Some(v) => v
      case None => default
    }
  }
}
