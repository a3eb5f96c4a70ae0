/** Optional values, standing in for Kotlin's nullable types (`T?`). */
module Wrappers {

  datatype Option<+T> = None | Some(value: T) {

    /** Kotlin's elvis operator `x ?: fallback`: the value when present, otherwise the fallback. */
    function OrElse(fallback: T): T {
      match this
      case Some(v) => v
      case None => fallback
    }
  }
}
