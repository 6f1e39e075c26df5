/** Optional values: TypeScript's `T | null` and optional props (`T | undefined`). */
module Wrappers {

  datatype Option<+T> = None | Some(value: T) {

    /** The value, or `default` when absent: a destructuring default such as `progress = 0`. */
    function GetOr(default: T): T {
      match this
      case Some(v) => v
      case None => default
    }
  }
}
