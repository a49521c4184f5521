/** Optional values: JavaScript's `undefined`/`null` and Prisma's "not found". */
module Wrappers {

  datatype Option<+T> = None | Some(value: T) {

    /**
     * The wrapped value, or `default` when there is none: JavaScript's `x ?? d`,
     * and also `x || d` where `x` is an array, an object or a number
     * defaulting to 0, since no other falsy value can then reach `||`.
     */
    function GetOr(default: T): T {
      match this
      case Some(v) => v
      case None => default
    }
  }
}
