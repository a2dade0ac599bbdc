/** Optional values: a JavaScript value that may be `undefined`/`null`, or an
    operation that may throw, is modelled as an Option. */
module Wrappers {

  datatype Option<+T> = None | Some(value: T) {

    /** The encapsulated value, or `default` when there is none (JavaScript's `x || default`
        for values that are never falsy when present, and `x ?? default`). */
    function GetOr(default: T): T {
      match this
      case Some(v) => v
      case None => default
    }
  }
}
