/** Optional values: the model's rendering of JavaScript's `undefined`/`null`
    and of absent query parameters and JSON fields. */
module Wrappers {

  datatype Option<+T> = None | Some(value: T) {

    /** The value, or `default` when absent: the `x || default` and
        `x ?? default` idioms of the source for values that are never falsy. */
    function GetOr(default: T): T
    {
      match this
      case Some(v) => v
      case None => default
    }
  }
}
