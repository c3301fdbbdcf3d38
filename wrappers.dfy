/** Optional values. In this model `None` stands for JavaScript's `undefined`, `null`
    and, for numbers, `NaN`: the values the source replaces with `|| default`. */
module Wrappers {

  datatype Option<+T> = None | Some(value: T) {

    /** `x || d` for a value whose only falsy form is the missing one. */
    function GetOr(d: T): T {
      match this
      case Some(v) => v
      case None => d
    }
  }
}
