/** An optional value: `None` stands for a property the caller left out
    (or set to `undefined`), `Some(v)` for a property it supplied. */
module Wrappers {

  datatype Option<+T> = None | Some(value: T) {

    /** The supplied value, or `default` when nothing was supplied. */
    function GetOr(default: T): (r: T)
      ensures Some? ==> r == value
      ensures None? ==> r == default
    {
      match this
      case Some(v) => v
      case None => default
    }
  }
}
