/** A value that may be missing: a nullable column or form field. */
module Options {

  datatype Option<+T> = None | Some(value: T) {

    /** The value, or `default` when it is missing (PHP's `??`). */
    function GetOr(default: T): (r: T)
      ensures Some? ==> r == value
      ensures None? ==> r == default
    {
      match this
      case Some(v) => v
      case None => default
    }
  }
}
