/** An optional value: an absent prop or an unset selection. */
module Options {

  datatype Option<+T> = None | Some(value: T) {

    /** The value, or `default` when it is absent (a default parameter). */
    function GetOr(default: T): (r: T)
      ensures Some? ==> r == value
      ensures None? ==> r == default
    {
      match this
      case Some(v) => v
      case None => default
    }
  }
}
