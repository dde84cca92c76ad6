/** JavaScript's `undefined`-or-value, as an explicit option type. */
module Options {

  datatype Option<+T> = None | Some(value: T)
  {
    /** `x ?? d` */
    function GetOr(d: T): T
    {
      match this
      case Some(v) => v
      case None => d
    }

    /** `a ?? b` where both sides may be undefined. */
    function OrElse(other: Option<T>): Option<T>
    {
      if Some? then this else other
    }
  }
}
