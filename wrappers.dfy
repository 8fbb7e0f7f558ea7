/** An optional value, for stored properties that may be missing and for
    lookups that may find nothing. */
module Wrappers {

  datatype Option<+T> = None | Some(value: T)
  {
    /** `x ?? fallback`: the value, or the fallback when it is absent. */
    function GetOr(fallback: T): T
    {
      match this
      case Some(v) => v
      case None => fallback
    }
  }
}
