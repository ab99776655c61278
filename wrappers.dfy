/** Python's `Optional[T]`: `None` or a value. */
module Wrappers {

  datatype Option<+T> = None | Some(value: T) {

    /** The value, or `default` when there is none. */
    function GetOr(default: T): T {
      match this
      case Some(v) => v
      case None => default
    }
  }

  /** A Python optional string is truthy when it is present and non-empty. */
  predicate Present(o: Option<string>): (t: bool)
    ensures !t <==> o in {None, Some("")}
  {
    o.Some? && o.value != ""
  }

  /** Python's f-string rendering of an optional string: `None` prints as "None". */
  function Show(o: Option<string>): (r: string)
    ensures o.Some? ==> r == o.value
    ensures o.None? ==> r == "None"
  {
    match o
    case Some(s) => s
    case None => "None"
  }
}
