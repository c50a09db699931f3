/** An optional value. In a telemetry snapshot it stands for a field that may
    be `null` or `undefined`: every use of a snapshot field (`??`, truthiness
    tests, React rendering) treats the two alike, so one `None` covers both.
    Chart records, whose `timestamp` is parsed as a date, keep them apart. */
module Wrappers {

  datatype Option<+T> = None | Some(value: T) {

    /** The JavaScript nullish-coalescing operator `value ?? fallback`. */
    function GetOr(fallback: T): (r: T)
      ensures Some? ==> r == value
      ensures None? ==> r == fallback
    {
      match this
      case Some(v) => v
      case None => fallback
    }
  }
}
