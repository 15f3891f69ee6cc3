/** The range of Python's `datetime`: `datetime.fromtimestamp(t)` raises
    unless `t` falls within the years 1 to 9999. Times are whole epoch
    seconds; the local time zone is not modelled. */
module Datetimes {
  import opened Wrappers
  import opened Json

  /** The earliest and latest seconds a `datetime` can hold (years 1 and 9999). */
  const MIN_SECONDS: int := -62_135_596_800
  const MAX_SECONDS: int := 253_402_300_799

  predicate InRange(t: int) {
    MIN_SECONDS <= t <= MAX_SECONDS
  }

  /** `datetime.fromtimestamp(v)` of a value read from JSON, in seconds: an
      int inside the range, or a bool as 0 or 1; None where it raises (a
      value that is not a number, or one outside the range). */
  function Seconds(v: Json): (r: Option<int>)
    ensures r.Some? ==> InRange(r.value)
    ensures v.Int? ==> r == if InRange(v.i) then Some(v.i) else None
    ensures v.Bool? ==> r == Some(if v.b then 1 else 0)
    ensures !v.Int? && !v.Bool? ==> r.None?
  {
    match v
    case Int(i) => if InRange(i) then Some(i) else None
    case Bool(b) => Some(if b then 1 else 0)
    case _ => None
  }
}
