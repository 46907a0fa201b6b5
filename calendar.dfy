/**
 * Calendar days.
 *
 * The dashboard labels its data points with `YYYY-MM-DD` strings and keeps its
 * committed range as JavaScript `Date` values that are normalised to the start
 * of their day before any comparison.  Both are represented here by the number
 * of the day they denote, so that parsing a label and normalising a date are
 * the identity and comparing days is comparing integers.
 */
module Calendar {

  /** A day number; a later day has a larger number. */
  type Day = int

  /** A `{ start, end }` pair of days: the store's committed range and a chart's highlighted band. */
  datatype DateRange = DateRange(start: Day, end: Day)

  function Min(a: Day, b: Day): Day { if a <= b then a else b }

  function Max(a: Day, b: Day): Day { if a <= b then b else a }
}
