/**
 * The date primitives the picker imports from date-fns, over dates kept as
 * integer day numbers (day granularity; no time of day, no time zone).
 *
 * differenceInDays and subDays are exact on day numbers.  The calendar-aware
 * operations (whole months and years between two dates, subtracting months
 * or years with end-of-month clamping) are not re-implemented: a Calendar
 * carries them as function values, and the assumptions a proof relies on are
 * stated as predicates over a Calendar.
 */
module DateFns {

  /** A calendar date as a day number: one more is one day later. */
  type Day = int

  datatype Calendar = Calendar(
    differenceInMonths: (Day, Day) -> int,  // whole months from the second date to the first
    differenceInYears: (Day, Day) -> int,   // whole years from the second date to the first
    subMonths: (Day, int) -> Day,           // the date n months before the given one
    subYears: (Day, int) -> Day             // the date n years before the given one
  )

  /** Whole days from `earlier` to `later`; negative when `later` is earlier. */
  function DifferenceInDays(later: Day, earlier: Day): (days: int)
    ensures days < 0 <==> later < earlier
    ensures days == 0 <==> later == earlier
    ensures earlier + days == later
  {
    later - earlier
  }

  /** The date `n` days before `date`. */
  function SubDays(date: Day, n: int): (earlier: Day)
    ensures DifferenceInDays(date, earlier) == n
  {
    date - n
  }

  /**
   * Subtracting at least one month or one year moves strictly back in time;
   * this is what makes the formatter's recursion terminate.
   */
  ghost predicate Lawful(cal: Calendar) {
    && (forall d: Day, n: int :: 1 <= n ==> cal.subMonths(d, n) < d)
    && (forall d: Day, n: int :: 1 <= n ==> cal.subYears(d, n) < d)
  }
}
