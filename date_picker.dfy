/**
 * The birthdate picker's logic: the list of selectable days and the
 * "3 years 2 months 5 days" label of each.
 */
module DatePicker {
  import opened Numerals
  import opened DateFns

  /** No month is shorter than this many days. */
  const MIN_DAYS_IN_MONTH := 28
  const MONTHS_IN_YEAR := 12

  /** The "should not be reached" errors formatDistance throws. */
  datatype Error =
    | NegativeDays(days: int)
    | NegativeMonths(months: int)
    | NonPositiveYears(years: int)

  /** The count an error reports. */
  function Count(e: Error): int {
    match e
    case NegativeDays(days) => days
    case NegativeMonths(months) => months
    case NonPositiveYears(years) => years
  }

  /** The part of the message before the count. */
  function Head(e: Error): (h: string)
    ensures |h| > 23 && h[..23] == "Negative difference in "
  {
    match e
    case NegativeDays(_) => "Negative difference in days: "
    case NegativeMonths(_) => "Negative difference in months: "
    case NonPositiveYears(_) => "Negative difference in years: "
  }

  const TAIL := ". Should not be reached."

  /** The text of the thrown error. */
  function Message(e: Error): (m: string)
    ensures |m| > 23 + |TAIL| && m[..23] == "Negative difference in "
    ensures m[|m| - |TAIL|..] == TAIL
  {
    Head(e) + IntToString(Count(e)) + TAIL
  }

  /** A message is its head, the count and the fixed tail, in that order. */
  lemma MessageParts(e: Error)
    ensures var m := Message(e); var h := |Head(e)|;
      && |m| == h + |IntToString(Count(e))| + |TAIL|
      && m[23] == Head(e)[23]
      && m[h..|m| - |TAIL|] == IntToString(Count(e))
  {
    var h, n := Head(e), IntToString(Count(e));
    var m := h + n + TAIL;
    assert m[|h|..|m| - |TAIL|] == n;
  }

  /** Different errors have different messages: the message names the unit and the count. */
  lemma MessageInjective(a: Error, b: Error)
    ensures Message(a) == Message(b) <==> a == b
  {
    if Message(a) == Message(b) {
      MessageParts(a);
      MessageParts(b);
      assert Head(a)[23] == Head(b)[23];
      assert Head(a) == Head(b) by {
        match a
        case NegativeDays(_) => assert Head(a)[23] == 'd';
        case NegativeMonths(_) => assert Head(a)[23] == 'm';
        case NonPositiveYears(_) => assert Head(a)[23] == 'y';
      }
      IntToStringInjective(Count(a), Count(b));
    }
  }

  /** A value, or the error that aborted the computation. */
  datatype Result<+T> = Ok(value: T) | Err(error: Error) {
    predicate IsFailure() {
      Err?
    }

    function PropagateFailure<U>(): Result<U>
      requires Err?
    {
      Err(error)
    }

    function Extract(): T
      requires Ok?
    {
      value
    }
  }

  /** Prefixes the text of a successful result; errors pass through. */
  function Prefixed(prefix: string, r: Result<string>): (p: Result<string>)
    ensures p.Ok? <==> r.Ok?
    ensures p.Ok? ==> p.value == prefix + r.value
    ensures p.Err? ==> p.error == r.error
  {
    match r
    case Ok(text) => Ok(prefix + text)
    case Err(e) => Err(e)
  }

  /**
   * The days from `start` down to `end`, `end` excluded, latest first,
   * stepping back one day at a time.
   */
  method GetDateRange(start: Day, end: Day) returns (range: seq<Day>)
    ensures |range| == if start > end then start - end else 0
    ensures forall i :: 0 <= i < |range| ==> range[i] == start - i
    ensures forall i :: 0 <= i < |range| ==> end < range[i] <= start
    ensures end !in range
  {
    range := [];
    var cur := start;
    while cur > end
      invariant cur <= start
      invariant start > end ==> end <= cur
      invariant start <= end ==> cur == start
      invariant |range| == start - cur
      invariant forall i :: 0 <= i < |range| ==> range[i] == start - i
      decreases cur - end
    {
      range := range + [cur];
      cur := SubDays(cur, 1);
    }
  }

  /**
   * The English distance from `start` to `end`: the largest unit that
   * applies, then the distance from `start` to the date that many units
   * before `end`.  The recursion moves the later date strictly back, so it
   * ends once fewer than MIN_DAYS_IN_MONTH days remain.
   */
  function FormatDistance(cal: Calendar, start: Day, end: Day): (r: Result<string>)
    requires Lawful(cal)
    ensures r.Ok? ==> start <= end
    ensures r == Ok("") <==> start == end
    decreases end - start
  {
    var days := DifferenceInDays(end, start);
    if days < 0 then
      Err(NegativeDays(days))
    else if days == 0 then
      // no "0 days"; the callers' labels may end in a blank
      Ok("")
    else if days == 1 then
      Ok("1 day")
    else if days < MIN_DAYS_IN_MONTH then
      Ok(NatToString(days) + " days")
    else
      var months := cal.differenceInMonths(end, start);
      if months < 0 then
        Err(NegativeMonths(months))
      else if months == 0 then
        // a month longer than 28 days has not yet gone by
        Ok(NatToString(days) + " days")
      else if months == 1 then
        var sameMonthDate := cal.subMonths(end, months);
        var dayDistance :- FormatDistance(cal, start, sameMonthDate);
        Ok("1 month " + dayDistance)
      else if months < MONTHS_IN_YEAR then
        var sameMonthDate := cal.subMonths(end, months);
        var dayDistance :- FormatDistance(cal, start, sameMonthDate);
        Ok(NatToString(months) + " months " + dayDistance)
      else
        var years := cal.differenceInYears(end, start);
        if years <= 0 then
          Err(NonPositiveYears(years))
        else
          var sameYearDate := cal.subYears(end, years);
          var monthDistance :- FormatDistance(cal, start, sameYearDate);
          if years == 1 then
            Ok("1 year " + monthDistance)
          else
            Ok(NatToString(years) + " years " + monthDistance)
  }
}
