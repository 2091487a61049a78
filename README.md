# Birthdate picker: distance labels and day ranges

A Dafny model of the logic of a birthdate selector. The selector lists every day in an allowed age range, latest first. It labels each day with its distance to today in English, such as `3 years 2 months 5 days`.

- `DateFns` (date_fns.dfy) stands in for the date library. Dates are integer day numbers, so `differenceInDays` and `subDays` are exact subtraction. The calendar-aware operations are `differenceInMonths`, `differenceInYears`, `subMonths` and `subYears`. They are not re-implemented: a `Calendar` value carries them as functions. `Lawful` states the one assumption termination needs: subtracting one or more months or years gives a strictly earlier date.
- `DatePicker` (date_picker.dfy) is `public/index.js`. It holds the constants `MIN_DAYS_IN_MONTH` and `MONTHS_IN_YEAR`, `GetDateRange` (a method with a loop, as in the source) and `FormatDistance` (a recursive function, as in the source). The three "should not be reached" throws are `Err` values of a `Result`, and `Message` gives their text.
- `Numerals` (numerals.dfy) is the decimal text that a template literal `${n}` prints, with `ParseNat` as its inverse.
- `DistanceSpec` (distance_spec.dfy) says what a label means. A `Distance` is a count of years, months and days. `Render` writes the non-zero groups largest first, each singular exactly for the count one. Year and month groups end in a blank; the day group does not. `Breakdown` computes the numbers in three flat layers instead of a recursion. The lemmas tie `FormatDistance` to it under two stated calendar assumptions:
  - `SoundDifferences`: the month difference of ordered dates is never negative. Once a gap of 28 days or more holds twelve or more whole months, its year difference is at least one. Taking off the whole months or years never passes the start. The year clause is stronger than "never negative": the code also throws on a year difference of zero (public/index.js:82), so non-negative differences alone would not rule out every error.
  - `Coherent`: what the comments on the recursive calls rely on. What is left after the months are taken off holds no whole month. What is left after the years are taken off holds no whole year.

`ThirtyDayCalendar` (30-day months, 360-day years) meets `Lawful`, `SoundDifferences` and `Coherent` together, so the lemmas that assume them are not vacuous. `RepeatingCalendar` meets `Lawful` but not `Coherent`. On it the label of a 56-day gap is `1 month 1 month `, with the recursion three levels deep. So the largest-unit-first shape, and the bound of three levels, rest on `Coherent`.

The code throws on a start later than the end rather than requiring ordered dates. The model follows the code: such inputs get `Err(NegativeDays(..))`, and no precondition excludes them. The year check fails for a count of zero as well as for a negative one. The message still says "Negative difference in years", and `Message` keeps that wording.

## Model

| member | source | states |
|---|---|---|
| DatePicker.GetDateRange | public/index.js:14-22 | An empty list when start is not after end. Otherwise start - end days, where element i is start - i: strictly decreasing by one, every element after end and at most start, end itself excluded |
| DatePicker.FormatDistance | public/index.js:24-101 | A label is produced only when start is not after end. The label is empty exactly when the two dates are the same day. The recursion terminates because each call moves the later date strictly back |
| DistanceSpec.NegativeGapFails | public/index.js:25-29 | An end before the start fails with the negative day count and never yields a label |
| DistanceSpec.ShortGap | public/index.js:31-46 | Under 28 days the label is the day group alone: empty for zero days, "1 day" for one, "<n> days" otherwise, with no month or year word |
| DistanceSpec.LongGapWithoutMonth | public/index.js:48-59 | At least 28 days and a month count of zero gives "<n> days". A negative month count fails with that count |
| DistanceSpec.MonthGap | public/index.js:61-78 | With 1 to 11 whole months the label is "1 month " or "<m> months " followed by the distance from the start to m months before the end. An error from that distance passes through |
| DistanceSpec.YearGap | public/index.js:80-100 | With 12 or more months, a year count of zero or less fails with that count. Otherwise the label is "1 year " or "<y> years " followed by the distance from the start to y years before the end |
| DistanceSpec.ExactMonthsTrailingBlank | public/index.js:61-78 | When the whole months reach back exactly to the start, the label is the month group with its trailing blank, because the remainder is the empty label |
| DistanceSpec.QuantitySingularOnlyForOne | public/index.js:37-46 | A count is written with the bare singular noun exactly when it is one; every other count takes the plural |
| DistanceSpec.NeverFailsOnOrderedDates | public/index.js:24-101 | With a start not after the end and a calendar whose differences are sound, none of the three errors is reached |
| DistanceSpec.DaysPart | public/index.js:25-59 | The lowest layer of the breakdown: on success, zero years, zero months and the whole gap in days. It fails only on a negative gap or on a negative month count |
| DistanceSpec.MonthsPart | public/index.js:48-78 | The middle layer of the breakdown: on success, zero years and fewer than twelve months. With no months, the days are the whole gap |
| DistanceSpec.Breakdown | public/index.js:80-100 | The full breakdown has fewer than twelve months. When it has neither years nor months, the days are the whole gap |
| DistanceSpec.FormatIsRenderedBreakdown | public/index.js:61-100 | On a coherent calendar the recursive label equals the rendered flat breakdown, and an error is the same error. So the units come largest first, each at most once: the month remainder holds only days, the year remainder only months and days |
| DistanceSpec.OrderedDatesGetTheirBreakdown | public/index.js:24-101 | For ordered dates on a sound and coherent calendar, the breakdown exists and the label is exactly its rendering |
| DistanceSpec.RenderMonths | public/index.js:68-77 | On a label without years, the month group and its blank come before the day group |
| DistanceSpec.RenderYears | public/index.js:95-100 | On a label with years, the year group and its blank come before the rest of the label |
| Numerals.NatToString | public/index.js:45 | The printed count is non-empty, all digits, and has no leading zero |
| Numerals.ParseNatToString | public/index.js:45 | Reading the printed count back gives the count, so different counts print differently |
| Numerals.IntToString | public/index.js:28 | The number in an error message begins with a minus sign exactly when the number is negative. The digits read back as the number, or as its magnitude after the minus sign |
| DatePicker.Message | public/index.js:26-87 | Every error text begins with "Negative difference in " and ends with ". Should not be reached." |
| DatePicker.MessageInjective | public/index.js:26-87 | Different errors give different texts: the text names the unit (days, months or years) and prints the count |
| DistanceSpec.IncoherentCalendarRepeatsMonths | public/index.js:64-66 | On a lawful calendar that is not coherent, a 56-day gap gets the label "1 month 1 month ". The month remainder is then not days only |
| DistanceSpec.ThirtyDayCalendarMeetsAssumptions | public/index.js:9-10 | A calendar of 30-day months and 12-month years meets all three calendar assumptions at once |
| DateFns.DifferenceInDays | public/index.js:25 | The day difference is negative exactly when the end is earlier, zero exactly on the same day, and adding it to the start gives the end |
| DateFns.SubDays | public/index.js:19 | Stepping back n days gives a date whose day difference to the original is n |

## Left out

- The DOM wiring is not modelled: `createOptionElement`, `addOptions`, `main` and the page's `document` calls (public/index.js:103-128). They are user-interface glue with no logic of their own.
- The age limits `MIN_YEARS` and `MAX_YEARS` and the reading of today's wall-clock date in `main` are not modelled. They are used only by `main`.
- `formatRFC3339` is not modelled. It is a foreign serialiser, used only to fill the option's value.
- The date library's own calendar arithmetic is not modelled: month lengths, leap years and end-of-month clamping in `subMonths` and `subYears`. The library is not part of this model, so these are parameters with the assumptions listed above. `Lawful` is a precondition of `FormatDistance`. It is an assumption about the library, not something the source demands of its callers.
- Time of day, time zones and daylight-saving effects on `subDays` and on the `>` comparison in the range loop are not modelled. Dates are whole day numbers.
- Monotonicity is not proved: moving the end date later should never shrink the leading unit's count. It depends on the calendar's month and year differences, which are parameters here.
- DistanceSpec.FormatIsRenderedBreakdown: the claim that units come largest first is proved only for a calendar satisfying `Coherent`. Without the library, the model cannot show that date-fns satisfies it. IncoherentCalendarRepeatsMonths shows a lawful calendar on which the claim fails.
