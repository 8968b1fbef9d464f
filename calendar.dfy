/** The part of JavaScript's local-time `Date` the budgeting core relies on:
    calendar fields at one-second precision, the Gregorian month lengths,
    the "day 0 of the next month" idiom, and chronological order. */
module Calendar {

  /** A local date and time. `month` is 1-based (January is 1), unlike
      `Date.prototype.getMonth`, which counts from 0. */
  datatype DateTime = DateTime(year: int, month: int, day: int, hour: int, minute: int, second: int)

  /** The Gregorian leap-year rule. */
  predicate IsLeapYear(y: int) {
    (y % 4 == 0 && y % 100 != 0) || y % 400 == 0
  }

  function DaysInMonth(y: int, m: int): (n: int)
    requires 1 <= m <= 12
    ensures 28 <= n <= 31
  {
    if m == 2 then (if IsLeapYear(y) then 29 else 28)
    else if m == 4 || m == 6 || m == 9 || m == 11 then 30
    else 31
  }

  /** The day of the month of `new Date(y, m, 0)` when `m` is the 0-based
      index of the month after the 1-based month `m` (the source's
      `new Date(year, month + 1, 0)`): the month index 12 rolls over into
      January of the next year, and day 0 then steps back to the last day
      of the month before. The result is the length of month `m` of year
      `y`, December included. */
  function LastDayViaDayZero(y: int, m: int): (d: int)
    requires 1 <= m <= 12
    ensures d == DaysInMonth(y, m)
  {
    // normalise "month m + 1 of year y" (1-based)
    var (ny, nm) := if m == 12 then (y + 1, 1) else (y, m + 1);
    // day 0 of (ny, nm) is the last day of the month before it
    var (py, pm) := if nm == 1 then (ny - 1, 12) else (ny, nm - 1);
    DaysInMonth(py, pm)
  }

  /** Every field is within its calendar range. */
  predicate ValidDateTime(t: DateTime) {
    && 1 <= t.month <= 12
    && 1 <= t.day <= DaysInMonth(t.year, t.month)
    && 0 <= t.hour < 24
    && 0 <= t.minute < 60
    && 0 <= t.second < 60
  }

  /** Chronological order: `a` is at or before `b` (lexicographic on the fields). */
  predicate AtOrBefore(a: DateTime, b: DateTime) {
    if a.year != b.year then a.year < b.year
    else if a.month != b.month then a.month < b.month
    else if a.day != b.day then a.day < b.day
    else if a.hour != b.hour then a.hour < b.hour
    else if a.minute != b.minute then a.minute < b.minute
    else a.second <= b.second
  }

  /** `AtOrBefore` is a total order. */
  lemma AtOrBeforeTotalOrder()
    ensures forall a, b :: AtOrBefore(a, b) || AtOrBefore(b, a)
    ensures forall a, b :: AtOrBefore(a, b) && AtOrBefore(b, a) ==> a == b
    ensures forall a, b, c :: AtOrBefore(a, b) && AtOrBefore(b, c) ==> AtOrBefore(a, c)
  {
  }
}
