/** The period calculator: a budgeting period is the first half (1st–15th)
    or the second half (16th–last day) of a calendar month. */
module Periods {
  import opened Calendar

  /** The inclusive bounds of a period. */
  datatype Period = Period(start: DateTime, end: DateTime)

  /** `start <= t <= end`, the query filter `gte(date, start)` and `lte(date, end)`. */
  predicate InPeriod(t: DateTime, p: Period) {
    AtOrBefore(p.start, t) && AtOrBefore(t, p.end)
  }

  /** `getPeriodBounds`: days 1–15 give the 1st 00:00:00 to the 15th 23:59:59,
      later days give the 16th 00:00:00 to the last day of the month 23:59:59. */
  function PeriodBounds(date: DateTime): (p: Period)
    requires ValidDateTime(date)
    ensures ValidDateTime(p.start) && ValidDateTime(p.end)
    ensures p.start.year == date.year && p.end.year == date.year
    ensures p.start.month == date.month && p.end.month == date.month
    ensures p.start.day == (if date.day <= 15 then 1 else 16)
    ensures p.end.day == (if date.day <= 15 then 15 else DaysInMonth(date.year, date.month))
    ensures p.start.hour == 0 && p.start.minute == 0 && p.start.second == 0
    ensures p.end.hour == 23 && p.end.minute == 59 && p.end.second == 59
  {
    var y, m := date.year, date.month;
    if date.day <= 15 then
      Period(DateTime(y, m, 1, 0, 0, 0), DateTime(y, m, 15, 23, 59, 59))
    else
      Period(DateTime(y, m, 16, 0, 0, 0), DateTime(y, m, LastDayViaDayZero(y, m), 23, 59, 59))
  }

  /** A valid time lies in the period of `date` exactly when it falls in the
      same month of the same year and in the same half of that month. */
  lemma PeriodMembership(date: DateTime, t: DateTime)
    requires ValidDateTime(date) && ValidDateTime(t)
    ensures InPeriod(t, PeriodBounds(date)) <==>
              t.year == date.year && t.month == date.month && (t.day <= 15 <==> date.day <= 15)
  {
  }

  /** The reference date lies inside its own period. */
  lemma DateInOwnPeriod(date: DateTime)
    requires ValidDateTime(date)
    ensures InPeriod(date, PeriodBounds(date))
  {
    PeriodMembership(date, date);
  }

  /** The two halves of a month are disjoint and together cover every second
      of that month, and no second of any other month. */
  lemma HalvesPartitionMonth(y: int, m: int, t: DateTime)
    requires 1 <= m <= 12 && ValidDateTime(t)
    ensures var first := PeriodBounds(DateTime(y, m, 1, 0, 0, 0));
            var second := PeriodBounds(DateTime(y, m, 16, 0, 0, 0));
            && !(InPeriod(t, first) && InPeriod(t, second))
            && (InPeriod(t, first) || InPeriod(t, second) <==> t.year == y && t.month == m)
  {
    PeriodMembership(DateTime(y, m, 1, 0, 0, 0), t);
    PeriodMembership(DateTime(y, m, 16, 0, 0, 0), t);
  }

  /** Every date inside a period maps back to that same period. */
  lemma PeriodBoundsStable(date: DateTime, t: DateTime)
    requires ValidDateTime(date) && ValidDateTime(t)
    requires InPeriod(t, PeriodBounds(date))
    ensures PeriodBounds(t) == PeriodBounds(date)
  {
    PeriodMembership(date, t);
  }

  /** The last second of the 15th belongs to the first half and not to the
      second half of its month. */
  lemma FifteenthLastSecondInFirstHalf(y: int, m: int)
    requires 1 <= m <= 12
    ensures InPeriod(DateTime(y, m, 15, 23, 59, 59), PeriodBounds(DateTime(y, m, 1, 0, 0, 0)))
    ensures !InPeriod(DateTime(y, m, 15, 23, 59, 59), PeriodBounds(DateTime(y, m, 16, 0, 0, 0)))
  {
  }
}
