/** The period label shown on the pages: "1st–15th Mar 2025" for the first
    half of a month and "16th–31st Mar 2025" for the second, the last day
    of the month written out. */
module Format {
  import opened Calendar
  import opened Periods

  /** The en dash between the two days of a label. */
  const EN_DASH: char := '–'

  /** The `en-US` short month names, January first. */
  const MONTH_NAMES: seq<string> :=
    ["Jan", "Feb", "Mar", "Apr", "May", "Jun", "Jul", "Aug", "Sep", "Oct", "Nov", "Dec"]

  /** `toLocaleString("en-US", { month: "short" })` of 1-based month `m`. */
  function MonthName(m: int): (name: string)
    requires 1 <= m <= 12
    ensures |name| == 3
  {
    MONTH_NAMES[m - 1]
  }

  /** Distinct months have distinct names. */
  lemma MonthNameInjective(m: int, n: int)
    requires 1 <= m <= 12 && 1 <= n <= 12
    ensures MonthName(m) == MonthName(n) <==> m == n
  {
  }

  function DigitChar(d: int): (c: char)
    requires 0 <= d < 10
    ensures '0' <= c <= '9'
  {
    (d + '0' as int) as char
  }

  /** Decimal notation of a natural number, without leading zeros. */
  function NatToString(n: nat): (s: string)
    ensures 1 <= |s|
    ensures forall i :: 0 <= i < |s| ==> '0' <= s[i] <= '9'
    ensures n < 10 <==> |s| == 1
  {
    if n < 10 then [DigitChar(n)] else NatToString(n / 10) + [DigitChar(n % 10)]
  }

  /** Decimal notation of an integer, `-` in front when negative (what a
      template literal makes of `getFullYear()`). */
  function IntToString(n: int): (s: string)
    ensures 1 <= |s|
    ensures s[0] == '-' <==> n < 0
  {
    if n < 0 then "-" + NatToString(-n) else NatToString(n)
  }

  /** Different numbers are written differently. */
  lemma {:induction false} NatToStringInjective(a: nat, b: nat)
    requires NatToString(a) == NatToString(b)
    ensures a == b
  {
    var s := NatToString(a);
    if a >= 10 {
      assert b >= 10;
      assert s[..|s| - 1] == NatToString(a / 10) == NatToString(b / 10);
      NatToStringInjective(a / 10, b / 10);
      assert s[|s| - 1] == DigitChar(a % 10) == DigitChar(b % 10);
    }
  }

  lemma IntToStringInjective(a: int, b: int)
    requires IntToString(a) == IntToString(b)
    ensures a == b
  {
    if a < 0 {
      assert IntToString(a)[1..] == NatToString(-a);
      assert IntToString(b)[1..] == NatToString(-b);
      NatToStringInjective(-a, -b);
    } else {
      NatToStringInjective(a, b);
    }
  }

  /** `getCurrentPeriodLabel`. The second character tells the halves
      apart ("1st" against "16th"); the month name starts at 9 in the first
      half and at 10 in the second, the last day always having two digits;
      the year follows the month and a space. */
  function PeriodLabel(date: DateTime): (text: string)
    requires ValidDateTime(date)
    ensures var h := if date.day <= 15 then 9 else 10;
            && |text| > h + 4
            && text[1] == (if date.day <= 15 then 's' else '6')
            && text[h..h + 3] == MonthName(date.month)
            && text[h + 4..] == IntToString(date.year)
  {
    var month := MonthName(date.month);
    var year := IntToString(date.year);
    var lastDay := LastDayViaDayZero(date.year, date.month);
    var suffix := if lastDay == 31 then "st" else "th";
    var head := if date.day <= 15 then "1st" + [EN_DASH] + "15th "
                else "16th" + [EN_DASH] + NatToString(lastDay) + suffix + " ";
    assert |NatToString(lastDay)| == 2;
    var text := head + month + " " + year;
    assert text[|head|..|head| + 3] == month && text[|head| + 4..] == year;
    text
  }

  /** The English ordinal suffix of a day of the month. */
  function OrdinalSuffix(d: nat): string {
    if d % 10 == 1 && d != 11 then "st"
    else if d % 10 == 2 && d != 12 then "nd"
    else if d % 10 == 3 && d != 13 then "rd"
    else "th"
  }

  function Ordinal(d: nat): string {
    NatToString(d) + OrdinalSuffix(d)
  }

  /** The label names the first and the last day of the period the date
      falls in, each with its correct ordinal suffix, then the month and the
      year: the fixed "st"/"th" choice is right for every month length. */
  lemma LabelNamesPeriod(date: DateTime)
    requires ValidDateTime(date)
    ensures var p := PeriodBounds(date);
            PeriodLabel(date) == Ordinal(p.start.day) + [EN_DASH] + Ordinal(p.end.day) + " "
                                 + MonthName(p.start.month) + " " + IntToString(p.start.year)
  {
    var p := PeriodBounds(date);
    if date.day <= 15 {
      assert Ordinal(1) == "1st" by { assert NatToString(1) == "1"; }
      assert Ordinal(15) == "15th" by { assert NatToString(1) == "1"; }
    } else {
      assert Ordinal(16) == "16th" by { assert NatToString(1) == "1"; }
      MonthEndSuffix(p.end.day);
    }
  }

  /** For the day a month ends on, the ordinal suffix is "st" on the 31st
      and "th" otherwise. */
  lemma MonthEndSuffix(d: nat)
    requires 28 <= d <= 31
    ensures OrdinalSuffix(d) == if d == 31 then "st" else "th"
  {
  }

  /** Two dates get the same label exactly when they fall in the same
      period: the label is a faithful name for the period. */
  lemma LabelIdentifiesPeriod(a: DateTime, b: DateTime)
    requires ValidDateTime(a) && ValidDateTime(b)
    ensures PeriodLabel(a) == PeriodLabel(b) <==> PeriodBounds(a) == PeriodBounds(b)
  {
    if PeriodLabel(a) == PeriodLabel(b) {
      MonthNameInjective(a.month, b.month);
      IntToStringInjective(a.year, b.year);
    }
  }
}
