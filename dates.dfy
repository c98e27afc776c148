/** Civil dates with the semantics of Go's time package at local midnight: day-of-month
    normalisation in time.Date, AddDate, Before, and the "20060102" layout of Format.
    Time zones and daylight saving are not modelled: a day has 86400 seconds. */
module Dates {
  import opened Decimal

  datatype Date = Date(year: int, month: int, day: int)

  predicate IsLeap(y: int) { y % 4 == 0 && (y % 100 != 0 || y % 400 == 0) }

  function DaysIn(y: int, m: int): (n: int)
    requires 1 <= m <= 12
    ensures 28 <= n <= 31
  {
    if m == 2 then (if IsLeap(y) then 29 else 28)
    else if m == 4 || m == 6 || m == 9 || m == 11 then 30
    else 31
  }

  predicate ValidDate(d: Date) { 1 <= d.month <= 12 && 1 <= d.day <= DaysIn(d.year, d.month) }

  /** t.Before(u) for two times at midnight in one location. */
  predicate Before(a: Date, b: Date)
  {
    a.year < b.year
    || (a.year == b.year && a.month < b.month)
    || (a.year == b.year && a.month == b.month && a.day < b.day)
  }

  function YearLength(y: int): int { if IsLeap(y) then 366 else 365 }

  /** Days from 1 January of year 1 (proleptic Gregorian) to 1 January of year y. */
  function DaysBeforeYear(y: int): int
  {
    365 * (y - 1) + (y - 1) / 4 - (y - 1) / 100 + (y - 1) / 400
  }

  function DaysBeforeMonth(y: int, m: int): (n: int)
    requires 1 <= m <= 12
  {
    (if m == 1 then 0 else if m == 2 then 31 else if m == 3 then 59 else if m == 4 then 90
     else if m == 5 then 120 else if m == 6 then 151 else if m == 7 then 181
     else if m == 8 then 212 else if m == 9 then 243 else if m == 10 then 273
     else if m == 11 then 304 else 334)
    + (if m > 2 && IsLeap(y) then 1 else 0)
  }

  /** A linear numbering of days: consecutive dates get consecutive numbers. */
  function DayNumber(d: Date): int
    requires 1 <= d.month <= 12
  {
    DaysBeforeYear(d.year) + DaysBeforeMonth(d.year, d.month) + d.day - 1
  }

  lemma StepDiv4(x: int)
    ensures (x + 1) / 4 == (if (x + 1) % 4 == 0 then x / 4 + 1 else x / 4)
  {
    var q, r := x / 4, x % 4;
    assert x == 4 * q + r && 0 <= r < 4;
    if r == 3 { DivUnique4(x + 1, q + 1, 0); } else { DivUnique4(x + 1, q, r + 1); }
  }

  lemma DivUnique4(n: int, q: int, r: int)
    requires n == 4 * q + r && 0 <= r < 4
    ensures n / 4 == q && n % 4 == r
  {
    var q', r' := n / 4, n % 4;
    assert n == 4 * q' + r' && 0 <= r' < 4;
    assert 4 * (q - q') == r' - r;
  }

  lemma StepDiv100(x: int)
    ensures (x + 1) / 100 == (if (x + 1) % 100 == 0 then x / 100 + 1 else x / 100)
  {
    var q, r := x / 100, x % 100;
    assert x == 100 * q + r && 0 <= r < 100;
    if r == 99 { DivUnique100(x + 1, q + 1, 0); } else { DivUnique100(x + 1, q, r + 1); }
  }

  lemma DivUnique100(n: int, q: int, r: int)
    requires n == 100 * q + r && 0 <= r < 100
    ensures n / 100 == q && n % 100 == r
  {
    var q', r' := n / 100, n % 100;
    assert n == 100 * q' + r' && 0 <= r' < 100;
    assert 100 * (q - q') == r' - r;
  }

  lemma StepDiv400(x: int)
    ensures (x + 1) / 400 == (if (x + 1) % 400 == 0 then x / 400 + 1 else x / 400)
  {
    var q, r := x / 400, x % 400;
    assert x == 400 * q + r && 0 <= r < 400;
    if r == 399 { DivUnique400(x + 1, q + 1, 0); } else { DivUnique400(x + 1, q, r + 1); }
  }

  lemma DivUnique400(n: int, q: int, r: int)
    requires n == 400 * q + r && 0 <= r < 400
    ensures n / 400 == q && n % 400 == r
  {
    var q', r' := n / 400, n % 400;
    assert n == 400 * q' + r' && 0 <= r' < 400;
    assert 400 * (q - q') == r' - r;
  }

  /** A multiple of 100 is a multiple of 4, a multiple of 400 one of 100. */
  lemma Divisibility(y: int)
    ensures y % 100 == 0 ==> y % 4 == 0
    ensures y % 400 == 0 ==> y % 100 == 0
  {
    if y % 100 == 0 {
      DivUnique4(y, 25 * (y / 100), 0);
    }
    if y % 400 == 0 {
      DivUnique100(y, 4 * (y / 400), 0);
    }
  }

  /** The leap-day correction terms of DaysBeforeYear grow by one exactly across a leap year. */
  lemma LeapCorrectionStep(y: int)
    ensures (y / 4 - (y - 1) / 4) - (y / 100 - (y - 1) / 100) + (y / 400 - (y - 1) / 400)
            == (if IsLeap(y) then 1 else 0)
  {
    StepDiv4(y - 1);
    StepDiv100(y - 1);
    StepDiv400(y - 1);
    Divisibility(y);
  }

  lemma YearStep(y: int)
    ensures DaysBeforeYear(y + 1) == DaysBeforeYear(y) + YearLength(y)
  {
    LeapCorrectionStep(y);
  }

  lemma MonthStep(y: int, m: int)
    requires 1 <= m < 12
    ensures DaysBeforeMonth(y, m + 1) == DaysBeforeMonth(y, m) + DaysIn(y, m)
  {
  }

  lemma YearMonotone(a: int, b: int)
    requires a < b
    ensures DaysBeforeYear(a) + YearLength(a) <= DaysBeforeYear(b)
    decreases b - a
  {
    YearStep(a);
    if a + 1 < b {
      YearMonotone(a + 1, b);
    }
  }

  lemma WithinYear(d: Date)
    requires ValidDate(d)
    ensures 0 <= DaysBeforeMonth(d.year, d.month) + d.day - 1 < YearLength(d.year)
  {
  }

  lemma MonthMonotone(y: int, a: int, b: int)
    requires 1 <= a < b <= 12
    ensures DaysBeforeMonth(y, a) + DaysIn(y, a) <= DaysBeforeMonth(y, b)
  {
  }

  /** Day numbers order valid dates exactly as Before does. */
  lemma {:induction false} DayNumberOrder(a: Date, b: Date)
    requires ValidDate(a) && ValidDate(b)
    ensures Before(a, b) <==> DayNumber(a) < DayNumber(b)
    ensures a == b <==> DayNumber(a) == DayNumber(b)
  {
    WithinYear(a);
    WithinYear(b);
    if a.year < b.year {
      YearMonotone(a.year, b.year);
    } else if b.year < a.year {
      YearMonotone(b.year, a.year);
    } else if a.month < b.month {
      MonthMonotone(a.year, a.month, b.month);
    } else if b.month < a.month {
      MonthMonotone(a.year, b.month, a.month);
    }
  }

  /** time.Date(y, m, d, 0, 0, 0, 0, loc) for a month in range and a day d >= 0: a day
      beyond the end of the month carries into the following months (and years), and
      day 0 is the last day of the previous month. */
  function Normalize(y: int, m: int, d: nat): (r: Date)
    requires 1 <= m <= 12
    ensures ValidDate(r)
    ensures DayNumber(r) == DayNumber(Date(y, m, 1)) + d - 1
    decreases d
  {
    if d == 0 then
      if m == 1 then
        NextMonthStart(y - 1, 12);
        Date(y - 1, 12, 31)
      else
        NextMonthStart(y, m - 1);
        Date(y, m - 1, DaysIn(y, m - 1))
    else if d <= DaysIn(y, m) then
      Date(y, m, d)
    else if m == 12 then
      NextMonthStart(y, m);
      Normalize(y + 1, 1, d - DaysIn(y, m))
    else
      NextMonthStart(y, m);
      Normalize(y, m + 1, d - DaysIn(y, m))
  }

  /** The first of the following month comes DaysIn(y, m) days after the first of month m. */
  lemma NextMonthStart(y: int, m: int)
    requires 1 <= m <= 12
    ensures var next := if m == 12 then Date(y + 1, 1, 1) else Date(y, m + 1, 1);
            DayNumber(next) == DayNumber(Date(y, m, 1)) + DaysIn(y, m)
  {
    if m == 12 {
      YearStep(y);
    } else {
      MonthStep(y, m);
    }
  }

  /** Normalising a month of year y and a day d >= 0 never goes back past 31 December of
      year y - 1. */
  lemma NormalizeNotBeforeEve(y: int, m: int, d: nat)
    requires 1 <= m <= 12
    ensures !Before(Normalize(y, m, d), Date(y - 1, 12, 31))
  {
    var eve := Date(y - 1, 12, 31);
    NextMonthStart(y - 1, 12);
    assert DaysBeforeMonth(y, m) >= 0;
    DayNumberOrder(Normalize(y, m, d), eve);
  }

  /** A valid date is left unchanged by normalisation. */
  lemma NormalizeValid(d: Date)
    requires ValidDate(d)
    ensures Normalize(d.year, d.month, d.day) == d
  {
    DayNumberOrder(Normalize(d.year, d.month, d.day), d);
  }

  /** t.AddDate(0, 0, 1): the following calendar day. */
  function NextDay(d: Date): (r: Date)
    requires ValidDate(d)
    ensures ValidDate(r) && DayNumber(r) == DayNumber(d) + 1
  {
    Normalize(d.year, d.month, d.day + 1)
  }

  /** t.AddDate(1, 0, 0) at midnight: the same month and day one year later, normalised. */
  function AddYear(d: Date): (r: Date)
    requires ValidDate(d)
    ensures ValidDate(r)
  {
    Normalize(d.year + 1, d.month, d.day)
  }

  /** AddDate(1, 0, 0) keeps month and day, except that 29 February becomes 1 March when
      the following year is not a leap year. */
  lemma {:induction false} AddYearOf(d: Date)
    requires ValidDate(d)
    ensures AddYear(d) == if d.month == 2 && d.day == 29 && !IsLeap(d.year + 1)
                          then Date(d.year + 1, 3, 1) else Date(d.year + 1, d.month, d.day)
  {
    var e := if d.month == 2 && d.day == 29 && !IsLeap(d.year + 1)
             then Date(d.year + 1, 3, 1) else Date(d.year + 1, d.month, d.day);
    if d.month == 2 && d.day == 29 && !IsLeap(d.year + 1) {
      MonthStep(d.year + 1, 2);
    }
    DayNumberOrder(AddYear(d), e);
  }

  predicate AllValid(sch: seq<Date>) { forall i :: 0 <= i < |sch| ==> ValidDate(sch[i]) }

  /** A local wall-clock time: a date and the second of that day. */
  datatype Instant = Instant(date: Date, second: int)

  predicate ValidInstant(t: Instant) { ValidDate(t.date) && 0 <= t.second < 86400 }

  /** Seconds on one linear time line (no daylight-saving gaps or repeats). */
  function Seconds(t: Instant): int
    requires 1 <= t.date.month <= 12
  {
    DayNumber(t.date) * 86400 + t.second
  }

  /** Seconds order valid instants by date first, then by time of day. */
  lemma {:induction false} SecondsOrder(a: Instant, b: Instant)
    requires ValidInstant(a) && ValidInstant(b)
    ensures Seconds(a) < Seconds(b) <==>
              Before(a.date, b.date) || (a.date == b.date && a.second < b.second)
  {
    DayNumberOrder(a.date, b.date);
  }

  /** d.Format("20060102"): year to at least four digits (a leading '-' for negative years),
      month and day to two digits each. */
  function FormatYmd(d: Date): string
    requires ValidDate(d)
  {
    (if d.year < 0 then "-" + Pad(-d.year, 4) else Pad(d.year, 4)) + Pad(d.month, 2) + Pad(d.day, 2)
  }

  /** Reads an eight-digit YYYYMMDD string back into a date. */
  function ParseYmd(s: string): Date
    requires |s| == 8 && AllDigits(s)
  {
    Date(Value(s[..4]), Value(s[4..6]), Value(s[6..]))
  }

  /** For years 0 to 9999 the DTSTART text is eight digits, and reading it back gives the date. */
  lemma {:induction false} FormatYmdRoundTrip(d: Date)
    requires ValidDate(d) && 0 <= d.year <= 9999
    ensures |FormatYmd(d)| == 8 && AllDigits(FormatYmd(d))
    ensures ParseYmd(FormatYmd(d)) == d
  {
    var y, m, n := Pad(d.year, 4), Pad(d.month, 2), Pad(d.day, 2);
    PadLength(d.year, 4);
    PadLength(d.month, 2);
    PadLength(d.day, 2);
    ValueOfPad(d.year, 4);
    ValueOfPad(d.month, 2);
    ValueOfPad(d.day, 2);
    var s := y + m + n;
    assert s[..4] == y && s[4..6] == m && s[6..] == n;
  }
}
