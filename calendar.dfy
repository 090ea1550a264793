/**
 * Calendar dates in the proleptic Gregorian calendar.  A date is a
 * (year, month, day) record; comparisons between dates go through a day
 * ordinal (days since 0000-01-01), so that "earlier than" and "n days
 * between" are integer facts.  Time of day and time zones are not modelled.
 */
module Calendar {

  /** A calendar date: `month` is 1..12, `day` is 1..DaysInMonth for a valid date. */
  datatype Date = Date(year: int, month: nat, day: nat)

  predicate IsLeapYear(y: int)
  {
    y % 4 == 0 && (y % 100 != 0 || y % 400 == 0)
  }

  function DaysInYear(y: int): nat
  {
    if IsLeapYear(y) then 366 else 365
  }

  function DaysInMonth(y: int, m: nat): nat
  {
    if m == 2 then (if IsLeapYear(y) then 29 else 28)
    else if m == 4 || m == 6 || m == 9 || m == 11 then 30
    else 31
  }

  predicate Valid(d: Date)
  {
    1 <= d.month <= 12 && 1 <= d.day <= DaysInMonth(d.year, d.month)
  }

  /** Days from 0000-01-01 to the first day of year `y`. */
  function DaysBeforeYear(y: int): int
  {
    365 * y + (y + 3) / 4 - (y + 99) / 100 + (y + 399) / 400
  }

  /** Days from the first of January of year `y` to the first day of month `m`. */
  function DaysBeforeMonth(y: int, m: nat): nat
  {
    var leap := if IsLeapYear(y) then 1 else 0;
    if m <= 1 then 0
    else if m == 2 then 31
    else if m == 3 then 59 + leap
    else if m == 4 then 90 + leap
    else if m == 5 then 120 + leap
    else if m == 6 then 151 + leap
    else if m == 7 then 181 + leap
    else if m == 8 then 212 + leap
    else if m == 9 then 243 + leap
    else if m == 10 then 273 + leap
    else if m == 11 then 304 + leap
    else 334 + leap
  }

  /**
   * The month ordinal of a date, `year * 12 + month - 1`.  It stands for a
   * month label such as "May 2025": two dates get the same label exactly
   * when they get the same month ordinal.
   */
  function MonthOrd(d: Date): int
  {
    d.year * 12 + d.month - 1
  }

  /** The day ordinal of a date: days since 0000-01-01. */
  function Ordinal(d: Date): int
  {
    DaysBeforeYear(d.year) + DaysBeforeMonth(d.year, d.month) + d.day - 1
  }

  /** The first day of the month with month ordinal `m`. */
  function FirstOfMonth(m: int): (d: Date)
    ensures Valid(d) && MonthOrd(d) == m && d.day == 1
  {
    Date(m / 12, m % 12 + 1, 1)
  }

  /** The first day of the month of `d` (date-fns `startOfMonth`). */
  function StartOfMonth(d: Date): (r: Date)
    ensures MonthOrd(r) == MonthOrd(d) && r.day == 1
  {
    Date(d.year, d.month, 1)
  }

  /** The last day of the month of `d` (date-fns `endOfMonth`, at day resolution). */
  function EndOfMonth(d: Date): (r: Date)
    ensures MonthOrd(r) == MonthOrd(d) && r.day == DaysInMonth(d.year, d.month)
  {
    Date(d.year, d.month, DaysInMonth(d.year, d.month))
  }

  /** The weekday of a day ordinal, 0 for Sunday up to 6 for Saturday (`Date.getDay`). */
  function Weekday(n: int): (w: nat)
    ensures w < 7
  {
    (n + 6) % 7
  }

  /** A year is followed by the next after exactly its number of days. */
  lemma YearStep(y: int)
    ensures DaysBeforeYear(y + 1) == DaysBeforeYear(y) + DaysInYear(y)
  {
    assert (y + 4) / 4 - (y + 3) / 4 == if y % 4 == 0 then 1 else 0;
    assert (y + 100) / 100 - (y + 99) / 100 == if y % 100 == 0 then 1 else 0;
    assert (y + 400) / 400 - (y + 399) / 400 == if y % 400 == 0 then 1 else 0;
  }

  /** Later years start later. */
  lemma {:induction false} YearMonotone(y: int, z: int)
    requires y < z
    ensures DaysBeforeYear(y) + DaysInYear(y) <= DaysBeforeYear(z)
    decreases z - y
  {
    YearStep(y);
    if y + 1 < z {
      YearMonotone(y + 1, z);
    }
  }

  /** A month ends no later than any later month of the same year starts, and within its year. */
  lemma MonthBounds(y: int, m: nat, n: nat)
    requires 1 <= m <= 12
    ensures DaysBeforeMonth(y, m) + DaysInMonth(y, m) <= DaysInYear(y)
    ensures m < n <= 12 ==> DaysBeforeMonth(y, m) + DaysInMonth(y, m) <= DaysBeforeMonth(y, n)
  {
  }

  /**
   * Day ordinals order valid dates as the calendar does: month by month,
   * and by day within a month.
   */
  lemma OrdinalOrder(a: Date, b: Date)
    requires Valid(a) && Valid(b)
    ensures MonthOrd(a) < MonthOrd(b) ==> Ordinal(a) < Ordinal(b)
    ensures MonthOrd(a) == MonthOrd(b) ==> Ordinal(b) - Ordinal(a) == b.day - a.day
  {
    if a.year < b.year {
      MonthBounds(a.year, a.month, 13);
      YearMonotone(a.year, b.year);
    } else if a.year == b.year {
      MonthBounds(a.year, a.month, b.month);
    }
  }

  /** Two valid dates with the same ordinal are the same date. */
  lemma OrdinalInjective(a: Date, b: Date)
    requires Valid(a) && Valid(b) && Ordinal(a) == Ordinal(b)
    ensures a == b
  {
    OrdinalOrder(a, b);
    OrdinalOrder(b, a);
    assert MonthOrd(a) == MonthOrd(b);
    assert a.year == b.year && a.month == b.month;
  }

  /**
   * A valid date lies between the start and the end of the month of `now`
   * exactly when it has the same month and year as `now`.
   */
  lemma InMonthIff(d: Date, now: Date)
    requires Valid(d) && Valid(now)
    ensures (Ordinal(StartOfMonth(now)) <= Ordinal(d) <= Ordinal(EndOfMonth(now)))
        <==> (d.year == now.year && d.month == now.month)
  {
    var s, e := StartOfMonth(now), EndOfMonth(now);
    assert Valid(s) && Valid(e);
    OrdinalOrder(d, s);
    OrdinalOrder(s, d);
    OrdinalOrder(d, e);
    OrdinalOrder(e, d);
    assert MonthOrd(d) == MonthOrd(now) <==> d.year == now.year && d.month == now.month;
  }
}
