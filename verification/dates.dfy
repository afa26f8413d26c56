/** Calendar dates as plain (year, month, day) values in the proleptic
    Gregorian calendar that JavaScript's `Date` uses. Months are numbered
    1..12 here; `Date`'s own month index is this number minus one. */
module Dates {

  datatype Date = Date(year: int, month: int, day: int)

  predicate IsLeapYear(y: int)
  {
    y % 4 == 0 && (y % 100 != 0 || y % 400 == 0)
  }

  /** The length of month `m` of year `y` (`new Date(y, m, 0).getDate()`). */
  function DaysInMonth(y: int, m: int): (r: int)
    requires 1 <= m <= 12
    ensures 28 <= r <= 31
    ensures m == 2 ==> (r == 29 <==> IsLeapYear(y)) && (r == 28 <==> !IsLeapYear(y))
    ensures m in {4, 6, 9, 11} <==> r == 30
    ensures m in {1, 3, 5, 7, 8, 10, 12} <==> r == 31
  {
    if m == 2 then (if IsLeapYear(y) then 29 else 28)
    else if m in {4, 6, 9, 11} then 30
    else 31
  }

  predicate Valid(d: Date)
  {
    1 <= d.month <= 12 && 1 <= d.day <= DaysInMonth(d.year, d.month)
  }

  /** Offsets of Sakamoto's day-of-week method, one per month. */
  function MonthOffset(m: int): int
    requires 1 <= m <= 12
  {
    [0, 3, 2, 5, 0, 3, 5, 1, 4, 6, 2, 4][m - 1]
  }

  /** Leap days counted up to the end of year `y` (shifted by a constant). */
  function YearTerm(y: int): int
  {
    y + y / 4 - y / 100 + y / 400
  }

  /** The weekday of a date of the proleptic Gregorian calendar, as
      `new Date(y, m - 1, d).getDay()` gives it for years of 100 and later:
      0 is Sunday, 6 is Saturday. (`new Date` reads a year of 0..99 as
      1900 + y, which this function does not do.) */
  function DayOfWeek(y: int, m: int, d: int): (r: int)
    requires 1 <= m <= 12
    ensures 0 <= r < 7
  {
    var y' := if m < 3 then y - 1 else y;
    (YearTerm(y') + MonthOffset(m) + d) % 7
  }

  /** Within one month, each day falls on the weekday after the previous one. */
  lemma DayOfWeekNextDay(y: int, m: int, d: int)
    requires 1 <= m <= 12
    ensures DayOfWeek(y, m, d + 1) == (DayOfWeek(y, m, d) + 1) % 7
  {
  }

  /** One more year adds one weekday, two in a leap year. */
  lemma YearTermStep(y: int)
    ensures YearTerm(y) - YearTerm(y - 1) == if IsLeapYear(y) then 2 else 1
  {
    assert y / 4 - (y - 1) / 4 == if y % 4 == 0 then 1 else 0;
    assert y / 100 - (y - 1) / 100 == if y % 100 == 0 then 1 else 0;
    assert y / 400 - (y - 1) / 400 == if y % 400 == 0 then 1 else 0;
    if y % 400 == 0 {
      assert y % 100 == 0 && y % 4 == 0;
    } else if y % 100 == 0 {
      assert y % 4 == 0;
    }
  }

  /** The day-of-week function agrees with the month lengths: the first of
      the next month falls on the weekday after the last day of this one. */
  lemma FirstOfNextMonth(y: int, m: int)
    requires 1 <= m <= 12
    ensures var (ny, nm) := NextMonth(y, m);
      DayOfWeek(ny, nm, 1) == (DayOfWeek(y, m, 1) + DaysInMonth(y, m)) % 7
  {
    var (ny, nm) := NextMonth(y, m);
    var x := YearTerm(if m < 3 then y - 1 else y) + MonthOffset(m) + 1;
    var x' := YearTerm(if nm < 3 then ny - 1 else ny) + MonthOffset(nm) + 1;
    if m == 2 {
      YearTermStep(y);
    }
    assert x' - (x + DaysInMonth(y, m)) in {-28, -35};
    ShiftBySevens(x + DaysInMonth(y, m), x' - (x + DaysInMonth(y, m)));
    AddUnderMod(x, DaysInMonth(y, m));
  }

  lemma ShiftBySevens(a: int, k: int)
    requires k in {-28, -35}
    ensures (a + k) % 7 == a % 7
  {
  }

  lemma AddUnderMod(a: int, k: int)
    ensures (a % 7 + k) % 7 == (a + k) % 7
  {
  }

  /** Month stepping with year rollover, as `new Date(y, m + 1, 1)` does. */
  function NextMonth(y: int, m: int): (r: (int, int))
    requires 1 <= m <= 12
    ensures 1 <= r.1 <= 12
    ensures m < 12 ==> r == (y, m + 1)
    ensures m == 12 ==> r == (y + 1, 1)
  {
    if m == 12 then (y + 1, 1) else (y, m + 1)
  }

  /** Month stepping backwards, as `new Date(y, m - 1, 1)` does. */
  function PrevMonth(y: int, m: int): (r: (int, int))
    requires 1 <= m <= 12
    ensures 1 <= r.1 <= 12
    ensures m > 1 ==> r == (y, m - 1)
    ensures m == 1 ==> r == (y - 1, 12)
  {
    if m == 1 then (y - 1, 12) else (y, m - 1)
  }

  /** Stepping forward then back (or back then forward) is the identity. */
  lemma MonthStepsInverse(y: int, m: int)
    requires 1 <= m <= 12
    ensures PrevMonth(NextMonth(y, m).0, NextMonth(y, m).1) == (y, m)
    ensures NextMonth(PrevMonth(y, m).0, PrevMonth(y, m).1) == (y, m)
  {
  }
}
