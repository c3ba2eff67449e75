/**
 * Day numbers and calendar dates as section 21.4.1 of ECMA-262 relates them, and the way
 * `Date.UTC` (section 21.4.3.4) turns year, month and day, possibly out of range, into a day number.
 */
module EcmaCalendar {

  const MS_PER_DAY := 86_400_000

  /** Months are counted from 0, days of the month from 1. */
  datatype Civil = Civil(year: int, month: int, day: int)

  predicate IsLeap(y: int) { y % 4 == 0 && (y % 100 != 0 || y % 400 == 0) }

  function DaysInYear(y: int): int { if IsLeap(y) then 366 else 365 }

  /** The day number of 1 January. */
  function DayFromYear(y: int): int {
    365 * (y - 1970) + (y - 1969) / 4 - (y - 1901) / 100 + (y - 1601) / 400
  }

  lemma Quotients(n: int)
    ensures (n + 1) / 4 == n / 4 + (if (n + 1) % 4 == 0 then 1 else 0)
    ensures (n + 1) / 100 == n / 100 + (if (n + 1) % 100 == 0 then 1 else 0)
    ensures (n + 1) / 400 == n / 400 + (if (n + 1) % 400 == 0 then 1 else 0)
  {
  }

  lemma Remainders(y: int)
    ensures (y - 1968) % 4 == y % 4
    ensures (y - 1900) % 100 == y % 100
    ensures (y - 1600) % 400 == y % 400
  {
    assert (y - 1968) % 4 == y % 4;
    assert (y - 1900) % 100 == y % 100 by { assert y - 1900 == y + 100 * -19; }
    assert (y - 1600) % 400 == y % 400 by { assert y - 1600 == y + 400 * -4; }
  }

  /** Which of the three rules for leap years adds a day in year `y`. */
  lemma LeapDays(y: int)
    ensures (y - 1968) / 4 == (y - 1969) / 4 + (if y % 4 == 0 then 1 else 0)
    ensures (y - 1900) / 100 == (y - 1901) / 100 + (if y % 100 == 0 then 1 else 0)
    ensures (y - 1600) / 400 == (y - 1601) / 400 + (if y % 400 == 0 then 1 else 0)
  {
    Remainders(y);
    Quotients(y - 1969);
    Quotients(y - 1901);
    Quotients(y - 1601);
  }

  lemma YearLength(y: int)
    ensures DayFromYear(y + 1) == DayFromYear(y) + DaysInYear(y)
  {
    LeapDays(y);
    Multiples(y);
  }

  lemma Multiples(y: int)
    ensures y % 400 == 0 ==> y % 100 == 0
    ensures y % 100 == 0 ==> y % 4 == 0
  {
  }

  lemma {:induction false} LaterYearsStartLater(a: int, b: int)
    requires a <= b
    ensures DayFromYear(a) + 365 * (b - a) <= DayFromYear(b)
    decreases b - a
  {
    if a < b {
      LaterYearsStartLater(a, b - 1);
      YearLength(b - 1);
    }
  }

  function YearAtMost(day: int, y: int): (r: int)
    ensures DayFromYear(r) <= day
    decreases if DayFromYear(y) <= day then 0 else DayFromYear(y) - day
  {
    if DayFromYear(y) <= day then y
    else (YearLength(y - 1); YearAtMost(day, y - 1))
  }

  function YearFrom(day: int, y: int): (r: int)
    requires DayFromYear(y) <= day
    ensures DayFromYear(r) <= day < DayFromYear(r + 1)
    decreases day - DayFromYear(y)
  {
    if day < DayFromYear(y + 1) then y
    else (YearLength(y); YearFrom(day, y + 1))
  }

  /** The largest year that does not start after the day. */
  function YearOf(day: int): (r: int)
    ensures DayFromYear(r) <= day < DayFromYear(r + 1)
  {
    YearFrom(day, YearAtMost(day, 1970 + day / 366))
  }

  lemma OneYearPerDay(day: int, y: int, r: int)
    requires DayFromYear(y) <= day < DayFromYear(y + 1)
    requires DayFromYear(r) <= day < DayFromYear(r + 1)
    ensures y == r
  {
    if r < y { LaterYearsStartLater(r + 1, y); }
    if y < r { LaterYearsStartLater(y + 1, r); }
  }

  lemma YearOfIsUnique(day: int, y: int)
    requires DayFromYear(y) <= day < DayFromYear(y + 1)
    ensures YearOf(day) == y
  {
    OneYearPerDay(day, y, YearOf(day));
  }

  /** The day of the year on which a month starts; month 12 is the end of the year. */
  function MonthStart(month: int, leap: bool): int
    requires 0 <= month <= 12
  {
    [0, 31, 59, 90, 120, 151, 181, 212, 243, 273, 304, 334, 365][month] + (if leap && month >= 2 then 1 else 0)
  }

  function DaysInMonth(y: int, month: int): int
    requires 0 <= month < 12
  {
    MonthStart(month + 1, IsLeap(y)) - MonthStart(month, IsLeap(y))
  }

  function MonthFrom(dayInYear: int, leap: bool, month: int): (r: int)
    requires 0 <= month < 12 && MonthStart(month, leap) <= dayInYear < MonthStart(12, leap)
    ensures 0 <= r < 12 && MonthStart(r, leap) <= dayInYear < MonthStart(r + 1, leap)
    decreases 12 - month
  {
    if dayInYear < MonthStart(month + 1, leap) then month else MonthFrom(dayInYear, leap, month + 1)
  }

  function DateInYear(y: int, dayInYear: int): (c: Civil)
    requires 0 <= dayInYear < DaysInYear(y)
    ensures IsDate(c) && c.year == y
  {
    var m := MonthFrom(dayInYear, IsLeap(y), 0);
    Civil(y, m, dayInYear - MonthStart(m, IsLeap(y)) + 1)
  }

  /** How many days of its year have passed before the day. */
  function DayInYear(day: int): (r: int)
    ensures 0 <= r < DaysInYear(YearOf(day))
  {
    hide DayFromYear, DaysInYear;
    YearLength(YearOf(day));
    day - DayFromYear(YearOf(day))
  }

  /** The calendar date of a day number. */
  function FromDay(day: int): (c: Civil)
    ensures IsDate(c)
  {
    DateInYear(YearOf(day), DayInYear(day))
  }

  predicate IsDate(c: Civil) {
    0 <= c.month < 12 && 1 <= c.day <= DaysInMonth(c.year, c.month)
  }

  /** `MakeDay`: months outside 0..11 carry into the year, days outside the month into its neighbours. */
  function MakeDay(y: int, month: int, day: int): int {
    var year := y + month / 12;
    DayFromYear(year) + MonthStart(month % 12, IsLeap(year)) + day - 1
  }

  /** `Date.UTC` takes the years 0 to 99 for years of the twentieth century. */
  function FullYear(y: int): int { if 0 <= y <= 99 then 1900 + y else y }

  function UtcDay(y: int, month: int, day: int): int { MakeDay(FullYear(y), month, day) }

  function ToDay(c: Civil): int { MakeDay(c.year, c.month, c.day) }

  lemma DatesFallIntoTheirYear(c: Civil)
    requires IsDate(c)
    ensures ToDay(c) == DayFromYear(c.year) + MonthStart(c.month, IsLeap(c.year)) + c.day - 1
    ensures DayFromYear(c.year) <= ToDay(c) < DayFromYear(c.year + 1)
  {
    assert c.month / 12 == 0 && c.month % 12 == c.month;
    YearLength(c.year);
  }

  lemma DateInYearIsFound(c: Civil)
    requires IsDate(c)
    ensures var dayInYear := MonthStart(c.month, IsLeap(c.year)) + c.day - 1;
      0 <= dayInYear < DaysInYear(c.year) && DateInYear(c.year, dayInYear) == c
  {
    var dayInYear := MonthStart(c.month, IsLeap(c.year)) + c.day - 1;
    MonthIsUnique(dayInYear, IsLeap(c.year), c.month);
    assert DaysInYear(c.year) == MonthStart(12, IsLeap(c.year));
  }

  /** A date is found again from its day number. */
  lemma FromDayOfDate(c: Civil)
    requires IsDate(c)
    ensures FromDay(ToDay(c)) == c
  {
    hide DayFromYear, IsDate, YearOf, DateInYear;
    DatesFallIntoTheirYear(c);
    YearOfIsUnique(ToDay(c), c.year);
    DateInYearIsFound(c);
  }

  lemma MonthsStartInOrder(i: int, j: int, leap: bool)
    requires 0 <= i <= 12 && 0 <= j <= 12
    ensures i < j ==> MonthStart(i + 1, leap) <= MonthStart(j, leap)
    ensures i <= j ==> MonthStart(i, leap) <= MonthStart(j, leap)
  {
  }

  lemma MonthIsUnique(dayInYear: int, leap: bool, month: int)
    requires 0 <= month < 12 && MonthStart(month, leap) <= dayInYear < MonthStart(month + 1, leap)
    ensures 0 <= dayInYear < MonthStart(12, leap) && MonthFrom(dayInYear, leap, 0) == month
  {
    hide MonthFrom;
    assert MonthStart(0, leap) == 0;
    MonthsStartInOrder(0, month + 1, leap);
    MonthsStartInOrder(month, 12, leap);
    var r := MonthFrom(dayInYear, leap, 0);
    MonthsStartInOrder(r, month, leap);
    MonthsStartInOrder(month, r, leap);
  }

  lemma ToDayOfFromDay(day: int)
    ensures ToDay(FromDay(day)) == day
  {
    DatesFallIntoTheirYear(FromDay(day));
  }

  predicate Precedes(a: Civil, b: Civil) {
    a.year < b.year || (a.year == b.year && (a.month < b.month || (a.month == b.month && a.day <= b.day)))
  }

  lemma DayOrderInYear(a: Civil, b: Civil)
    requires IsDate(a) && IsDate(b) && a.year == b.year
    ensures MonthStart(a.month, IsLeap(a.year)) + a.day <= MonthStart(b.month, IsLeap(a.year)) + b.day <==> Precedes(a, b)
  {
    MonthsStartInOrder(a.month, b.month, IsLeap(a.year));
    MonthsStartInOrder(b.month, a.month, IsLeap(a.year));
  }

  lemma EarlierYearsComeFirst(a: Civil, b: Civil)
    requires IsDate(a) && IsDate(b) && a.year < b.year
    ensures ToDay(a) < ToDay(b)
  {
    hide DayFromYear, ToDay, IsDate;
    var nextYear, thatYear := DayFromYear(a.year + 1), DayFromYear(b.year);
    assert ToDay(a) < nextYear by { DatesFallIntoTheirYear(a); }
    assert thatYear <= ToDay(b) by { DatesFallIntoTheirYear(b); }
    assert nextYear <= thatYear by { LaterYearsStartLater(a.year + 1, b.year); }
  }

  /** Day numbers order dates as year, month and day do. */
  lemma DayOrder(a: Civil, b: Civil)
    requires IsDate(a) && IsDate(b)
    ensures ToDay(a) <= ToDay(b) <==> Precedes(a, b)
  {
    if a.year < b.year {
      EarlierYearsComeFirst(a, b);
    } else if b.year < a.year {
      EarlierYearsComeFirst(b, a);
    } else {
      DatesFallIntoTheirYear(a);
      DatesFallIntoTheirYear(b);
      DayOrderInYear(a, b);
    }
  }

  /** Day 0 of the next month is the last day of this one, across the end of the year too. */
  lemma DayZeroOfNextMonth(y: int, month: int)
    requires 0 <= month < 12
    ensures FromDay(MakeDay(y, month + 1, 0)) == Civil(y, month, DaysInMonth(y, month))
  {
    hide MakeDay, DaysInMonth, IsDate, FromDay;
    LastDayOfMonth(y, month);
    FromDayOfDate(Civil(y, month, DaysInMonth(y, month)));
  }

  lemma LastDayOfMonth(y: int, month: int)
    requires 0 <= month < 12
    ensures var last := Civil(y, month, DaysInMonth(y, month)); IsDate(last) && MakeDay(y, month + 1, 0) == ToDay(last)
  {
    hide DayFromYear;
    if month == 11 {
      YearLength(y);
      assert (month + 1) / 12 == 1 && (month + 1) % 12 == 0;
    } else {
      assert (month + 1) / 12 == 0 && (month + 1) % 12 == month + 1;
    }
    assert month / 12 == 0 && month % 12 == month;
  }

  /** Exactly the real dates survive the overflow arithmetic unchanged. */
  lemma OverflowChangesExactlyUnrealDates(c: Civil)
    ensures FromDay(ToDay(c)) == c <==> IsDate(c)
  {
    if IsDate(c) { FromDayOfDate(c); }
  }

  // ----- the calendar, counted day by day

  function MonthLength(y: int, month: int): int {
    if month == 1 then if y % 4 == 0 && (y % 100 != 0 || y % 400 == 0) then 29 else 28
    else if month in {3, 5, 8, 10} then 30
    else 31
  }

  function DayAfter(c: Civil): Civil {
    if c.day < MonthLength(c.year, c.month) then Civil(c.year, c.month, c.day + 1)
    else if c.month < 11 then Civil(c.year, c.month + 1, 1)
    else Civil(c.year + 1, 0, 1)
  }

  function DayBefore(c: Civil): Civil {
    if c.day > 1 then Civil(c.year, c.month, c.day - 1)
    else if c.month > 0 then Civil(c.year, c.month - 1, MonthLength(c.year, c.month - 1))
    else Civil(c.year - 1, 11, 31)
  }

  /** The date so many days after 1 January 1970, or before it. */
  function Counted(days: int): Civil
    decreases if days < 0 then -days else days
  {
    if days == 0 then Civil(1970, 0, 1)
    else if days > 0 then DayAfter(Counted(days - 1))
    else DayBefore(Counted(days + 1))
  }

  lemma MonthsHaveTheirLength(y: int, month: int)
    requires 0 <= month < 12
    ensures DaysInMonth(y, month) == MonthLength(y, month)
  {
  }

  lemma DayAfterIsNext(c: Civil)
    requires IsDate(c)
    ensures IsDate(DayAfter(c)) && ToDay(DayAfter(c)) == ToDay(c) + 1 && DayBefore(DayAfter(c)) == c
  {
    hide DayFromYear, ToDay, MonthStart;
    var next := DayAfter(c);
    MonthsHaveTheirLength(c.year, c.month);
    if c.month < 11 { MonthsHaveTheirLength(c.year, c.month + 1); }
    MonthsHaveTheirLength(c.year + 1, 0);
    DatesFallIntoTheirYear(c);
    DatesFallIntoTheirYear(next);
    YearLength(c.year);
    YearsStartAndEnd(c.year);
    YearsStartAndEnd(c.year + 1);
  }

  lemma YearsStartAndEnd(y: int)
    ensures MonthStart(0, IsLeap(y)) == 0 && MonthStart(12, IsLeap(y)) == DaysInYear(y)
  {
  }

  /** Day 0 is 1 January 1970. */
  lemma DayZero()
    ensures FromDay(0) == Civil(1970, 0, 1)
  {
    var epoch := Civil(1970, 0, 1);
    assert IsDate(epoch) && ToDay(epoch) == 0;
    FromDayOfDate(epoch);
  }

  lemma NextDay(day: int)
    ensures FromDay(day + 1) == DayAfter(FromDay(day)) && FromDay(day) == DayBefore(FromDay(day + 1))
  {
    hide FromDay, ToDay, IsDate, DayAfter, DayBefore;
    ToDayOfFromDay(day);
    DayAfterIsNext(FromDay(day));
    FromDayOfDate(DayAfter(FromDay(day)));
  }

  /** The date of a day number is the one that counting the days of the calendar leads to, forwards or backwards. */
  lemma {:induction false} FromDayCounts(day: int)
    ensures FromDay(day) == Counted(day)
    decreases if day < 0 then -day else day
  {
    hide FromDay, DayAfter, DayBefore;
    if day == 0 {
      DayZero();
    } else if day > 0 {
      FromDayCounts(day - 1);
      NextDay(day - 1);
    } else {
      FromDayCounts(day + 1);
      NextDay(day);
    }
  }
}
