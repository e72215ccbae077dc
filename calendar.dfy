/**
 * The proleptic Gregorian calendar as the dashboard's date library sees it,
 * reduced to whole days: a calendar date, its day number (days since
 * 1970-01-01), its weekday (`getDay`, 0 = Sunday) and the day and month
 * stepping that `addDays`, `eachDayOfInterval` and `new Date(y, m ± 1, 1)`
 * perform.  Months are numbered 1..12 here; JavaScript's `getMonth` is
 * `month - 1`.
 */
module Calendar {

  datatype Date = Date(year: int, month: int, day: int)

  predicate IsLeapYear(y: int)
  {
    (y % 4 == 0 && y % 100 != 0) || y % 400 == 0
  }

  function DaysInMonth(y: int, m: int): (n: int)
    requires 1 <= m <= 12
    ensures 28 <= n <= 31
  {
    if m == 2 then (if IsLeapYear(y) then 29 else 28)
    else if m == 4 || m == 6 || m == 9 || m == 11 then 30
    else 31
  }

  function YearLength(y: int): (n: int)
    ensures n == 365 || n == 366
  {
    if IsLeapYear(y) then 366 else 365
  }

  /** A date that names a real calendar day. */
  predicate Valid(d: Date)
  {
    1 <= d.month <= 12 && 1 <= d.day <= DaysInMonth(d.year, d.month)
  }

  /** Days in the months of year `y` before month `m`. */
  function DaysBeforeMonth(y: int, m: int): (n: int)
    requires 1 <= m <= 13
    ensures n >= 0
  {
    if m == 1 then 0 else DaysBeforeMonth(y, m - 1) + DaysInMonth(y, m - 1)
  }

  /** The twelve months make up the year. */
  lemma MonthsMakeYear(y: int)
    ensures DaysBeforeMonth(y, 13) == YearLength(y)
  {
    var feb := DaysInMonth(y, 2);
    assert DaysBeforeMonth(y, 2) == 31;
    assert DaysBeforeMonth(y, 3) == 31 + feb;
    assert DaysBeforeMonth(y, 5) == 31 + feb + 31 + 30;
    assert DaysBeforeMonth(y, 7) == 31 + feb + 122;
    assert DaysBeforeMonth(y, 9) == 31 + feb + 184;
    assert DaysBeforeMonth(y, 11) == 31 + feb + 245;
  }

  /** Days from 1970-01-01 to the first of January of `y` (negative before 1970). */
  function DaysBeforeYear(y: int): int
    decreases if y >= 1970 then y - 1970 else 1970 - y
  {
    if y == 1970 then 0
    else if y > 1970 then DaysBeforeYear(y - 1) + YearLength(y - 1)
    else DaysBeforeYear(y + 1) - YearLength(y)
  }

  lemma NextYear(y: int)
    ensures DaysBeforeYear(y + 1) == DaysBeforeYear(y) + YearLength(y)
  {
  }

  /** Days since 1970-01-01: the whole-day part of a timestamp. */
  function DayNumber(d: Date): int
    requires Valid(d)
  {
    DaysBeforeYear(d.year) + DaysBeforeMonth(d.year, d.month) + d.day - 1
  }

  /** `getDay()`: 1970-01-01 was a Thursday. */
  function Weekday(n: int): (w: int)
    ensures 0 <= w < 7
    ensures (w - n - 4) % 7 == 0
  {
    (n + 4) % 7
  }

  /** The weekday repeats every seven days. */
  lemma WeekdayPeriodic(n: int, k: int)
    ensures Weekday(n + 7 * k) == Weekday(n)
  {
  }

  function WeekdayOf(d: Date): (w: int)
    requires Valid(d)
    ensures 0 <= w < 7
  {
    Weekday(DayNumber(d))
  }

  /** The calendar day after `d`. */
  function NextDay(d: Date): (r: Date)
    requires Valid(d)
    ensures Valid(r)
    ensures DayNumber(r) == DayNumber(d) + 1
  {
    if d.day < DaysInMonth(d.year, d.month) then Date(d.year, d.month, d.day + 1)
    else if d.month < 12 then Date(d.year, d.month + 1, 1)
    else
      assert DayNumber(Date(d.year + 1, 1, 1)) == DayNumber(d) + 1 by {
        NextYear(d.year);
        MonthsMakeYear(d.year);
        assert DaysBeforeMonth(d.year, 13) == DaysBeforeMonth(d.year, 12) + 31;
      }
      Date(d.year + 1, 1, 1)
  }

  /** `addDays(d, n)` for a non-negative `n`. */
  function AddDays(d: Date, n: nat): (r: Date)
    requires Valid(d)
    ensures Valid(r)
    ensures DayNumber(r) == DayNumber(d) + n
  {
    if n == 0 then d else NextDay(AddDays(d, n - 1))
  }

  /** Two valid dates are the same day exactly when their day numbers agree. */
  lemma {:induction false} DayNumberInjective(a: Date, b: Date)
    requires Valid(a) && Valid(b)
    ensures DayNumber(a) == DayNumber(b) <==> a == b
  {
    if a != b && DayNumber(a) == DayNumber(b) {
      if DayNumber(a) == DayNumber(b) && Before(a, b) {
        BeforeMeansEarlier(a, b);
      } else {
        assert Before(b, a);
        BeforeMeansEarlier(b, a);
      }
    }
  }

  /** Lexicographic order on (year, month, day): the order of `Date` objects at midnight. */
  predicate Before(a: Date, b: Date)
  {
    a.year < b.year
    || (a.year == b.year && a.month < b.month)
    || (a.year == b.year && a.month == b.month && a.day < b.day)
  }

  predicate AtOrAfter(a: Date, b: Date)
  {
    !Before(a, b)
  }

  /** The day number grows strictly with the calendar order. */
  lemma BeforeMeansEarlier(a: Date, b: Date)
    requires Valid(a) && Valid(b) && Before(a, b)
    ensures DayNumber(a) < DayNumber(b)
  {
    if a.year < b.year {
      YearsApart(a.year, b.year);
      MonthBound(a.year, a.month);
    } else if a.month < b.month {
      MonthsApart(a.year, a.month, b.month);
    }
  }

  lemma {:induction false} MonthBound(y: int, m: int)
    requires 1 <= m <= 12
    ensures DaysBeforeMonth(y, m) + DaysInMonth(y, m) <= YearLength(y)
  {
    MonthsApart(y, m + 1, 13);
    MonthsMakeYear(y);
  }

  lemma {:induction false} MonthsApart(y: int, m1: int, m2: int)
    requires 1 <= m1 <= m2 <= 13
    ensures DaysBeforeMonth(y, m1) + (if m1 < m2 then DaysInMonth(y, m1) else 0) <= DaysBeforeMonth(y, m2)
    decreases m2 - m1
  {
    if m1 + 1 < m2 {
      MonthsApart(y, m1 + 1, m2);
    }
  }

  lemma {:induction false} YearsApart(y1: int, y2: int)
    requires y1 < y2
    ensures DaysBeforeYear(y1) + YearLength(y1) <= DaysBeforeYear(y2)
    decreases y2 - y1
  {
    NextYear(y1);
    if y1 + 1 < y2 {
      YearsApart(y1 + 1, y2);
      NextYear(y1 + 1);
    }
  }

  /** Both orders agree: the calendar order is the order of day numbers. */
  lemma OrderAgrees(a: Date, b: Date)
    requires Valid(a) && Valid(b)
    ensures Before(a, b) <==> DayNumber(a) < DayNumber(b)
  {
    if Before(a, b) {
      BeforeMeansEarlier(a, b);
    } else if Before(b, a) {
      BeforeMeansEarlier(b, a);
    }
  }

  /** `new Date(y, m - 1 - 1, 1)`: the first of the month before `d`'s month. */
  function PreviousMonthStart(d: Date): (r: Date)
    requires Valid(d)
    ensures Valid(r) && r.day == 1
    ensures d.month > 1 ==> r.year == d.year && r.month == d.month - 1
    ensures d.month == 1 ==> r.year == d.year - 1 && r.month == 12
  {
    if d.month == 1 then Date(d.year - 1, 12, 1) else Date(d.year, d.month - 1, 1)
  }

  /** `new Date(y, m - 1 + 1, 1)`: the first of the month after `d`'s month. */
  function NextMonthStart(d: Date): (r: Date)
    requires Valid(d)
    ensures Valid(r) && r.day == 1
    ensures d.month < 12 ==> r.year == d.year && r.month == d.month + 1
    ensures d.month == 12 ==> r.year == d.year + 1 && r.month == 1
  {
    if d.month == 12 then Date(d.year + 1, 1, 1) else Date(d.year, d.month + 1, 1)
  }

  /** Going back a month and then forward lands on the first of the month one started in. */
  lemma NextAfterPrevious(d: Date)
    requires Valid(d)
    ensures NextMonthStart(PreviousMonthStart(d)) == Date(d.year, d.month, 1)
  {
  }

  lemma PreviousAfterNext(d: Date)
    requires Valid(d)
    ensures PreviousMonthStart(NextMonthStart(d)) == Date(d.year, d.month, 1)
  {
  }

  /**
   * `eachDayOfInterval({ start: startOfMonth(d), end: endOfMonth(d) })`:
   * the days of `d`'s month from the first onwards.
   */
  function MonthDays(d: Date): (r: seq<Date>)
    requires Valid(d)
    ensures |r| == DaysInMonth(d.year, d.month)
    ensures forall i :: 0 <= i < |r| ==> r[i] == Date(d.year, d.month, i + 1)
  {
    DaysUpTo(d.year, d.month, DaysInMonth(d.year, d.month))
  }

  function DaysUpTo(y: int, m: int, n: nat): (r: seq<Date>)
    ensures |r| == n
    ensures forall i :: 0 <= i < n ==> r[i] == Date(y, m, i + 1)
  {
    if n == 0 then [] else DaysUpTo(y, m, n - 1) + [Date(y, m, n)]
  }

  /** Consecutive grid cells are consecutive days, so the grid runs in order from start to end. */
  lemma MonthDaysConsecutive(d: Date)
    requires Valid(d)
    ensures var r := MonthDays(d);
      r[0] == Date(d.year, d.month, 1)
      && r[|r| - 1] == Date(d.year, d.month, DaysInMonth(d.year, d.month))
      && forall i :: 0 <= i < |r| - 1 ==> Valid(r[i]) && NextDay(r[i]) == r[i + 1]
  {
  }
}
