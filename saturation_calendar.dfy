/**
 * The "Calendario de saturación": a month grid whose cells count the
 * catalogue events of each day (by `dateISO`) and colour the day by that
 * count, and two buttons that move the shown month back and forth.  The
 * shown date is the component's only state, kept in a `MonthView` object.
 */
module SaturationCalendar {
  import opened Calendar
  import opened Catalog

  datatype Saturation = Empty | Low | Medium | High

  /** `getSaturationLevel`: none for 0, low up to 2, medium up to 4, high above. */
  function SaturationOf(count: nat): (s: Saturation)
    ensures s == Empty <==> count == 0
    ensures s == Low <==> 1 <= count <= 2
    ensures s == Medium <==> 3 <= count <= 4
    ensures s == High <==> count >= 5
  {
    if count == 0 then Empty else if count <= 2 then Low else if count <= 4 then Medium else High
  }

  function Rank(s: Saturation): nat
  {
    match s
    case Empty => 0
    case Low => 1
    case Medium => 2
    case High => 3
  }

  /** More events never show a lighter colour. */
  lemma SaturationMonotone(a: nat, b: nat)
    requires a <= b
    ensures Rank(SaturationOf(a)) <= Rank(SaturationOf(b))
  {
  }

  /** One day of the grid. */
  datatype Cell = Cell(day: Date, events: seq<Event>, saturation: Saturation, isToday: bool)

  /** The cell of `day`: the events whose `dateISO` falls on it and their saturation. */
  function CellOf(events: seq<Event>, day: Date, today: Date): (c: Cell)
    ensures c.day == day
    ensures forall e :: e in c.events <==> e in events && OnDay(e.dateISO, day)
    ensures c.saturation == SaturationOf(|c.events|)
    ensures c.isToday <==> day == today
  {
    var onDay := EventsOnDateISO(events, day);
    Cell(day, onDay, SaturationOf(|onDay|), day == today)
  }

  /** The shown month. */
  class MonthView {
    var current: Date

    ghost predicate Shown()
      reads this
    {
      Valid(current)
    }

    /** `useState(new Date())`. */
    constructor(now: Date)
      requires Valid(now)
      ensures current == now && Shown()
    {
      current := now;
    }

    /** `goToPreviousMonth`: the first of the month before. */
    method PreviousMonth()
      requires Shown()
      modifies this
      ensures current == PreviousMonthStart(old(current))
      ensures Shown()
    {
      current := PreviousMonthStart(current);
    }

    /** `goToNextMonth`: the first of the month after. */
    method NextMonth()
      requires Shown()
      modifies this
      ensures current == NextMonthStart(old(current))
      ensures Shown()
    {
      current := NextMonthStart(current);
    }

    /** `monthStart.getDay()`: the empty cells before the first day. */
    function Blanks(): (b: nat)
      reads this
      requires Shown()
      ensures b <= 6
      ensures b == WeekdayOf(Date(current.year, current.month, 1))
    {
      WeekdayOf(Date(current.year, current.month, 1))
    }

    /** The cells of the shown month, one per day from the first to the last. */
    function Cells(events: seq<Event>, today: Date): (r: seq<Cell>)
      reads this
      requires Shown()
      ensures |r| == DaysInMonth(current.year, current.month)
      ensures forall i :: 0 <= i < |r| ==> r[i] == CellOf(events, Date(current.year, current.month, i + 1), today)
    {
      var days := MonthDays(current);
      seq(|days|, (i: int) requires 0 <= i < |days| => CellOf(events, days[i], today))
    }
  }

  /**
   * The grid fits in six weeks, and the day in position `b + i` (after `b`
   * blanks) sits in the column of its own weekday.
   */
  lemma GridColumns(first: Date)
    requires Valid(first) && first.day == 1
    ensures var b := WeekdayOf(first);
      var days := MonthDays(first);
      b + |days| <= 42
      && forall i :: 0 <= i < |days| ==> Valid(days[i]) && (b + i) % 7 == WeekdayOf(days[i])
  {
    var days := MonthDays(first);
    forall i | 0 <= i < |days|
      ensures Valid(days[i]) && (WeekdayOf(first) + i) % 7 == WeekdayOf(days[i])
    {
      DayColumn(first, i);
    }
  }

  /** Day `i + 1` of the month of `first` sits `i` columns after it. */
  lemma DayColumn(first: Date, i: nat)
    requires Valid(first) && first.day == 1 && i < DaysInMonth(first.year, first.month)
    ensures Valid(Date(first.year, first.month, i + 1))
    ensures (WeekdayOf(first) + i) % 7 == WeekdayOf(Date(first.year, first.month, i + 1))
  {
    var d := Date(first.year, first.month, i + 1);
    assert DayNumber(d) == DayNumber(first) + i;
    SameColumn(DayNumber(first), i);
  }

  /** Moving `i` days from a day with weekday `Weekday(n)` moves `i` columns. */
  lemma SameColumn(n: int, i: int)
    ensures (Weekday(n) + i) % 7 == Weekday(n + i)
  {
    var q := (n + 4) / 7;
    assert Weekday(n) == n + 4 - 7 * q;
    assert Weekday(n) + i == (n + i + 4) + 7 * (-q);
  }

  /** Going back a month and forward again shows the first of the month one started in. */
  method BackAndForth(view: MonthView)
    requires view.Shown()
    modifies view
    ensures view.current == Date(old(view.current.year), old(view.current.month), 1)
    ensures view.Shown()
  {
    view.PreviousMonth();
    view.NextMonth();
    NextAfterPrevious(old(view.current));
  }
}
