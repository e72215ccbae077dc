/**
 * "Cumplimiento publicitario": the table of stations with their planned and
 * detected spots, filtered by the selected country and city and by a
 * period selector (all, last month, last three or six months), and the
 * colour of each station's pacing badge.  The period selector is the
 * component's only state, kept in a `ComplianceView` object.
 *
 * Instants are milliseconds since 1970-01-01.  `now` is a calendar day and
 * the milliseconds elapsed in it; the browser's time zone is taken to be
 * UTC, so a date-only `dateISO` string and `now` are measured alike.
 */
module AdvertisingCompliance {
  import opened Common
  import opened Seqs
  import opened Calendar

  datatype Station = Station(
    name: string,
    plan: nat,
    detected: nat,
    pacing: int,
    delivery: int,
    cpm: string,
    alerts: nat,
    dateISO: Option<Date>,
    country: string,
    city: string)

  /** `allStations`: the seven stations the table is built from. */
  function AllStations(): (r: seq<Station>)
    ensures |r| == 7
    ensures forall i :: 0 <= i < |r| ==> r[i].dateISO.Some? && Valid(r[i].dateISO.value)
  {
    [ Station("FM 99.5", 180, 165, 92, 92, "$45", 0, Some(Date(2025, 10, 1)), "México", "CDMX"),
      Station("Radio Digital", 200, 185, 92, 93, "$38", 0, Some(Date(2025, 9, 15)), "México", "Guadalajara"),
      Station("La Buena", 150, 120, 80, 80, "$42", 2, Some(Date(2025, 9, 1)), "México", "CDMX"),
      Station("Rock & Pop", 190, 175, 92, 92, "$40", 0, Some(Date(2025, 8, 20)), "México", "Monterrey"),
      Station("Urban Beat", 200, 160, 80, 80, "$46", 1, Some(Date(2025, 8, 5)), "Estados Unidos", "Los Angeles"),
      Station("FM Classic", 170, 155, 91, 91, "$43", 0, Some(Date(2025, 7, 15)), "México", "CDMX"),
      Station("Beat Station", 160, 140, 87, 88, "$44", 1, Some(Date(2025, 6, 25)), "Estados Unidos", "Miami") ]
  }

  /** A prop with a default value: the default only when the prop is not passed. */
  function PropOr(prop: Option<string>, default: string): (v: string)
    ensures prop.Some? ==> v == prop.value
    ensures prop.None? ==> v == default
  {
    if prop.Some? then prop.value else default
  }

  const DefaultCountry: string := "México"
  const DefaultCity: string := "CDMX"

  // ---------------------------------------------------------------------
  // Instants and the period cutoff

  const DayMs: nat := 86_400_000

  /** The moment `new Date()` returns: a calendar day and the milliseconds elapsed in it. */
  datatype Now = Now(day: Date, ms: nat)

  predicate ValidNow(now: Now)
  {
    Valid(now.day) && now.ms < DayMs
  }

  function Instant(now: Now): int
    requires ValidNow(now)
  {
    DayNumber(now.day) * DayMs + now.ms
  }

  /**
   * The month `k` months before `d`'s: `setMonth(getMonth() - k)` carries a
   * negative month into the previous years.
   */
  function MonthsBefore(d: Date, k: nat): (r: Date)
    requires Valid(d)
    ensures Valid(r) && r.day == 1
    ensures r.year * 12 + r.month == d.year * 12 + d.month - k
  {
    var m0 := d.month - 1 - k;
    Date(d.year + m0 / 12, m0 % 12 + 1, 1)
  }

  /**
   * `filterDate.setMonth(now.getMonth() - k)` on a copy of `now`: the same
   * day of the month and time of day, `k` months earlier.  A day the
   * earlier month does not have runs on into the month after it.  No month
   * back is `now` itself; one or more always lands strictly before it.
   */
  function Cutoff(now: Now, k: nat): (t: int)
    requires ValidNow(now)
    ensures k == 0 ==> t == Instant(now)
    ensures k >= 1 ==> t < Instant(now)
  {
    var first := MonthsBefore(now.day, k);
    var own := Date(now.day.year, now.day.month, 1);
    assert DayNumber(now.day) == DayNumber(own) + now.day.day - 1;
    if k >= 1 then
      assert Before(first, own);
      BeforeMeansEarlier(first, own);
      (DayNumber(first) + now.day.day - 1) * DayMs + now.ms
    else
      (DayNumber(first) + now.day.day - 1) * DayMs + now.ms
  }

  /** When the earlier month has the day, the cutoff is that day at the same time. */
  lemma CutoffSameDay(now: Now, k: nat)
    requires ValidNow(now)
    requires var m := MonthsBefore(now.day, k); now.day.day <= DaysInMonth(m.year, m.month)
    ensures var m := MonthsBefore(now.day, k);
      Valid(Date(m.year, m.month, now.day.day))
      && Cutoff(now, k) == DayNumber(Date(m.year, m.month, now.day.day)) * DayMs + now.ms
  {
  }

  /**
   * When it does not (the 31st, one month after a 30-day month), the
   * cutoff runs on into the following month by the missing days.
   */
  lemma CutoffOverflows(now: Now, k: nat)
    requires ValidNow(now)
    requires var m := MonthsBefore(now.day, k); now.day.day > DaysInMonth(m.year, m.month)
    ensures var m := MonthsBefore(now.day, k);
      var next := NextMonthStart(m);
      Cutoff(now, k) == (DayNumber(next) + now.day.day - DaysInMonth(m.year, m.month) - 1) * DayMs + now.ms
  {
    var m := MonthsBefore(now.day, k);
    if m.month == 12 {
      NextYear(m.year);
      MonthsMakeYear(m.year);
    }
  }

  /** On the 31st of March 2025, "1month" counts from the 3rd of March, not from February. */
  lemma EndOfMarch()
    ensures Cutoff(Now(Date(2025, 3, 31), 0), 1) == DayNumber(Date(2025, 3, 3)) * DayMs
  {
    var now := Now(Date(2025, 3, 31), 0);
    assert MonthsBefore(now.day, 1) == Date(2025, 2, 1);
    assert DaysInMonth(2025, 2) == 28;
    CutoffOverflows(now, 1);
    assert NextMonthStart(Date(2025, 2, 1)) == Date(2025, 3, 1);
    assert DayNumber(Date(2025, 3, 3)) == DayNumber(Date(2025, 3, 1)) + 2;
  }

  // ---------------------------------------------------------------------
  // filteredStations

  /** The period selector's value: how many months back, or nothing for "all". */
  function MonthsBack(dateFilter: string): (k: Option<nat>)
    ensures k.None? <==> dateFilter == "all"
    ensures dateFilter == "1month" ==> k == Some(1)
    ensures dateFilter == "3months" ==> k == Some(3)
    ensures dateFilter == "6months" ==> k == Some(6)
    ensures dateFilter !in {"all", "1month", "3months", "6months"} ==> k == Some(0)
  {
    if dateFilter == "all" then None
    else if dateFilter == "1month" then Some(1)
    else if dateFilter == "3months" then Some(3)
    else if dateFilter == "6months" then Some(6)
    else Some(0)
  }

  /** The country and city test. */
  function AtPlace(country: string, city: string): Station -> bool
  {
    (s: Station) => s.country == country && s.city == city
  }

  /** `stationDate >= filterDate && stationDate <= now`: false for a date that does not parse. */
  predicate WithinPeriod(s: Station, cutoff: int, now: int)
  {
    s.dateISO.Some? && Valid(s.dateISO.value)
    && cutoff <= DayNumber(s.dateISO.value) * DayMs <= now
  }

  function InPeriod(cutoff: int, now: int): Station -> bool
  {
    (s: Station) => WithinPeriod(s, cutoff, now)
  }

  /**
   * `filteredStations`: exactly the stations of the selected country and
   * city and, unless the period is "all", those dated between the cutoff
   * and now.
   */
  function FilteredStations(stations: seq<Station>, country: string, city: string, dateFilter: string, now: Now): (r: seq<Station>)
    requires ValidNow(now)
    ensures forall s :: s in r <==>
      s in stations && s.country == country && s.city == city
      && (dateFilter != "all" ==> WithinPeriod(s, Cutoff(now, MonthsBack(dateFilter).value), Instant(now)))
  {
    var here := Filter(stations, AtPlace(country, city));
    match MonthsBack(dateFilter)
    case None => here
    case Some(k) => Filter(here, InPeriod(Cutoff(now, k), Instant(now)))
  }

  /** With "all", the table is every station of the place, in the original order. */
  lemma AllKeepsPlaceOrder(stations: seq<Station>, country: string, city: string, now: Now)
    requires ValidNow(now)
    ensures FilteredStations(stations, country, city, "all", now) == Filter(stations, AtPlace(country, city))
  {
  }

  /** Whatever the selection, the table keeps the stations in their original order. */
  lemma ShownInOrder(stations: seq<Station>, country: string, city: string, dateFilter: string, now: Now)
    requires ValidNow(now)
    ensures IsSubsequence(FilteredStations(stations, country, city, dateFilter, now), stations)
  {
    var here := Filter(stations, AtPlace(country, city));
    FilterIsSubsequence(stations, AtPlace(country, city));
    if dateFilter != "all" {
      var k := MonthsBack(dateFilter).value;
      FilterIsSubsequence(here, InPeriod(Cutoff(now, k), Instant(now)));
      SubsequenceTransitive(Filter(here, InPeriod(Cutoff(now, k), Instant(now))), here, stations);
    }
  }

  /** An unknown period value keeps only the stations dated at the very instant `now`. */
  lemma UnknownPeriodIsNow(stations: seq<Station>, country: string, city: string, dateFilter: string, now: Now)
    requires ValidNow(now)
    requires dateFilter !in {"all", "1month", "3months", "6months"}
    ensures forall s :: s in FilteredStations(stations, country, city, dateFilter, now) ==>
      DayNumber(s.dateISO.value) * DayMs == Instant(now)
  {
    assert MonthsBack(dateFilter) == Some(0);
  }

  /** The default view, with every period, lists the three stations of CDMX, in table order. */
  lemma DefaultView(now: Now)
    requires ValidNow(now)
    ensures var all := AllStations();
      FilteredStations(all, DefaultCountry, DefaultCity, "all", now) == [all[0], all[2], all[5]]
  {
    var all := AllStations();
    var here := AtPlace(DefaultCountry, DefaultCity);
    StationPlaces();
    FilterPrefixes(all, here);
    assert all[..7] == all;
  }

  /** Which of the seven stations are in CDMX, México. */
  lemma StationPlaces()
    ensures var all, here := AllStations(), AtPlace(DefaultCountry, DefaultCity);
      here(all[0]) && !here(all[1]) && here(all[2]) && !here(all[3])
      && !here(all[4]) && here(all[5]) && !here(all[6])
  {
    var all := AllStations();
    assert all[1].city[0] != DefaultCity[0];
    assert all[3].city[0] != DefaultCity[0];
    assert all[4].country[0] != DefaultCountry[0];
    assert all[6].country[0] != DefaultCountry[0];
  }

  /** The filter over the growing prefixes of the table, given which stations pass. */
  lemma FilterPrefixes(all: seq<Station>, here: Station -> bool)
    requires |all| == 7
    requires here(all[0]) && !here(all[1]) && here(all[2]) && !here(all[3])
    requires !here(all[4]) && here(all[5]) && !here(all[6])
    ensures Filter(all[..7], here) == [all[0], all[2], all[5]]
  {
    assert all[..1][..0] == [];
    assert Filter(all[..1], here) == [all[0]];
    assert all[..2][..1] == all[..1];
    assert Filter(all[..2], here) == [all[0]];
    assert all[..3][..2] == all[..2];
    assert Filter(all[..3], here) == [all[0], all[2]];
    assert all[..4][..3] == all[..3];
    assert Filter(all[..4], here) == [all[0], all[2]];
    assert all[..5][..4] == all[..4];
    assert Filter(all[..5], here) == [all[0], all[2]];
    assert all[..6][..5] == all[..5];
    assert Filter(all[..6], here) == [all[0], all[2], all[5]];
    assert all[..7][..6] == all[..6];
  }

  // ---------------------------------------------------------------------
  // The pacing badge

  datatype Badge = Success | Warning | Destructive

  /** The pacing badge: success from 90 %, warning from 80 %, destructive below. */
  function PacingBadge(pacing: int): (b: Badge)
    ensures b == Success <==> pacing >= 90
    ensures b == Warning <==> 80 <= pacing < 90
    ensures b == Destructive <==> pacing < 80
  {
    if pacing >= 90 then Success else if pacing >= 80 then Warning else Destructive
  }

  function Severity(b: Badge): nat
  {
    match b
    case Success => 0
    case Warning => 1
    case Destructive => 2
  }

  /** A better pacing never shows a more severe badge. */
  lemma BadgeMonotone(a: int, b: int)
    requires a <= b
    ensures Severity(PacingBadge(b)) <= Severity(PacingBadge(a))
  {
  }

  // ---------------------------------------------------------------------
  // The component

  /** The period selector. */
  class ComplianceView {
    var dateFilter: string

    /** `useState("all")`. */
    constructor()
      ensures dateFilter == "all"
    {
      dateFilter := "all";
    }

    /** `setDateFilter`. */
    method SetDateFilter(value: string)
      modifies this
      ensures dateFilter == value
    {
      dateFilter := value;
    }

    /** The rows of the table for the given props at instant `now`. */
    function Rows(country: Option<string>, city: Option<string>, now: Now): (r: seq<Station>)
      reads this
      requires ValidNow(now)
      ensures IsSubsequence(r, AllStations())
      ensures forall s :: s in r ==> s.country == PropOr(country, DefaultCountry) && s.city == PropOr(city, DefaultCity)
    {
      var c := PropOr(country, DefaultCountry);
      var ci := PropOr(city, DefaultCity);
      ShownInOrder(AllStations(), c, ci, dateFilter, now);
      FilteredStations(AllStations(), c, ci, dateFilter, now)
    }
  }
}
