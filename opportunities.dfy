/**
 * The "Oportunidades" report: the quietest days of the next 90, the genres
 * with the lowest average of events per day together with the first day
 * without an event of that genre, and the venues with the fewest events.
 * `today` is a parameter; every date test reads the `date` field.
 */
module OpportunitiesReport {
  import opened Common
  import opened Seqs
  import opened Sorting
  import opened Calendar
  import opened Catalog

  // ---------------------------------------------------------------------
  // Quiet days

  /** `eachDayOfInterval({ start: today, end: addDays(today, 90) })`: 91 consecutive days. */
  function CandidateDays(today: Date): (r: seq<Date>)
    requires Valid(today)
    ensures |r| == 91
    ensures forall i :: 0 <= i < 91 ==> r[i] == AddDays(today, i) && DayNumber(r[i]) == DayNumber(today) + i
  {
    seq(91, (i: int) requires 0 <= i < 91 => AddDays(today, i))
  }

  /**
   * Within three days of `day` but not on it.  A date that does not parse
   * gives NaN and fails the test.
   */
  function NearDay(e: Event, day: Date): (b: bool)
    ensures b <==> (Valid(day) && e.date.Some? && Valid(e.date.value) && e.date.value != day
      && -3 <= DayNumber(e.date.value) - DayNumber(day) <= 3)
  {
    Valid(day) && e.date.Some? && Valid(e.date.value) && 0 < DayDistance(day, e.date.value) <= 3
  }

  datatype DayOpportunity = DayOpportunity(date: Date, eventsOnDay: nat, nearbyEvents: nat, score: real, dayOfWeek: int)

  function Score(d: DayOpportunity): real { d.score }

  /** One entry of `dayAnalysis`: the score is the events on the day plus 0.3 per nearby event. */
  function AnalyzeDay(events: seq<Event>, day: Date): (d: DayOpportunity)
    requires Valid(day)
    ensures d.date == day && d.eventsOnDay == |EventsOnDate(events, day)|
    ensures d.nearbyEvents == |Filter(events, (e: Event) => NearDay(e, day))|
    ensures d.score == d.eventsOnDay as real + d.nearbyEvents as real * 0.3
    ensures 0 <= d.dayOfWeek < 7
  {
    var on := |EventsOnDate(events, day)|;
    var near := |Filter(events, (e: Event) => NearDay(e, day))|;
    DayOpportunity(day, on, near, on as real + near as real * 0.3, WeekdayOf(day))
  }

  function AllDays(events: seq<Event>, today: Date): (r: seq<DayOpportunity>)
    requires Valid(today)
    ensures |r| == 91
    ensures forall i :: 0 <= i < 91 ==> r[i] == AnalyzeDay(events, AddDays(today, i))
  {
    var days := CandidateDays(today);
    seq(91, (i: int) requires 0 <= i < 91 => AnalyzeDay(events, days[i]))
  }

  /**
   * `opportunityScore <= 1`: for a day's score, no event and at most three
   * nearby, or one event and none nearby.
   */
  function Quiet(d: DayOpportunity): (b: bool)
    ensures d.score == d.eventsOnDay as real + d.nearbyEvents as real * 0.3 ==>
      (b <==> (d.eventsOnDay == 0 && d.nearbyEvents <= 3) || (d.eventsOnDay == 1 && d.nearbyEvents == 0))
  {
    d.score <= 1.0
  }

  /**
   * `opportunities`: the quiet days, lowest score first, at most 15.  The
   * entries are drawn from the quiet candidate days, each at most as often
   * as it occurs there, and no quiet day left out scores lower than one kept.
   */
  function Opportunities(events: seq<Event>, today: Date): (r: seq<DayOpportunity>)
    requires Valid(today)
    ensures |r| <= 15
    ensures |r| == Min(15, |Filter(AllDays(events, today), Quiet)|)
    ensures SortedBy(r, Score)
    ensures multiset(r) <= multiset(Filter(AllDays(events, today), Quiet))
    ensures forall o :: o in r ==> o in AllDays(events, today) && Quiet(o)
    ensures forall o :: o in r ==>
      (o.eventsOnDay == 0 && o.nearbyEvents <= 3) || (o.eventsOnDay == 1 && o.nearbyEvents == 0)
    ensures forall i, o :: 0 <= i < |r| && o in AllDays(events, today) && Quiet(o) && o !in r ==> r[i].score <= o.score
  {
    var kept := Filter(AllDays(events, today), Quiet);
    OpportunitiesFacts(events, today, kept, Min(15, |kept|));
    SortBy(kept, Score)[..Min(15, |kept|)]
  }

  lemma OpportunitiesFacts(events: seq<Event>, today: Date, kept: seq<DayOpportunity>, n: nat)
    requires Valid(today) && kept == Filter(AllDays(events, today), Quiet) && n == Min(15, |kept|)
    ensures var r := SortBy(kept, Score)[..n];
      SortedBy(r, Score)
      && multiset(r) <= multiset(kept)
      && (forall o :: o in r ==> o in AllDays(events, today) && Quiet(o))
      && (forall o :: o in r ==> (o.eventsOnDay == 0 && o.nearbyEvents <= 3) || (o.eventsOnDay == 1 && o.nearbyEvents == 0))
      && (forall i, o :: 0 <= i < |r| && o in AllDays(events, today) && Quiet(o) && o !in r ==> r[i].score <= o.score)
  {
    var r := SortBy(kept, Score)[..n];
    AscPrefixIsTop(kept, Score, n);
    ListedShape(events, today, r);
    forall i, o | 0 <= i < |r| && o in AllDays(events, today) && Quiet(o) && o !in r
      ensures r[i].score <= o.score
    {
      assert o in kept;
      assert Score(r[i]) <= Score(o);
    }
  }

  /** Every quiet candidate day has one of the two quiet shapes. */
  lemma ListedShape(events: seq<Event>, today: Date, r: seq<DayOpportunity>)
    requires Valid(today)
    requires forall o :: o in r ==> o in AllDays(events, today) && Quiet(o)
    ensures forall o :: o in r ==>
      (o.eventsOnDay == 0 && o.nearbyEvents <= 3) || (o.eventsOnDay == 1 && o.nearbyEvents == 0)
  {
    var all := AllDays(events, today);
    forall o | o in r
      ensures (o.eventsOnDay == 0 && o.nearbyEvents <= 3) || (o.eventsOnDay == 1 && o.nearbyEvents == 0)
    {
      var i :| 0 <= i < 91 && all[i] == o;
    }
  }

  datatype Badge = Excelente | MuyBuena | Buena

  /** `getOpportunityBadge`. */
  function BadgeOf(score: real): (b: Badge)
    ensures b == Excelente <==> score == 0.0
    ensures b == MuyBuena <==> score != 0.0 && score <= 0.5
    ensures b == Buena <==> score > 0.5
  {
    if score == 0.0 then Excelente else if score <= 0.5 then MuyBuena else Buena
  }

  /** On the days the report lists, "Muy Buena" means exactly one nearby event and nothing on the day. */
  lemma BadgesOfListedDays(o: DayOpportunity)
    requires o.score == o.eventsOnDay as real + o.nearbyEvents as real * 0.3 && Quiet(o)
    ensures BadgeOf(o.score) == Excelente <==> o.eventsOnDay == 0 && o.nearbyEvents == 0
    ensures BadgeOf(o.score) == MuyBuena <==> o.eventsOnDay == 0 && o.nearbyEvents == 1
  {
  }

  // ---------------------------------------------------------------------
  // Genres

  /** `genreEvents.some(e => isSameDay(parseISO(e.date), day))`. */
  predicate HasEventOn(genreEvents: seq<Event>, day: Date)
  {
    exists e :: e in genreEvents && OnDay(e.date, day)
  }

  /** The first index from `i` on whose day has no event of the genre. */
  function FirstFree(genreEvents: seq<Event>, days: seq<Date>, i: nat): (r: Option<nat>)
    ensures r.Some? ==> i <= r.value < |days| && !HasEventOn(genreEvents, days[r.value])
    ensures r.Some? ==> forall j :: i <= j < r.value ==> HasEventOn(genreEvents, days[j])
    ensures r.None? ==> forall j :: i <= j < |days| ==> HasEventOn(genreEvents, days[j])
    decreases |days| - i
  {
    if i >= |days| then None
    else if !HasEventOn(genreEvents, days[i]) then Some(i)
    else FirstFree(genreEvents, days, i + 1)
  }

  /** The days `today + 0` to `today + 89` that the loop inspects. */
  function SearchDays(today: Date): (r: seq<Date>)
    requires Valid(today)
    ensures |r| == 90
    ensures forall i :: 0 <= i < 90 ==> r[i] == AddDays(today, i)
  {
    CandidateDays(today)[..90]
  }

  /** The `for` loop with `break` that looks for `nextAvailable`. */
  method NextAvailable(genreEvents: seq<Event>, today: Date) returns (r: Option<nat>)
    requires Valid(today)
    ensures r == FirstFree(genreEvents, SearchDays(today), 0)
  {
    var days := SearchDays(today);
    r := None;
    var i := 0;
    while i < 90
      invariant 0 <= i <= 90
      invariant FirstFree(genreEvents, days, i) == FirstFree(genreEvents, days, 0)
    {
      var checkDate := AddDays(today, i);
      var hasEvent := HasEventOn(genreEvents, checkDate);
      if !hasEvent {
        r := Some(i);
        break;
      }
      i := i + 1;
    }
  }

  datatype Saturation = Baja | Media | Alta

  /** The saturation of an average of events per day. */
  function SaturationOf(avg: real): (s: Saturation)
    ensures s == Baja <==> avg < 0.3
    ensures s == Media <==> 0.3 <= avg < 0.6
    ensures s == Alta <==> avg >= 0.6
  {
    if avg < 0.3 then Baja else if avg < 0.6 then Media else Alta
  }

  /** On the count itself: fewer than 27 events is "Baja", fewer than 54 "Media". */
  lemma SaturationByCount(count: nat)
    ensures SaturationOf(count as real / 90.0) == if count < 27 then Baja else if count < 54 then Media else Alta
  {
  }

  /** `parseFloat(avg.toFixed(2))`, kept as whole hundredths: within half a hundredth of count / 90. */
  function Hundredths(count: nat): (h: int)
    ensures 100 * count - 45 < 90 * h <= 100 * count + 45
    ensures h >= 0
  {
    Round(count as real / 90.0 * 100.0)
  }

  /** Rounding to hundredths never merges two different counts, so the genre order is the order of counts. */
  lemma HundredthsStrict(a: nat, b: nat)
    requires a < b
    ensures Hundredths(a) < Hundredths(b)
  {
    var x := a as real / 90.0 * 100.0;
    var y := b as real / 90.0 * 100.0;
    assert y - x >= 1.1;
  }

  datatype GenreRow = GenreRow(genre: string, totalEvents: nat, hundredths: int, saturation: Saturation, nextAvailable: Option<Date>)

  function HundredthsKey(g: GenreRow): real { g.hundredths as real }

  function GenreEvents(events: seq<Event>, genre: string): (r: seq<Event>)
    ensures forall e :: e in r <==> e in events && e.genre == genre
  {
    Filter(events, (e: Event) => e.genre == genre)
  }

  /** The row of one genre; `nextAvailable` is the day of the first free offset, if any. */
  function GenreRowOf(events: seq<Event>, today: Date, genre: string): (g: GenreRow)
    requires Valid(today)
    ensures g.genre == genre && g.totalEvents == |GenreEvents(events, genre)|
    ensures g.hundredths == Hundredths(g.totalEvents)
    ensures g.saturation == SaturationOf(g.totalEvents as real / 90.0)
    ensures g.nextAvailable.Some? <==> FirstFree(GenreEvents(events, genre), SearchDays(today), 0).Some?
    ensures g.nextAvailable.Some? ==>
      g.nextAvailable.value == AddDays(today, FirstFree(GenreEvents(events, genre), SearchDays(today), 0).value)
    ensures g.nextAvailable.Some? ==> !HasEventOn(GenreEvents(events, genre), g.nextAvailable.value)
  {
    var ge := GenreEvents(events, genre);
    var free := FirstFree(ge, SearchDays(today), 0);
    GenreRow(genre, |ge|, Hundredths(|ge|), SaturationOf(|ge| as real / 90.0),
      if free.Some? then Some(AddDays(today, free.value)) else None)
  }

  /** One pass of the `genres.map` callback. */
  method GenreRowFor(events: seq<Event>, today: Date, genre: string) returns (row: GenreRow)
    requires Valid(today)
    ensures row == GenreRowOf(events, today, genre)
  {
    var genreEvents := GenreEvents(events, genre);
    var next := NextAvailable(genreEvents, today);
    var count := |genreEvents|;
    row := GenreRow(genre, count, Hundredths(count), SaturationOf(count as real / 90.0),
      if next.Some? then Some(AddDays(today, next.value)) else None);
  }

  /** Rows sorted by rounded average are sorted by their number of events. */
  lemma CountOrder(rows: seq<GenreRow>)
    requires SortedBy(rows, HundredthsKey)
    requires forall g :: g in rows ==> g.hundredths == Hundredths(g.totalEvents)
    ensures forall i, j :: 0 <= i < j < |rows| ==> rows[i].totalEvents <= rows[j].totalEvents
  {
    forall i, j | 0 <= i < j < |rows|
      ensures rows[i].totalEvents <= rows[j].totalEvents
    {
      if rows[j].totalEvents < rows[i].totalEvents {
        HundredthsStrict(rows[j].totalEvents, rows[i].totalEvents);
      }
    }
  }

  /** The rows of `genres`, in their order. */
  function GenreRows(events: seq<Event>, today: Date, genres: seq<string>): (r: seq<GenreRow>)
    requires Valid(today)
    ensures |r| == |genres|
    ensures forall i :: 0 <= i < |genres| ==> r[i] == GenreRowOf(events, today, genres[i])
  {
    if genres == [] then []
    else
      var front := genres[..|genres| - 1];
      var last := GenreRowOf(events, today, genres[|genres| - 1]);
      assert forall i :: 0 <= i < |front| ==> front[i] == genres[i];
      GenreRows(events, today, front) + [last]
  }

  lemma GenreRowsSnoc(events: seq<Event>, today: Date, genres: seq<string>, g: string)
    requires Valid(today)
    ensures GenreRows(events, today, genres + [g]) == GenreRows(events, today, genres) + [GenreRowOf(events, today, g)]
  {
    assert (genres + [g])[..|genres|] == genres;
  }

  /** Sorting the rows by rounded average orders them by number of events. */
  lemma SortedGenreRows(events: seq<Event>, today: Date, genres: seq<string>)
    requires Valid(today)
    ensures var rows := SortBy(GenreRows(events, today, genres), HundredthsKey);
      forall i, j :: 0 <= i < j < |rows| ==> rows[i].totalEvents <= rows[j].totalEvents
  {
    var unsorted := GenreRows(events, today, genres);
    assert forall k :: 0 <= k < |unsorted| ==> unsorted[k].hundredths == Hundredths(unsorted[k].totalEvents);
    SortKeepsHundredths(unsorted);
    CountOrder(SortBy(unsorted, HundredthsKey));
  }

  lemma SortKeepsHundredths(rows: seq<GenreRow>)
    requires forall k :: 0 <= k < |rows| ==> rows[k].hundredths == Hundredths(rows[k].totalEvents)
    ensures forall g :: g in SortBy(rows, HundredthsKey) ==> g.hundredths == Hundredths(g.totalEvents)
  {
    SortByMembers(rows, HundredthsKey);
    forall g | g in SortBy(rows, HundredthsKey)
      ensures g.hundredths == Hundredths(g.totalEvents)
    {
      assert g in rows;
    }
  }

  /**
   * `genreOpportunities`: one row per distinct genre, in order of first
   * appearance, then sorted by the rounded average.
   */
  method GenreOpportunities(events: seq<Event>, today: Date) returns (rows: seq<GenreRow>)
    requires Valid(today)
    ensures rows == SortBy(GenreRows(events, today, Distinct(Genres(events))), HundredthsKey)
  {
    var genres := Distinct(Genres(events));
    var unsorted: seq<GenreRow> := [];
    var i := 0;
    ghost var done: seq<string> := [];
    while i < |genres|
      invariant 0 <= i <= |genres| && done == genres[..i]
      invariant unsorted == GenreRows(events, today, done)
    {
      var row := GenreRowFor(events, today, genres[i]);
      GenreRowsSnoc(events, today, done, genres[i]);
      PrefixSnoc(genres, i);
      unsorted := unsorted + [row];
      done := done + [genres[i]];
      i := i + 1;
    }
    assert done == genres;
    rows := SortBy(unsorted, HundredthsKey);
  }

  // ---------------------------------------------------------------------
  // Venues

  datatype VenueRow = VenueRow(venue: string, totalEvents: nat, capacity: nat, avgOccupancy: real)

  function TotalEvents(v: VenueRow): real { v.totalEvents as real }

  function Venues(events: seq<Event>): (r: seq<string>)
    ensures |r| == |events|
    ensures forall i :: 0 <= i < |events| ==> r[i] == events[i].venue
  {
    MapSeq(events, (e: Event) => e.venue)
  }

  /**
   * The row of a venue of the catalogue: its number of events (at least
   * one), the capacity of its first event (0 when missing) and the mean
   * occupancy with 75 for a missing or zero rate.
   */
  function VenueRowOf(events: seq<Event>, venue: string): (v: VenueRow)
    requires venue in Venues(events)
    ensures var ve := Filter(events, AtVenue(venue));
      v.venue == venue && v.totalEvents == |ve| >= 1
      && v.capacity == CapacityOrZero(ve[0])
      && v.avgOccupancy == Mean(SumReal(ve, OccupancyOrDefault), |ve|)
  {
    var ve := Filter(events, AtVenue(venue));
    VenueHasEvents(events, venue);
    VenueRow(venue, |ve|, CapacityOrZero(ve[0]), Mean(SumReal(ve, OccupancyOrDefault), |ve|))
  }

  function AtVenue(venue: string): Event -> bool
  {
    (e: Event) => e.venue == venue
  }

  /** A venue of the catalogue has at least one event. */
  lemma VenueHasEvents(events: seq<Event>, venue: string)
    requires venue in Venues(events)
    ensures |Filter(events, AtVenue(venue))| >= 1
  {
    var k :| 0 <= k < |events| && Venues(events)[k] == venue;
    assert events[k] in Filter(events, AtVenue(venue));
  }

  /** `venueOpportunities`: one row per distinct venue, fewest events first. */
  function VenueOpportunities(events: seq<Event>): (r: seq<VenueRow>)
    ensures SortedBy(r, TotalEvents)
    ensures |r| == |Distinct(Venues(events))|
    ensures forall v :: v in r ==> v.venue in Venues(events) && v == VenueRowOf(events, v.venue)
    ensures forall venue :: venue in Venues(events) ==> VenueRowOf(events, venue) in r
    ensures forall i, j :: 0 <= i < j < |r| ==> r[i].venue != r[j].venue
  {
    var venues := Distinct(Venues(events));
    var rows := seq(|venues|, (i: int) requires 0 <= i < |venues| => VenueRowOf(events, venues[i]));
    var r := SortBy(rows, TotalEvents);
    VenueRowsCover(events, venues, rows, r);
    RowsOncePerVenue(venues, rows, r);
    r
  }

  /** Reordered rows of the catalogue's venues are exactly the venues' rows. */
  lemma VenueRowsCover(events: seq<Event>, venues: seq<string>, rows: seq<VenueRow>, r: seq<VenueRow>)
    requires forall v :: v in venues <==> v in Venues(events)
    requires |rows| == |venues|
    requires forall i :: 0 <= i < |rows| ==> venues[i] in Venues(events) && rows[i] == VenueRowOf(events, venues[i])
    requires multiset(r) == multiset(rows)
    ensures forall v :: v in r ==> v.venue in Venues(events) && v == VenueRowOf(events, v.venue)
    ensures forall venue :: venue in Venues(events) ==> VenueRowOf(events, venue) in r
  {
    forall v | v in r
      ensures v.venue in Venues(events) && v == VenueRowOf(events, v.venue)
    {
      assert v in multiset(rows);
    }
    forall venue | venue in Venues(events)
      ensures VenueRowOf(events, venue) in r
    {
      var i :| 0 <= i < |venues| && venues[i] == venue;
      assert rows[i] in multiset(r);
    }
  }

  /** Rows of distinct venues, reordered, still name each venue once. */
  lemma RowsOncePerVenue(venues: seq<string>, rows: seq<VenueRow>, r: seq<VenueRow>)
    requires forall i, j :: 0 <= i < j < |venues| ==> venues[i] != venues[j]
    requires |rows| == |venues| && forall i :: 0 <= i < |rows| ==> rows[i].venue == venues[i]
    requires multiset(r) == multiset(rows)
    ensures forall i, j :: 0 <= i < j < |r| ==> r[i].venue != r[j].venue
  {
    assert forall i, j :: 0 <= i < j < |rows| ==> rows[i] != rows[j];
    NoRepeatsPermutation(rows, r);
    forall i, j | 0 <= i < j < |r|
      ensures r[i].venue != r[j].venue
    {
      assert r[i] in multiset(rows) && r[j] in multiset(rows);
      var a :| 0 <= a < |rows| && rows[a] == r[i];
      var b :| 0 <= b < |rows| && rows[b] == r[j];
      assert a != b;
    }
  }
}
