/**
 * A record of the event catalogue (`realEventsDatabase`) with the fields the
 * reports read.  The catalogue itself is not part of this model; every
 * analysis takes it as a sequence.  The two date fields are kept apart
 * because the reports read them separately: `date` (DateComparison,
 * OpportunitiesReport) and `dateISO` (the others).  A date string that
 * `parseISO` cannot read gives an invalid `Date`, and every comparison with
 * it is false; the model writes that as `None`.
 */
module Catalog {
  import opened Common
  import opened Calendar
  import opened Seqs

  datatype Event = Event(
    id: string,
    name: string,
    genre: string,
    city: string,
    venue: string,
    date: Option<Date>,
    dateISO: Option<Date>,
    capacity: Option<nat>,
    occupancyRate: Option<real>)

  /** A parsed date is a real calendar day. */
  predicate ValidDates(e: Event)
  {
    (e.date.Some? ==> Valid(e.date.value)) && (e.dateISO.Some? ==> Valid(e.dateISO.value))
  }

  predicate ValidCatalog(events: seq<Event>)
  {
    forall i :: 0 <= i < |events| ==> ValidDates(events[i])
  }

  /** `e.capacity || 0`. */
  function CapacityOrZero(e: Event): (c: nat)
    ensures e.capacity.Some? ==> c == e.capacity.value
    ensures e.capacity.None? ==> c == 0
  {
    if e.capacity.Some? then e.capacity.value else 0
  }

  /** `e.occupancyRate || 75`: a missing rate and a rate of 0 both read as 75. */
  function OccupancyOrDefault(e: Event): (r: real)
    ensures e.occupancyRate.Some? && e.occupancyRate.value != 0.0 ==> r == e.occupancyRate.value
    ensures e.occupancyRate.None? || e.occupancyRate.value == 0.0 ==> r == 75.0
  {
    if e.occupancyRate.Some? && e.occupancyRate.value != 0.0 then e.occupancyRate.value else 75.0
  }

  /** `isSameDay(parseISO(s), day)`: false for a string that does not parse. */
  predicate OnDay(d: Option<Date>, day: Date)
  {
    d.Some? && d.value == day
  }

  /** `Math.abs(differenceInDays(a, b))` for two whole days, when both parse. */
  function DayDistance(a: Date, b: Date): (n: nat)
    requires Valid(a) && Valid(b)
    ensures n == 0 <==> a == b
  {
    DayNumberInjective(a, b);
    var k := DayNumber(a) - DayNumber(b);
    if k < 0 then -k else k
  }

  /** `events.reduce((sum, e) => sum + (e.capacity || 0), 0)`. */
  function TotalCapacity(events: seq<Event>): (c: nat)
    ensures events == [] ==> c == 0
    ensures c > 0 ==> exists e :: e in events && CapacityOrZero(e) > 0
  {
    if events == [] then 0
    else
      var init := events[..|events| - 1];
      var last := events[|events| - 1];
      assert forall e :: e in init ==> e in events;
      TotalCapacity(init) + CapacityOrZero(last)
  }

  /** `events.filter(e => isSameDay(parseISO(e.date), day))`. */
  function EventsOnDate(events: seq<Event>, day: Date): (r: seq<Event>)
    ensures forall e :: e in r <==> e in events && OnDay(e.date, day)
    ensures IsSubsequence(r, events)
  {
    var onDay := (e: Event) => OnDay(e.date, day);
    FilterIsSubsequence(events, onDay);
    Filter(events, onDay)
  }

  /** The same filter on the `dateISO` field. */
  function EventsOnDateISO(events: seq<Event>, day: Date): (r: seq<Event>)
    ensures forall e :: e in r <==> e in events && OnDay(e.dateISO, day)
    ensures IsSubsequence(r, events)
  {
    var onDay := (e: Event) => OnDay(e.dateISO, day);
    FilterIsSubsequence(events, onDay);
    Filter(events, onDay)
  }

  /** The genres of `events`, in order: `events.map(e => e.genre)`. */
  function Genres(events: seq<Event>): (r: seq<string>)
    ensures |r| == |events|
    ensures forall i :: 0 <= i < |events| ==> r[i] == events[i].genre
  {
    MapSeq(events, (e: Event) => e.genre)
  }
}
