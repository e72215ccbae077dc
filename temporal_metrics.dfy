/**
 * The "Métricas temporales" report: events and capacity per calendar month,
 * events and estimated revenue per weekday, the most popular weekday, the
 * genre distribution, and the venues with the highest mean attendance.
 * Months and weekdays are fixed arrays of bins that every event updates in
 * place; venues are grouped in a `Map` that keeps first-insertion order.
 */
module TemporalMetrics {
  import opened Common
  import opened Seqs
  import opened Sorting
  import opened Calendar
  import opened Catalog
  import opened Tally

  // ---------------------------------------------------------------------
  // Bins

  /**
   * The bin an event falls in, if any: the parsed `dateISO` chooses it; a
   * missing or unparseable date (NaN, or a thrown parse caught by the
   * `try`) skips the event.
   */
  function MonthIndex(e: Event): (k: Option<nat>)
    ensures k.Some? ==> k.value < 12
    ensures k.Some? <==> e.dateISO.Some? && Valid(e.dateISO.value)
  {
    if e.dateISO.Some? && Valid(e.dateISO.value) then Some(e.dateISO.value.month - 1) else None
  }

  function WeekdayIndex(e: Event): (k: Option<nat>)
    ensures k.Some? ==> k.value < 7
    ensures k.Some? <==> e.dateISO.Some? && Valid(e.dateISO.value)
  {
    if e.dateISO.Some? && Valid(e.dateISO.value) then Some(WeekdayOf(e.dateISO.value)) else None
  }

  /** The number of events in bin `b`. */
  function BinCount(events: seq<Event>, key: Event -> Option<nat>, b: nat): (n: nat)
    ensures n <= |events|
  {
    if events == [] then 0
    else BinCount(events[..|events| - 1], key, b) + (if key(events[|events| - 1]) == Some(b) then 1 else 0)
  }

  /** A bin's count is positive exactly when some event falls in it. */
  lemma {:induction false} BinCountPositive(events: seq<Event>, key: Event -> Option<nat>, b: nat)
    ensures BinCount(events, key, b) > 0 <==> exists i :: 0 <= i < |events| && key(events[i]) == Some(b)
  {
    if events != [] {
      var init := events[..|events| - 1];
      BinCountPositive(init, key, b);
      if BinCount(init, key, b) > 0 {
        var i :| 0 <= i < |init| && key(init[i]) == Some(b);
        assert key(events[i]) == Some(b);
      }
      if exists i :: 0 <= i < |events| && key(events[i]) == Some(b) {
        var i :| 0 <= i < |events| && key(events[i]) == Some(b);
        if i < |init| {
          assert key(init[i]) == Some(b);
        }
      }
    }
  }

  /** The sum of `f` over the events in bin `b`: nothing for an empty bin. */
  function BinTotal(events: seq<Event>, key: Event -> Option<nat>, f: Event -> nat, b: nat): (t: nat)
    ensures BinCount(events, key, b) == 0 ==> t == 0
  {
    if events == [] then 0
    else BinTotal(events[..|events| - 1], key, f, b) + (if key(events[|events| - 1]) == Some(b) then f(events[|events| - 1]) else 0)
  }

  /** The sum of `f` over the events in bin `b`: nothing for an empty bin, never negative for a non-negative `f`. */
  function BinRevenue(events: seq<Event>, key: Event -> Option<nat>, f: Event -> real, b: nat): (r: real)
    ensures BinCount(events, key, b) == 0 ==> r == 0.0
    ensures (forall i :: 0 <= i < |events| ==> f(events[i]) >= 0.0) ==> r >= 0.0
  {
    if events == [] then 0.0
    else BinRevenue(events[..|events| - 1], key, f, b) + (if key(events[|events| - 1]) == Some(b) then f(events[|events| - 1]) else 0.0)
  }

  /** The counts of bins `0 .. k - 1` added up. */
  function CountsBelow(events: seq<Event>, key: Event -> Option<nat>, k: nat): nat
  {
    if k == 0 then 0 else CountsBelow(events, key, k - 1) + BinCount(events, key, k - 1)
  }

  /** The events that fall in some bin. */
  function Binned(events: seq<Event>, key: Event -> Option<nat>): nat
  {
    if events == [] then 0
    else Binned(events[..|events| - 1], key) + (if key(events[|events| - 1]).Some? then 1 else 0)
  }

  lemma {:induction false} CountsBelowEmpty(key: Event -> Option<nat>, k: nat)
    ensures CountsBelow([], key, k) == 0
  {
    if k > 0 {
      CountsBelowEmpty(key, k - 1);
    }
  }

  lemma {:induction false} CountsBelowSnoc(events: seq<Event>, x: Event, key: Event -> Option<nat>, k: nat)
    ensures CountsBelow(events + [x], key, k)
      == CountsBelow(events, key, k) + (if key(x).Some? && key(x).value < k then 1 else 0)
  {
    assert (events + [x])[..|events|] == events;
    if k > 0 {
      CountsBelowSnoc(events, x, key, k - 1);
    }
  }

  /**
   * Every event whose date parses lands in exactly one of the `n` bins, so
   * the bin counts add up to the number of such events.
   */
  lemma {:induction false} BinsAddUp(events: seq<Event>, key: Event -> Option<nat>, n: nat)
    requires forall e :: key(e).Some? ==> key(e).value < n
    ensures CountsBelow(events, key, n) == Binned(events, key)
  {
    if events == [] {
      CountsBelowEmpty(key, n);
    } else {
      var init := events[..|events| - 1];
      var x := events[|events| - 1];
      assert events == init + [x];
      BinsAddUp(init, key, n);
      CountsBelowSnoc(init, x, key, n);
    }
  }

  // ---------------------------------------------------------------------
  // monthlyData

  /** `format(new Date(2025, i, 1), "MMMM", { locale: es })`. */
  const MonthNames: seq<string> := ["enero", "febrero", "marzo", "abril", "mayo", "junio", "julio",
    "agosto", "septiembre", "octubre", "noviembre", "diciembre"]

  datatype MonthBin = MonthBin(month: string, eventos: nat, capacidad: nat)

  /**
   * `monthlyData`: twelve bins, each counting the events of its month and
   * adding up their capacity (0 when missing).
   */
  method MonthlyData(events: seq<Event>) returns (bins: seq<MonthBin>)
    ensures |bins| == 12
    ensures forall m :: 0 <= m < 12 ==>
      bins[m].month == MonthNames[m]
      && bins[m].eventos == BinCount(events, MonthIndex, m)
      && bins[m].capacidad == BinTotal(events, MonthIndex, CapacityOrZero, m)
  {
    var months := new MonthBin[12](m requires 0 <= m < 12 => MonthBin(MonthNames[m], 0, 0));
    var i := 0;
    while i < |events|
      invariant 0 <= i <= |events|
      invariant forall m :: 0 <= m < 12 ==>
        months[m] == MonthBin(MonthNames[m], BinCount(events[..i], MonthIndex, m), BinTotal(events[..i], MonthIndex, CapacityOrZero, m))
    {
      var e := events[i];
      assert events[..i + 1][..i] == events[..i];
      var k := MonthIndex(e);
      if k.Some? {
        var m := k.value;
        months[m] := months[m].(eventos := months[m].eventos + 1, capacidad := months[m].capacidad + CapacityOrZero(e));
      }
      i := i + 1;
    }
    assert events[..i] == events;
    bins := months[..];
  }

  /** The monthly counts add up to the number of events whose date parses. */
  lemma MonthsAddUp(events: seq<Event>)
    ensures CountsBelow(events, MonthIndex, 12) == Binned(events, MonthIndex)
    ensures Binned(events, MonthIndex) <= |events|
  {
    BinsAddUp(events, MonthIndex, 12);
    BinnedBound(events, MonthIndex);
  }

  lemma {:induction false} BinnedBound(events: seq<Event>, key: Event -> Option<nat>)
    ensures Binned(events, key) <= |events|
  {
    if events != [] {
      BinnedBound(events[..|events| - 1], key);
    }
  }

  // ---------------------------------------------------------------------
  // weekdayData

  const WeekdayNames: seq<string> := ["Domingo", "Lunes", "Martes", "Mi\U{00E9}rcoles", "Jueves", "Viernes", "S\U{00E1}bado"]

  datatype WeekdayBin = WeekdayBin(name: string, count: nat, revenue: real)

  /** `(capacity || 0) * (occupancyRate || 75) * 50`. */
  function EstimatedRevenue(e: Event): (r: real)
    ensures e.capacity.None? ==> r == 0.0
    ensures r == CapacityOrZero(e) as real * OccupancyOrDefault(e) * 50.0
  {
    CapacityOrZero(e) as real * OccupancyOrDefault(e) * 50.0
  }

  /** `weekdayData`: seven bins, Sunday first, counting events and adding up their estimated revenue. */
  method WeekdayData(events: seq<Event>) returns (bins: seq<WeekdayBin>)
    ensures |bins| == 7
    ensures forall d :: 0 <= d < 7 ==>
      bins[d].name == WeekdayNames[d]
      && bins[d].count == BinCount(events, WeekdayIndex, d)
      && bins[d].revenue == BinRevenue(events, WeekdayIndex, EstimatedRevenue, d)
  {
    var weekdays := new WeekdayBin[7](d requires 0 <= d < 7 => WeekdayBin(WeekdayNames[d], 0, 0.0));
    var i := 0;
    while i < |events|
      invariant 0 <= i <= |events|
      invariant forall d :: 0 <= d < 7 ==>
        weekdays[d] == WeekdayBin(WeekdayNames[d], BinCount(events[..i], WeekdayIndex, d), BinRevenue(events[..i], WeekdayIndex, EstimatedRevenue, d))
    {
      var e := events[i];
      assert events[..i + 1][..i] == events[..i];
      var k := WeekdayIndex(e);
      if k.Some? {
        var d := k.value;
        weekdays[d] := weekdays[d].(count := weekdays[d].count + 1, revenue := weekdays[d].revenue + EstimatedRevenue(e));
      }
      i := i + 1;
    }
    assert events[..i] == events;
    bins := weekdays[..];
  }

  /** The weekday counts add up to the number of events whose date parses. */
  lemma WeekdaysAddUp(events: seq<Event>)
    ensures CountsBelow(events, WeekdayIndex, 7) == Binned(events, WeekdayIndex)
    ensures Binned(events, WeekdayIndex) == Binned(events, MonthIndex)
  {
    BinsAddUp(events, WeekdayIndex, 7);
    SameBinned(events);
  }

  lemma {:induction false} SameBinned(events: seq<Event>)
    ensures Binned(events, WeekdayIndex) == Binned(events, MonthIndex)
  {
    if events != [] {
      SameBinned(events[..|events| - 1]);
    }
  }

  /**
   * `weekdayData.reduce((max, day) => day.count > max.count ? day : max)`
   * over the first `n` bins: the index of a largest count, the earliest one
   * on ties.
   */
  function MostPopular(bins: seq<WeekdayBin>, n: nat): (k: nat)
    requires 0 < n <= |bins|
    ensures k < n
    ensures forall j :: 0 <= j < n ==> bins[j].count <= bins[k].count
    ensures forall j :: 0 <= j < k ==> bins[j].count < bins[k].count
  {
    if n == 1 then 0
    else
      var best := MostPopular(bins, n - 1);
      if bins[n - 1].count > bins[best].count then n - 1 else best
  }

  // ---------------------------------------------------------------------
  // genreDistribution

  /** `genreDistribution`: the genres with their number of events, in order of first appearance. */
  method GenreDistribution(events: seq<Event>) returns (entries: seq<Entry<string>>)
    ensures Keys(entries) == Distinct(Genres(events))
    ensures forall i :: 0 <= i < |entries| ==> entries[i].count == Occurrences(Genres(events), entries[i].key)
    ensures Total(entries) == |events|
  {
    entries := CountByKey(Genres(events));
  }

  // ---------------------------------------------------------------------
  // venueCapacityData

  /** `(capacity || 0) * (occupancyRate || 75) / 100`: the expected attendance of an event. */
  function Attendance(e: Event): (r: real)
    ensures e.capacity.None? ==> r == 0.0
    ensures e.capacity.Some? && (e.occupancyRate.None? || e.occupancyRate.value == 0.0) ==> r == e.capacity.value as real * 0.75
  {
    CapacityOrZero(e) as real * OccupancyOrDefault(e) / 100.0
  }

  function Venues(events: seq<Event>): (r: seq<string>)
    ensures |r| == |events|
    ensures forall i :: 0 <= i < |events| ==> r[i] == events[i].venue
  {
    if events == [] then [] else Venues(events[..|events| - 1]) + [events[|events| - 1].venue]
  }

  /** The number of events at `venue`. */
  function VenueCount(events: seq<Event>, venue: string): (n: nat)
    ensures n <= |events|
    ensures n > 0 <==> venue in Venues(events)
  {
    if events == [] then 0
    else VenueCount(events[..|events| - 1], venue) + (if events[|events| - 1].venue == venue then 1 else 0)
  }

  /** The summed attendance of the events at `venue`: none for a venue without events. */
  function VenueLoad(events: seq<Event>, venue: string): (l: real)
    ensures venue !in Venues(events) ==> l == 0.0
  {
    if events == [] then 0.0
    else VenueLoad(events[..|events| - 1], venue) + (if events[|events| - 1].venue == venue then Attendance(events[|events| - 1]) else 0.0)
  }

  /** One entry of the `venues` map: the summed attendance and the number of events. */
  datatype Group = Group(venue: string, total: real, events: nat)

  function GroupNames(groups: seq<Group>): (r: seq<string>)
    ensures |r| == |groups|
    ensures forall i :: 0 <= i < |r| ==> r[i] == groups[i].venue
  {
    if groups == [] then [] else GroupNames(groups[..|groups| - 1]) + [groups[|groups| - 1].venue]
  }

  /** Each group holds the sums of its venue. */
  ghost predicate GroupsSummed(groups: seq<Group>, events: seq<Event>)
  {
    forall j :: 0 <= j < |groups| ==>
      groups[j].events == VenueCount(events, groups[j].venue)
      && groups[j].total == VenueLoad(events, groups[j].venue)
  }

  lemma SnocSums(events: seq<Event>, x: Event, v: string)
    ensures VenueCount(events + [x], v) == VenueCount(events, v) + (if x.venue == v then 1 else 0)
    ensures VenueLoad(events + [x], v) == VenueLoad(events, v) + (if x.venue == v then Attendance(x) else 0.0)
  {
    assert (events + [x])[..|events|] == events;
  }

  lemma SnocVenues(events: seq<Event>, x: Event)
    ensures Venues(events + [x]) == Venues(events) + [x.venue]
  {
    assert (events + [x])[..|events|] == events;
  }

  lemma GroupSeen(groups: seq<Group>, events: seq<Event>, x: Event, j: nat)
    requires GroupsSummed(groups, events) && GroupNames(groups) == Distinct(Venues(events))
    requires j < |groups| && groups[j].venue == x.venue
    ensures GroupsSummed(groups[j := Group(x.venue, groups[j].total + Attendance(x), groups[j].events + 1)], events + [x])
  {
    forall k | 0 <= k < |groups| && k != j
      ensures groups[k].venue != x.venue
    {
      assert GroupNames(groups)[k] != GroupNames(groups)[j];
    }
    GroupBump(groups, events, x, j);
  }

  /** Adding an event to its own group keeps every group summed, when no other group has its venue. */
  lemma GroupBump(groups: seq<Group>, events: seq<Event>, x: Event, j: nat)
    requires GroupsSummed(groups, events)
    requires j < |groups| && groups[j].venue == x.venue
    requires forall k :: 0 <= k < |groups| && k != j ==> groups[k].venue != x.venue
    ensures GroupsSummed(groups[j := Group(x.venue, groups[j].total + Attendance(x), groups[j].events + 1)], events + [x])
  {
    var updated := groups[j := Group(x.venue, groups[j].total + Attendance(x), groups[j].events + 1)];
    forall j' | 0 <= j' < |updated|
      ensures updated[j'].events == VenueCount(events + [x], updated[j'].venue)
      && updated[j'].total == VenueLoad(events + [x], updated[j'].venue)
    {
      SnocSums(events, x, updated[j'].venue);
    }
  }

  lemma GroupNew(groups: seq<Group>, events: seq<Event>, x: Event)
    requires GroupsSummed(groups, events)
    requires x.venue !in GroupNames(groups) && x.venue !in Venues(events)
    ensures GroupsSummed(groups + [Group(x.venue, Attendance(x), 1)], events + [x])
  {
    var extended := groups + [Group(x.venue, Attendance(x), 1)];
    forall j' | 0 <= j' < |extended|
      ensures extended[j'].events == VenueCount(events + [x], extended[j'].venue)
      && extended[j'].total == VenueLoad(events + [x], extended[j'].venue)
    {
      SnocSums(events, x, extended[j'].venue);
    }
  }

  /** Appending a new venue to the map's keys keeps them the distinct venues in first-occurrence order. */
  lemma NamesNew(groups: seq<Group>, events: seq<Event>, x: Event)
    requires GroupNames(groups) == Distinct(Venues(events))
    requires x.venue !in GroupNames(groups)
    ensures GroupNames(groups + [Group(x.venue, Attendance(x), 1)]) == Distinct(Venues(events + [x]))
  {
    var extended := groups + [Group(x.venue, Attendance(x), 1)];
    assert extended[..|groups|] == groups;
    SnocVenues(events, x);
    var vs := Venues(events) + [x.venue];
    assert vs[..|vs| - 1] == Venues(events);
  }

  lemma NamesSeen(groups: seq<Group>, events: seq<Event>, x: Event, j: nat)
    requires GroupNames(groups) == Distinct(Venues(events))
    requires j < |groups| && groups[j].venue == x.venue
    ensures GroupNames(groups[j := Group(x.venue, groups[j].total + Attendance(x), groups[j].events + 1)])
      == Distinct(Venues(events + [x]))
  {
    var updated := groups[j := Group(x.venue, groups[j].total + Attendance(x), groups[j].events + 1)];
    assert GroupNames(updated) == GroupNames(groups);
    assert x.venue in GroupNames(groups);
    SnocVenues(events, x);
    var vs := Venues(events) + [x.venue];
    assert vs[..|vs| - 1] == Venues(events);
  }

  /** One step of the `forEach`: `venues.set(venue, { total: total + attendance, events: events + 1 })`. */
  method AddToGroups(groups: seq<Group>, ghost events: seq<Event>, x: Event) returns (groups': seq<Group>)
    requires GroupNames(groups) == Distinct(Venues(events)) && GroupsSummed(groups, events)
    ensures GroupNames(groups') == Distinct(Venues(events + [x])) && GroupsSummed(groups', events + [x])
  {
    var j := IndexOf(GroupNames(groups), x.venue);
    if j >= 0 {
      GroupSeen(groups, events, x, j);
      NamesSeen(groups, events, x, j);
      groups' := groups[j := Group(x.venue, groups[j].total + Attendance(x), groups[j].events + 1)];
    } else {
      assert x.venue !in Venues(events);
      GroupNew(groups, events, x);
      NamesNew(groups, events, x);
      groups' := groups + [Group(x.venue, Attendance(x), 1)];
    }
  }

  /** Every group of the map holds at least one event. */
  lemma GroupsNonEmpty(groups: seq<Group>, events: seq<Event>)
    requires GroupNames(groups) == Distinct(Venues(events)) && GroupsSummed(groups, events)
    ensures forall j :: 0 <= j < |groups| ==> groups[j].events > 0
  {
    forall j | 0 <= j < |groups|
      ensures groups[j].events > 0
    {
      assert GroupNames(groups)[j] in Distinct(Venues(events));
    }
  }

  /**
   * The `forEach` that fills the `venues` map: one group per venue, in the
   * order the venues first occur, holding the number of events there and
   * their summed attendance.
   */
  method GroupByVenue(events: seq<Event>) returns (groups: seq<Group>)
    ensures GroupNames(groups) == Distinct(Venues(events))
    ensures GroupsSummed(groups, events)
    ensures forall j :: 0 <= j < |groups| ==> groups[j].events > 0
  {
    groups := [];
    var i := 0;
    ghost var done: seq<Event> := [];
    assert Venues(done) == [];
    while i < |events|
      invariant 0 <= i <= |events| && done == events[..i]
      invariant GroupNames(groups) == Distinct(Venues(done))
      invariant GroupsSummed(groups, done)
    {
      groups := AddToGroups(groups, done, events[i]);
      PrefixSnoc(events, i);
      done := done + [events[i]];
      i := i + 1;
    }
    assert done == events;
    GroupsNonEmpty(groups, events);
  }

  /** `name.length > 20 ? name.substring(0, 20) + "..." : name`. */
  function Truncate(name: string): (r: string)
    ensures |r| <= 23
    ensures |name| <= 20 ==> r == name
    ensures |name| > 20 ==> |r| == 23 && r[..20] == name[..20] && r[20..] == "..."
  {
    if |name| > 20 then name[..20] + "..." else name
  }

  datatype VenueRow = VenueRow(name: string, promedio: int, eventos: nat)

  function Promedio(v: VenueRow): real { v.promedio as real }

  /** One row of the chart: the shortened name and the rounded mean attendance of the group. */
  function RowOf(g: Group): (v: VenueRow)
    requires g.events > 0
    ensures v.name == Truncate(g.venue) && v.eventos == g.events
    ensures g.total / g.events as real - 0.5 < v.promedio as real <= g.total / g.events as real + 0.5
  {
    VenueRow(Truncate(g.venue), Round(g.total / g.events as real), g.events)
  }

  function Rows(groups: seq<Group>): (r: seq<VenueRow>)
    requires forall g :: g in groups ==> g.events > 0
    ensures |r| == |groups|
    ensures forall i :: 0 <= i < |groups| ==> r[i] == RowOf(groups[i])
  {
    seq(|groups|, (i: int) requires 0 <= i < |groups| => RowOf(groups[i]))
  }

  /** The first `n` rows of a descending order: still descending, some of the rows (all of them for n = |sorted|), and nothing after them is higher. */
  lemma TopRows(rows: seq<VenueRow>, sorted: seq<VenueRow>, top: seq<VenueRow>, n: nat)
    requires SortedDescBy(sorted, Promedio) && multiset(sorted) == multiset(rows) && n <= |sorted| && top == sorted[..n]
    ensures SortedDescBy(top, Promedio)
    ensures forall i, v :: 0 <= i < |top| && v in rows && v !in top ==> v.promedio <= top[i].promedio
    ensures multiset(top) <= multiset(rows)
    ensures n == |sorted| ==> multiset(top) == multiset(rows)
  {
    PrefixSubMultiset(sorted, n);
    assert n == |sorted| ==> top == sorted;
    forall i, v | 0 <= i < |top| && v in rows && v !in top
      ensures v.promedio <= top[i].promedio
    {
      assert v in multiset(sorted);
      var k :| 0 <= k < |sorted| && sorted[k] == v;
      assert Promedio(sorted[i]) >= Promedio(sorted[k]);
    }
  }

  /** Rows drawn from the groups' rows are rows of groups. */
  lemma RowsFromGroups(groups: seq<Group>, top: seq<VenueRow>)
    requires forall g :: g in groups ==> g.events > 0
    requires multiset(top) <= multiset(Rows(groups))
    ensures forall v :: v in top ==> exists g :: g in groups && v == RowOf(g)
  {
    var rows := Rows(groups);
    forall v | v in top
      ensures exists g :: g in groups && v == RowOf(g)
    {
      assert v in multiset(rows);
      var k :| 0 <= k < |rows| && rows[k] == v;
      assert groups[k] in groups;
    }
  }

  /**
   * `venueCapacityData`: the eight venues with the highest rounded mean
   * attendance, highest first.  The rows are drawn from the groups' rows,
   * each at most as often as it occurs there (all of them when there are
   * at most eight), and no row left out has a higher mean than one kept.
   */
  function VenueCapacityData(groups: seq<Group>): (r: seq<VenueRow>)
    requires forall g :: g in groups ==> g.events > 0
    ensures |r| == Min(8, |groups|)
    ensures SortedDescBy(r, Promedio)
    ensures multiset(r) <= multiset(Rows(groups))
    ensures |groups| <= 8 ==> multiset(r) == multiset(Rows(groups))
    ensures forall v :: v in r ==> exists g :: g in groups && v == RowOf(g)
    ensures forall i, v :: 0 <= i < |r| && v in Rows(groups) && v !in r ==> v.promedio <= r[i].promedio
  {
    var rows := Rows(groups);
    var sorted := SortDescBy(rows, Promedio);
    var top := Take(sorted, 8);
    TopRows(rows, sorted, top, Min(8, |sorted|));
    RowsFromGroups(groups, top);
    top
  }
}
