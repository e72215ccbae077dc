/**
 * The "Competencia por género" report: for every event of the selected
 * genre, the other catalogue events in the same city within four days of
 * it (of any genre), a competition level, the competitors' capacity, and
 * the ranking of events from least to most contested; then the number of
 * events at each level for the chart.
 */
module GenreCompetition {
  import opened Seqs
  import opened Sorting
  import opened Calendar
  import opened Catalog

  /**
   * `other` competes with `e`: a different id, the same city, and both
   * `dateISO` values parse to days at most four apart.
   */
  predicate Competes(e: Event, other: Event)
  {
    other.id != e.id && other.city == e.city
    && e.dateISO.Some? && Valid(e.dateISO.value)
    && other.dateISO.Some? && Valid(other.dateISO.value)
    && DayDistance(e.dateISO.value, other.dateISO.value) <= 4
  }

  /** Competition is mutual. */
  lemma CompetesSymmetric(a: Event, b: Event)
    ensures Competes(a, b) <==> Competes(b, a)
  {
  }

  /** `nearbyEvents`: the competitors of `e` drawn from the whole catalogue, in catalogue order. */
  function Competitors(catalog: seq<Event>, e: Event): (r: seq<Event>)
    ensures forall o :: o in r <==> o in catalog && Competes(e, o)
    ensures e !in r
    ensures forall o :: o in r ==> o.city == e.city
    ensures e.dateISO.None? ==> r == []
    ensures IsSubsequence(r, catalog)
  {
    var competes := (o: Event) => Competes(e, o);
    FilterIsSubsequence(catalog, competes);
    var r := Filter(catalog, competes);
    assert r != [] ==> r[0] in r;
    r
  }

  datatype Level = Baja | Media | Alta

  /** `competitionLevel`. */
  function LevelOf(n: nat): (l: Level)
    ensures l == Baja <==> n == 0
    ensures l == Media <==> 1 <= n <= 2
    ensures l == Alta <==> n >= 3
  {
    if n == 0 then Baja else if n <= 2 then Media else Alta
  }

  /** One row of `competitionData`. */
  datatype Scored = Scored(
    event: Event,
    nearbyEventsCount: nat,
    competitionLevel: Level,
    totalNearbyCapacity: nat,
    nearbyEvents: seq<Event>)

  function NearbyCount(s: Scored): real { s.nearbyEventsCount as real }

  /** The row of `e`: its competitors, how many, the level and their capacity, which excludes `e` itself. */
  function ScoreOf(catalog: seq<Event>, e: Event): (s: Scored)
    ensures s.event == e && s.nearbyEvents == Competitors(catalog, e)
    ensures s.nearbyEventsCount == |s.nearbyEvents|
    ensures s.competitionLevel == LevelOf(s.nearbyEventsCount)
    ensures s.totalNearbyCapacity == TotalCapacity(s.nearbyEvents)
  {
    var near := Competitors(catalog, e);
    Scored(e, |near|, LevelOf(|near|), TotalCapacity(near), near)
  }

  /** The events scored: the whole catalogue for "todos", otherwise those of the genre. */
  function Selected(catalog: seq<Event>, genre: string): (r: seq<Event>)
    ensures genre == "todos" ==> r == catalog
    ensures genre != "todos" ==> forall e :: e in r <==> e in catalog && e.genre == genre
  {
    if genre == "todos" then catalog else Filter(catalog, (e: Event) => e.genre == genre)
  }

  /** `genres`: "todos", then each genre of the catalogue once, in order of first appearance. */
  function GenreOptions(catalog: seq<Event>): (r: seq<string>)
    ensures |r| >= 1 && r[0] == "todos"
    ensures forall g :: g in r[1..] <==> exists e :: e in catalog && e.genre == g
    ensures forall i, j :: 1 <= i < j < |r| ==> r[i] != r[j]
  {
    ["todos"] + Distinct(Genres(catalog))
  }

  /** Every genre the selector lists after "todos" selects at least one event. */
  lemma EveryOptionSelects(catalog: seq<Event>, g: string)
    requires g in GenreOptions(catalog)[1..]
    ensures Selected(catalog, g) != []
  {
    var i :| 0 <= i < |Genres(catalog)| && Genres(catalog)[i] == g;
    assert catalog[i] in Selected(catalog, g);
  }

  /**
   * `competitionData`: one row per selected event, ordered from the fewest
   * competitors to the most (ties keep catalogue order).  The genre only
   * chooses the rows: every row's competitors come from the whole
   * catalogue.
   */
  function CompetitionData(catalog: seq<Event>, genre: string): (r: seq<Scored>)
    ensures SortedBy(r, NearbyCount)
    ensures multiset(r) == multiset(MapSeq(Selected(catalog, genre), (e: Event) => ScoreOf(catalog, e)))
    ensures |r| == |Selected(catalog, genre)|
  {
    SortBy(MapSeq(Selected(catalog, genre), (e: Event) => ScoreOf(catalog, e)), NearbyCount)
  }

  /** Every row of the report scores a selected event against the whole catalogue. */
  lemma RowsScoreWholeCatalog(catalog: seq<Event>, genre: string, s: Scored)
    requires s in CompetitionData(catalog, genre)
    ensures s.event in Selected(catalog, genre)
    ensures s.nearbyEvents == Competitors(catalog, s.event)
    ensures s.event !in s.nearbyEvents
  {
    var e := RowSource(catalog, genre, s);
  }

  /** Each row is the score of one selected event. */
  lemma RowSource(catalog: seq<Event>, genre: string, s: Scored) returns (e: Event)
    requires s in CompetitionData(catalog, genre)
    ensures e in Selected(catalog, genre) && s == ScoreOf(catalog, e)
  {
    var rows := MapSeq(Selected(catalog, genre), (e: Event) => ScoreOf(catalog, e));
    assert s in multiset(CompetitionData(catalog, genre));
    assert s in multiset(rows);
    e := MapSeqSource(Selected(catalog, genre), (e: Event) => ScoreOf(catalog, e), s);
  }

  // ---------------------------------------------------------------------
  // chartData

  function LevelCount(rows: seq<Scored>, l: Level): (n: nat)
    ensures n <= |rows|
  {
    if rows == [] then 0
    else LevelCount(rows[..|rows| - 1], l) + (if rows[|rows| - 1].competitionLevel == l then 1 else 0)
  }

  /** `chartData`: `counts[level]++` for every row.  The three counts add up to the number of rows. */
  method ChartCounts(rows: seq<Scored>) returns (baja: nat, media: nat, alta: nat)
    ensures baja == LevelCount(rows, Baja)
    ensures media == LevelCount(rows, Media)
    ensures alta == LevelCount(rows, Alta)
    ensures baja + media + alta == |rows|
  {
    baja, media, alta := 0, 0, 0;
    var i := 0;
    while i < |rows|
      invariant 0 <= i <= |rows|
      invariant baja == LevelCount(rows[..i], Baja)
      invariant media == LevelCount(rows[..i], Media)
      invariant alta == LevelCount(rows[..i], Alta)
      invariant baja + media + alta == i
    {
      assert rows[..i + 1][..i] == rows[..i];
      match rows[i].competitionLevel {
        case Baja => baja := baja + 1;
        case Media => media := media + 1;
        case Alta => alta := alta + 1;
      }
      i := i + 1;
    }
    assert rows[..i] == rows;
  }
}
