/**
 * The event detail page: the buzz of the event named in the route, the
 * influencers suggested from other events of its genre, the trend chart
 * that normalises each event's mentions by its own peak, the list of
 * events compared with it, and the page's sorted constant tables.
 */
module EventDetail {
  import opened Common
  import opened Seqs
  import opened Sorting
  import opened Calendar
  import opened Text
  import opened DigitalBuzz

  /** `buzzEvents.find(e => e.id === id)`. */
  function Find(events: seq<BuzzEvent>, id: string): (r: Option<BuzzEvent>)
    ensures r.None? <==> forall e :: e in events ==> e.id != id
    ensures r.Some? ==> r.value in events && r.value.id == id
    ensures r.Some? ==> exists k :: 0 <= k < |events| && events[k] == r.value && forall j :: 0 <= j < k ==> events[j].id != id
  {
    if events == [] then None
    else if events[0].id == id then
      assert events[0] in events;
      Some(events[0])
    else
      var r := Find(events[1..], id);
      if r.Some? then
        var k :| 0 <= k < |events[1..]| && events[1..][k] == r.value && forall j :: 0 <= j < k ==> events[1..][j].id != id;
        assert events[k + 1] == r.value;
        r
      else r
  }

  /** An event with its generated series, score, growth and hashtags (`allEventsBuzz`). */
  datatype EventBuzz = EventBuzz(event: BuzzEvent, mentions: seq<int>, buzzScore: int, growth: int, hashtags: Hashtags)

  /** What `generateWeeklyMentions` and the formulas give for an event. */
  ghost predicate Describes(b: EventBuzz, e: BuzzEvent)
  {
    b.event == e && |b.mentions| == 12 && (forall j :: 0 <= j < 12 ==> b.mentions[j] >= 50)
    && b.buzzScore == BuzzScore(e, b.mentions) && b.growth == Growth(b.mentions) && b.hashtags == MakeHashtags(e)
  }

  /** The buzz of one event. */
  method BuzzOf(e: BuzzEvent, exp: real -> real) returns (b: EventBuzz)
    requires Valid(e.fecha)
    requires forall x :: exp(x) > 0.0
    ensures Describes(b, e)
  {
    var mentions := WeeklyMentions(e, exp);
    b := EventBuzz(e, mentions, BuzzScore(e, mentions), Growth(mentions), MakeHashtags(e));
  }

  /** `r` holds the buzz of each event of `events`, position by position. */
  ghost predicate DescribesEach(r: seq<EventBuzz>, events: seq<BuzzEvent>)
  {
    |r| == |events| && forall i :: 0 <= i < |r| ==> Describes(r[i], events[i])
  }

  lemma DescribesSnoc(r: seq<EventBuzz>, events: seq<BuzzEvent>, b: EventBuzz, e: BuzzEvent)
    requires DescribesEach(r, events) && Describes(b, e)
    ensures DescribesEach(r + [b], events + [e])
  {
    assert forall i :: 0 <= i < |r| ==> (r + [b])[i] == r[i] && (events + [e])[i] == events[i];
  }

  /** `allEventsBuzz`: the buzz of every event, in catalogue order. */
  method AllEventsBuzz(events: seq<BuzzEvent>, exp: real -> real) returns (r: seq<EventBuzz>)
    requires forall e :: e in events ==> Valid(e.fecha)
    requires forall x :: exp(x) > 0.0
    ensures |r| == |events|
    ensures DescribesEach(r, events)
  {
    r := [];
    var i := 0;
    ghost var done: seq<BuzzEvent> := [];
    while i < |events|
      invariant 0 <= i <= |events| && done == events[..i]
      invariant DescribesEach(r, done)
    {
      var b := BuzzOf(events[i], exp);
      DescribesSnoc(r, done, b, events[i]);
      PrefixSnoc(events, i);
      r := r + [b];
      done := done + [events[i]];
      i := i + 1;
    }
    assert done == events;
  }

  /** `currentEventBuzz`: the event's buzz with its influencers and annotations. */
  datatype CurrentBuzz = CurrentBuzz(buzz: EventBuzz, influencers: seq<Influencer>, annotations: seq<Annotation>)

  /** `currentEventBuzz`: nothing when no event has the route's id, otherwise the buzz of the first that has it. */
  method CurrentEventBuzz(events: seq<BuzzEvent>, id: string, exp: real -> real) returns (r: Option<CurrentBuzz>)
    requires forall e :: e in events ==> Valid(e.fecha)
    requires forall x :: exp(x) > 0.0
    ensures r.None? <==> forall e :: e in events ==> e.id != id
    ensures r.Some? ==> Find(events, id).Some? && Describes(r.value.buzz, Find(events, id).value)
    ensures r.Some? ==> |r.value.influencers| == 5 && SortedDescBy(r.value.influencers, Engagement)
    ensures r.Some? ==> 2 <= |r.value.annotations| <= 3
  {
    var found := Find(events, id);
    if found.None? {
      return None;
    }
    var e := found.value;
    var b := BuzzOf(e, exp);
    var influencers := Influencers(e, 5);
    var annotations := Annotations(e);
    r := Some(CurrentBuzz(b, influencers, annotations));
  }

  /** Another event of the same genre. */
  predicate Similar(e: BuzzEvent, current: BuzzEvent)
  {
    e.genero == current.genero && e.id != current.id
  }

  /** The number of events similar to `current`. */
  function SimilarCount(events: seq<BuzzEvent>, current: BuzzEvent): nat
  {
    if events == [] then 0
    else SimilarCount(events[..|events| - 1], current) + (if Similar(events[|events| - 1], current) then 1 else 0)
  }

  /** Every pooled influencer was generated for an event similar to `current`. */
  ghost predicate FromSimilar(pool: seq<Influencer>, events: seq<BuzzEvent>, current: BuzzEvent)
  {
    forall x :: x in pool ==> exists e :: e in events && Similar(e, current) && WellFormed(x, Sentiment(e))
  }

  /** One step of the `flatMap`: the five influencers of `e` join the pool when `e` is similar. */
  method PoolStep(pool: seq<Influencer>, ghost seen: seq<BuzzEvent>, e: BuzzEvent, current: BuzzEvent)
    returns (pool': seq<Influencer>)
    requires |pool| == 5 * SimilarCount(seen, current) && FromSimilar(pool, seen, current)
    ensures |pool'| == 5 * SimilarCount(seen + [e], current) && FromSimilar(pool', seen + [e], current)
  {
    assert (seen + [e])[..|seen|] == seen;
    pool' := pool;
    if Similar(e, current) {
      var generated := Influencers(e, 5);
      pool' := pool + generated;
      forall x | x in pool'
        ensures exists e' :: e' in seen + [e] && Similar(e', current) && WellFormed(x, Sentiment(e'))
      {
        if x in pool {
          var e' :| e' in seen && Similar(e', current) && WellFormed(x, Sentiment(e'));
          assert e' in seen + [e];
        } else {
          assert e in seen + [e];
        }
      }
    } else {
      forall x | x in pool'
        ensures exists e' :: e' in seen + [e] && Similar(e', current) && WellFormed(x, Sentiment(e'))
      {
        var e' :| e' in seen && Similar(e', current) && WellFormed(x, Sentiment(e'));
        assert e' in seen + [e];
      }
    }
  }

  /** `.sort((a, b) => b.engagement - a.engagement).slice(0, 3)`: three distinct places of the pool, the most engaged, highest first. */
  function TopThree(pool: seq<Influencer>): (r: seq<Influencer>)
    ensures |r| == Min(3, |pool|)
    ensures SortedDescBy(r, Engagement)
    ensures multiset(r) <= multiset(pool)
    ensures forall x :: x in r ==> x in pool
    ensures forall i, y :: 0 <= i < |r| && y in pool && y !in r ==> Engagement(r[i]) >= Engagement(y)
  {
    var n := Min(3, |pool|);
    DescPrefixIsTop(pool, Engagement, n);
    SortDescBy(pool, Engagement)[..n]
  }

  /**
   * `suggestedInfluencers`: the five generated influencers of every other
   * event of the current genre, pooled, and the three with the most
   * engagement, highest first.
   */
  method SuggestedInfluencers(events: seq<BuzzEvent>, current: BuzzEvent) returns (r: seq<Influencer>, ghost pool: seq<Influencer>)
    ensures |pool| == 5 * SimilarCount(events, current)
    ensures FromSimilar(pool, events, current)
    ensures r == TopThree(pool)
    ensures |r| == Min(3, 5 * SimilarCount(events, current))
  {
    var all: seq<Influencer> := [];
    var i := 0;
    while i < |events|
      invariant 0 <= i <= |events|
      invariant |all| == 5 * SimilarCount(events[..i], current)
      invariant FromSimilar(all, events[..i], current)
    {
      assert events[..i + 1] == events[..i] + [events[i]];
      all := PoolStep(all, events[..i], events[i], current);
      i := i + 1;
    }
    assert events[..i] == events;
    pool := all;
    r := TopThree(all);
  }

  // ---------------------------------------------------------------------
  // The trend chart

  datatype WeeksRange = Four | Eight | Twelve

  function Weeks(w: WeeksRange): nat
  {
    match w
    case Four => 4
    case Eight => 8
    case Twelve => 12
  }

  /** `Math.max(...mentions)` when it is positive, else 0. */
  function Peak(mentions: seq<int>): (p: int)
    ensures p >= 0
    ensures forall i :: 0 <= i < |mentions| ==> mentions[i] <= p
    ensures p > 0 ==> exists i :: 0 <= i < |mentions| && mentions[i] == p
  {
    if mentions == [] then 0
    else
      var p := Peak(mentions[..|mentions| - 1]);
      if mentions[|mentions| - 1] > p then mentions[|mentions| - 1] else p
  }

  /** `event.mentions[k] || 0`. */
  function MentionAt(mentions: seq<int>, k: int): int
  {
    if 0 <= k < |mentions| then mentions[k] else 0
  }

  /** `Math.round(normalized)`: the week's mentions as a percentage of the event's peak, 0 for an event without mentions. */
  function Normalized(mentions: seq<int>, k: int): (v: int)
    ensures MentionAt(mentions, k) >= 0 ==> 0 <= v <= 100
    ensures MentionAt(mentions, k) == Peak(mentions) && Peak(mentions) > 0 ==> v == 100
  {
    var m := MentionAt(mentions, k);
    var peak := Peak(mentions);
    if peak > 0 then
      assert m <= peak;
      Percentage(m, peak);
      Round(m as real / peak as real * 100.0)
    else 0
  }

  /** A share of a positive peak, as a rounded percentage, lies in [0, 100] and is 100 at the peak. */
  lemma Percentage(m: int, peak: int)
    requires 0 < peak && m <= peak
    ensures m >= 0 ==> 0 <= Round(m as real / peak as real * 100.0) <= 100
    ensures m == peak ==> Round(m as real / peak as real * 100.0) == 100
  {
    var x := m as real / peak as real * 100.0;
    if m >= 0 {
      assert m as real / peak as real <= 1.0;
      RoundWithin(x, 0, 100);
    }
    if m == peak {
      assert m as real / peak as real == 1.0;
      assert Round(100.0) == 100;
    }
  }

  /** One point of the chart: its label and one value per plotted event. */
  datatype Point = Point(week: string, values: seq<int>)

  /** The label of point `idx`: "W-n", counting down to "W-1". */
  function WeekLabel(w: WeeksRange, idx: nat): string
    requires idx < Weeks(w)
  {
    "W-" + NatToString(Weeks(w) - idx)
  }

  /**
   * `trendData`: one point per week of the range, labelled from
   * "W-range" down to "W-1", each holding every plotted event's value for
   * that week of its last `range` weeks, normalised by its own peak.
   */
  function TrendData(selected: seq<EventBuzz>, w: WeeksRange): (r: seq<Point>)
    ensures |r| == Weeks(w)
    ensures forall idx :: 0 <= idx < |r| ==> r[idx].week == WeekLabel(w, idx) && |r[idx].values| == |selected|
    ensures forall idx, j :: 0 <= idx < |r| && 0 <= j < |selected| ==>
      r[idx].values[j] == Normalized(selected[j].mentions, 12 - Weeks(w) + idx)
  {
    seq(Weeks(w), (idx: int) requires 0 <= idx < Weeks(w) =>
      Point(WeekLabel(w, idx), seq(|selected|, (j: int) requires 0 <= j < |selected| => Normalized(selected[j].mentions, 12 - Weeks(w) + idx))))
  }

  /** With generated series, every plotted value lies in [0, 100]. */
  lemma TrendWithinScale(selected: seq<EventBuzz>, w: WeeksRange)
    requires forall j :: 0 <= j < |selected| ==> |selected[j].mentions| == 12 && forall k :: 0 <= k < 12 ==> selected[j].mentions[k] >= 50
    ensures forall idx, j :: 0 <= idx < Weeks(w) && 0 <= j < |selected| ==> 0 <= TrendData(selected, w)[idx].values[j] <= 100
  {
    forall idx, j | 0 <= idx < Weeks(w) && 0 <= j < |selected|
      ensures 0 <= TrendData(selected, w)[idx].values[j] <= 100
    {
      assert MentionAt(selected[j].mentions, 12 - Weeks(w) + idx) >= 50;
    }
  }

  /** The plotted events: the current one alone, or every event whose id is the current or a compared one. */
  function SelectedEvents(current: EventBuzz, comparison: seq<string>, all: seq<EventBuzz>): (r: seq<EventBuzz>)
    ensures comparison == [] ==> r == [current]
    ensures comparison != [] ==> forall b :: b in r <==> b in all && (b.event.id == current.event.id || b.event.id in comparison)
    ensures comparison != [] ==> IsSubsequence(r, all)
  {
    if comparison == [] then [current]
    else
      var wanted := [current.event.id] + comparison;
      FilterIsSubsequence(all, (b: EventBuzz) => b.event.id in wanted);
      Filter(all, (b: EventBuzz) => b.event.id in wanted)
  }

  // ---------------------------------------------------------------------
  // The comparison list

  /** Another event in the current event's city. */
  predicate OtherInCity(b: EventBuzz, current: EventBuzz)
  {
    b.event.ciudad == current.event.ciudad && b.event.id != current.event.id
  }

  /**
   * The events offered for comparison: the first three of the other events
   * in the current city, in catalogue order (all of them when there are
   * fewer).
   */
  function Candidates(all: seq<EventBuzz>, current: EventBuzz): (r: seq<EventBuzz>)
    ensures |r| == Min(3, Count(all, (b: EventBuzz) => OtherInCity(b, current)))
    ensures forall b :: b in r ==> b in all && b.event.ciudad == current.event.ciudad && b.event.id != current.event.id
    ensures r <= Filter(all, (b: EventBuzz) => OtherInCity(b, current))
    ensures IsSubsequence(r, all)
  {
    var others := Filter(all, (b: EventBuzz) => OtherInCity(b, current));
    var r := Take(others, 3);
    PrefixIsSubsequence(r, others);
    FilterIsSubsequence(all, (b: EventBuzz) => OtherInCity(b, current));
    SubsequenceTransitive(r, others, all);
    r
  }

  /** `comparisonEvents`, the ids compared with the current event. */
  class Comparison {
    var ids: seq<string>

    /**
     * Candidates are offered only while the list is empty, so it never
     * holds more than one id and the chart compares at most two events.
     */
    ghost predicate Valid()
      reads this
    {
      |ids| <= 1
    }

    constructor()
      ensures ids == [] && Valid()
    {
      ids := [];
    }

    /** A click on an offered candidate (offered only while the list is empty). */
    method Add(id: string)
      requires ids == []
      modifies this
      ensures ids == old(ids) + [id] && Valid()
    {
      ids := ids + [id];
    }

    /** A click on a compared event drops exactly that id. */
    method Remove(id: string)
      requires Valid()
      modifies this
      ensures forall x :: x in ids <==> x in old(ids) && x != id
      ensures IsSubsequence(ids, old(ids))
      ensures Valid()
    {
      FilterIsSubsequence(ids, (x: string) => x != id);
      ids := Filter(ids, (x: string) => x != id);
    }

    /** "Limpiar". */
    method Clear()
      modifies this
      ensures ids == [] && Valid()
    {
      ids := [];
    }
  }

  // ---------------------------------------------------------------------
  // Constant tables

  datatype Song = Song(song: string, rank: int)
  datatype Spins = Spins(station: string, totalSpins: int)

  function SongRank(s: Song): real { s.rank as real }
  function StationSpins(s: Spins): real { s.totalSpins as real }

  /** `musicCatalog`: the songs, sorted by chart rank, best first (image URLs left out). */
  function MusicCatalog(): (r: seq<Song>)
    ensures |r| == 5 && SortedBy(r, SongRank)
  {
    SortBy([Song("Monaco", 8), Song("Un x100to", 23), Song("Where She Goes", 45), Song("Tití Me Preguntó", 67), Song("Callaita", 124)], SongRank)
  }

  /** `radioData`: the stations, most spins first. */
  function RadioData(): (r: seq<Spins>)
    ensures |r| == 4 && SortedDescBy(r, StationSpins)
  {
    SortDescBy([Spins("Los 40 (99.3 FM)", 187), Spins("Ke Buena (92.9 FM)", 142), Spins("La Z (107.3 FM)", 98), Spins("Exa FM (104.9 FM)", 76)], StationSpins)
  }
}
