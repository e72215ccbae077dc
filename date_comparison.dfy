/**
 * The date-viability analysis of the "Comparar fechas" report: for a chosen
 * day, the catalogue events on that day and in the week around it, a genre
 * breakdown, the committed capacity, the mean occupancy, and a
 * recommendation score that starts at 100, moves by fixed bands and is
 * clamped to [0, 100].
 */
module DateComparison {
  import opened Common
  import opened Seqs
  import opened Calendar
  import opened Catalog
  import opened Tally

  /**
   * `0 < |differenceInDays(day, parseISO(e.date))| <= 7`.  A date that does
   * not parse makes the difference NaN and the test false.
   */
  function Nearby(e: Event, day: Date): (b: bool)
    ensures b <==> (Valid(day) && e.date.Some? && Valid(e.date.value) && e.date.value != day
      && -7 <= DayNumber(e.date.value) - DayNumber(day) <= 7)
  {
    Valid(day) && e.date.Some? && Valid(e.date.value) && 0 < DayDistance(day, e.date.value) <= 7
  }

  /** The week around `day`, without `day` itself: never overlaps the same-day events. */
  function NearbyEvents(events: seq<Event>, day: Date): (r: seq<Event>)
    ensures forall e :: e in r <==> e in events && Nearby(e, day)
    ensures forall e :: e in r ==> !OnDay(e.date, day)
    ensures IsSubsequence(r, events)
  {
    var near := (e: Event) => Nearby(e, day);
    FilterIsSubsequence(events, near);
    Filter(events, near)
  }

  /** `eventsOnDate.reduce((s, e) => s + (e.occupancyRate || 75), 0) / eventsOnDate.length`, or 0 with no events. */
  function AverageOccupancy(events: seq<Event>): (r: real)
    ensures events == [] ==> r == 0.0
    ensures events != [] ==> r * |events| as real == SumReal(events, OccupancyOrDefault)
  {
    if events == [] then 0.0 else SumReal(events, OccupancyOrDefault) / |events| as real
  }

  // ---------------------------------------------------------------------
  // Score bands

  /** The same-day band: the four cases are exclusive and cover every count. */
  function SameDayImpact(n: nat): (i: int)
    ensures i == 20 <==> n == 0
    ensures i == -30 <==> n >= 5
    ensures i == -15 <==> 3 <= n <= 4
    ensures i == 0 <==> 1 <= n <= 2
  {
    if n == 0 then 20 else if n >= 5 then -30 else if n >= 3 then -15 else 0
  }

  /** The nearby band: fewer than 3 helps, more than 10 hurts, 3 to 10 is neutral. */
  function NearbyImpact(n: nat): (i: int)
    ensures i == 15 <==> n < 3
    ensures i == -20 <==> n > 10
    ensures i == 0 <==> 3 <= n <= 10
  {
    if n < 3 then 15 else if n > 10 then -20 else 0
  }

  /** Only a committed capacity above 50000 costs 10 points. */
  function CapacityImpact(capacity: int): (i: int)
    ensures i == -10 <==> capacity > 50000
    ensures i == 0 <==> capacity <= 50000
  {
    if capacity > 50000 then -10 else 0
  }

  /** Friday (5) and Saturday (6) add 10 points. */
  function WeekendImpact(weekday: int): (i: int)
    ensures i == 10 <==> weekday == 5 || weekday == 6
    ensures i == 0 <==> weekday != 5 && weekday != 6
  {
    if weekday == 5 || weekday == 6 then 10 else 0
  }

  /** The score before clamping: whatever the inputs, between 40 and 145. */
  function RawScore(sameDay: nat, nearby: nat, capacity: int, weekday: int): (s: int)
    ensures 40 <= s <= 145
  {
    100 + SameDayImpact(sameDay) + NearbyImpact(nearby) + CapacityImpact(capacity) + WeekendImpact(weekday)
  }

  datatype Polarity = Positive | Negative

  /** An entry of `recommendationFactors`. */
  datatype Factor = Factor(text: string, impact: int, kind: Polarity)

  function TotalImpact(factors: seq<Factor>): int
  {
    if factors == [] then 0 else TotalImpact(factors[..|factors| - 1]) + factors[|factors| - 1].impact
  }

  lemma TotalImpactSnoc(factors: seq<Factor>, f: Factor)
    ensures TotalImpact(factors + [f]) == TotalImpact(factors) + f.impact
  {
    assert (factors + [f])[..|factors|] == factors;
  }

  /** A factor is marked positive exactly when it raises the score, and none is neutral. */
  predicate WellMarked(f: Factor)
  {
    (f.kind == Positive <==> f.impact > 0) && f.impact != 0
  }

  /** One `recommendationFactors.push(f)` together with `recommendationScore += f.impact`. */
  method Push(score: int, factors: seq<Factor>, f: Factor) returns (score': int, factors': seq<Factor>)
    requires WellMarked(f) && Accounted(score, factors)
    ensures factors' == factors + [f] && score' == score + f.impact
    ensures Accounted(score', factors')
  {
    TotalImpactSnoc(factors, f);
    factors' := factors + [f];
    score' := score + f.impact;
  }

  /** The factors so far are well marked and account for the score. */
  predicate Accounted(score: int, factors: seq<Factor>)
  {
    score == 100 + TotalImpact(factors) && forall g :: g in factors ==> WellMarked(g)
  }

  /** Lines 40-49: the same-day band. */
  method SameDayStep(score: int, factors: seq<Factor>, sameDay: nat) returns (score': int, factors': seq<Factor>)
    requires Accounted(score, factors)
    ensures Accounted(score', factors')
    ensures score' == score + SameDayImpact(sameDay)
    ensures |factors'| <= |factors| + 1
  {
    score', factors' := score, factors;
    if sameDay == 0 {
      score', factors' := Push(score, factors, Factor("Sin eventos programados", 20, Positive));
    } else if sameDay >= 5 {
      score', factors' := Push(score, factors, Factor("D\U{00ED}a muy saturado", -30, Negative));
    } else if sameDay >= 3 {
      score', factors' := Push(score, factors, Factor("M\U{00FA}ltiples eventos", -15, Negative));
    }
  }

  /** Lines 51-57: the nearby band. */
  method NearbyStep(score: int, factors: seq<Factor>, nearby: nat) returns (score': int, factors': seq<Factor>)
    requires Accounted(score, factors)
    ensures Accounted(score', factors')
    ensures score' == score + NearbyImpact(nearby)
    ensures |factors'| <= |factors| + 1
  {
    score', factors' := score, factors;
    if nearby < 3 {
      score', factors' := Push(score, factors, Factor("Poca competencia cercana", 15, Positive));
    } else if nearby > 10 {
      score', factors' := Push(score, factors, Factor("Alta competencia en la semana", -20, Negative));
    }
  }

  /** Lines 59-68: the capacity and weekend adjustments. */
  method CapacityAndWeekendSteps(score: int, factors: seq<Factor>, capacity: int, weekday: int)
    returns (score': int, factors': seq<Factor>)
    requires Accounted(score, factors)
    ensures Accounted(score', factors')
    ensures score' == score + CapacityImpact(capacity) + WeekendImpact(weekday)
    ensures |factors'| <= |factors| + 2
  {
    score', factors' := score, factors;
    if capacity > 50000 {
      score', factors' := Push(score', factors', Factor("Alta capacidad comprometida", -10, Negative));
    }
    if weekday == 5 || weekday == 6 {
      score', factors' := Push(score', factors', Factor("Fin de semana (mayor asistencia)", 10, Positive));
    }
  }

  /**
   * The scoring steps of `dateAnalysis`: each band that applies pushes a
   * factor and moves the score by the same amount, then the score is
   * clamped.  The factors add up to the unclamped score, and the clamped
   * score never falls below 40.
   */
  method Recommend(sameDay: nat, nearby: nat, capacity: int, weekday: int) returns (score: int, factors: seq<Factor>)
    ensures 100 + TotalImpact(factors) == RawScore(sameDay, nearby, capacity, weekday)
    ensures forall f :: f in factors ==> WellMarked(f)
    ensures |factors| <= 4
    ensures score == Clamp(RawScore(sameDay, nearby, capacity, weekday), 0, 100)
    ensures 40 <= score <= 100
  {
    score := 100;
    factors := [];
    score, factors := SameDayStep(score, factors, sameDay);
    score, factors := NearbyStep(score, factors, nearby);
    score, factors := CapacityAndWeekendSteps(score, factors, capacity, weekday);
    score := Max(0, Min(100, score));
  }

  // ---------------------------------------------------------------------
  // Level

  datatype Level = Excelente | Buena | Media | Baja

  /** `getRecommendationLevel`. */
  function LevelOf(score: int): (l: Level)
    ensures l == Excelente <==> score >= 80
    ensures l == Buena <==> 60 <= score < 80
    ensures l == Media <==> 40 <= score < 60
    ensures l == Baja <==> score < 40
  {
    if score >= 80 then Excelente else if score >= 60 then Buena else if score >= 40 then Media else Baja
  }

  function Rank(l: Level): nat
  {
    match l
    case Baja => 0
    case Media => 1
    case Buena => 2
    case Excelente => 3
  }

  /** A higher score never gets a lower level. */
  lemma LevelMonotone(a: int, b: int)
    requires a <= b
    ensures Rank(LevelOf(a)) <= Rank(LevelOf(b))
  {
  }

  // ---------------------------------------------------------------------
  // The whole analysis

  datatype Analysis = Analysis(
    eventsOnDate: seq<Event>,
    nearbyEvents: seq<Event>,
    genreBreakdown: seq<Entry<string>>,
    totalCapacity: nat,
    avgOccupancy: real,
    score: int,
    level: Level,
    factors: seq<Factor>,
    weekday: int)

  /**
   * `dateAnalysis`: nothing without a selected day; otherwise the partition
   * into same-day and nearby events, the breakdown by genre (whose counts add
   * up to the same-day count), the capacity and occupancy figures and the
   * recommendation, which is never "Baja".
   */
  method Analyze(events: seq<Event>, selected: Option<Date>) returns (a: Option<Analysis>)
    requires selected.Some? ==> Valid(selected.value)
    ensures selected.None? <==> a.None?
    ensures a.Some? ==>
      var day := selected.value;
      var r := a.value;
      r.eventsOnDate == EventsOnDate(events, day)
      && r.nearbyEvents == NearbyEvents(events, day)
      && Keys(r.genreBreakdown) == Distinct(Genres(r.eventsOnDate))
      && (forall i :: 0 <= i < |r.genreBreakdown| ==>
            r.genreBreakdown[i].count == Occurrences(Genres(r.eventsOnDate), r.genreBreakdown[i].key))
      && Total(r.genreBreakdown) == |r.eventsOnDate|
      && r.totalCapacity == TotalCapacity(r.eventsOnDate)
      && r.avgOccupancy == AverageOccupancy(r.eventsOnDate)
      && r.weekday == WeekdayOf(day)
      && r.score == Clamp(RawScore(|r.eventsOnDate|, |r.nearbyEvents|, r.totalCapacity, r.weekday), 0, 100)
      && 100 + TotalImpact(r.factors) == RawScore(|r.eventsOnDate|, |r.nearbyEvents|, r.totalCapacity, r.weekday)
      && (forall f :: f in r.factors ==> WellMarked(f))
      && (CapacityImpact(r.totalCapacity) < 0 ==> r.eventsOnDate != [])
      && 40 <= r.score <= 100
      && r.level == LevelOf(r.score) && r.level != Baja
  {
    if selected.None? {
      return None;
    }
    var day := selected.value;
    var onDate := EventsOnDate(events, day);
    var near := NearbyEvents(events, day);
    var breakdown := CountByKey(Genres(onDate));
    var capacity := TotalCapacity(onDate);
    var occupancy := AverageOccupancy(onDate);
    var weekday := WeekdayOf(day);
    var score, factors := Recommend(|onDate|, |near|, capacity, weekday);
    a := Some(Analysis(onDate, near, breakdown, capacity, occupancy, score, LevelOf(score), factors, weekday));
  }
}
