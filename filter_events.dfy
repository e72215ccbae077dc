/**
 * The cutoff filter over the event catalogue: only the events dated on or
 * after the 24th of November 2025 are kept, and the three counts logged
 * beside it (original, kept, eliminated).  Both sides of the comparison are
 * date-only strings, so both are midnight UTC and the comparison is one of
 * calendar days; a date that does not parse compares false and is dropped.
 */
module FilterEvents {
  import opened Calendar
  import opened Catalog
  import opened Seqs

  const CutoffDate: Date := Date(2025, 11, 24)

  /** `eventDate >= cutoffDate`. */
  predicate OnOrAfterCutoff(e: Event)
  {
    e.dateISO.Some? && AtOrAfter(e.dateISO.value, CutoffDate)
  }

  /** `filteredEvents`. */
  function FilteredEvents(events: seq<Event>): (r: seq<Event>)
    ensures forall e :: e in r <==> e in events && e.dateISO.Some? && !Before(e.dateISO.value, CutoffDate)
    ensures IsSubsequence(r, events)
  {
    FilterIsSubsequence(events, OnOrAfterCutoff);
    Filter(events, OnOrAfterCutoff)
  }

  /** Every event the filter drops either has no readable date or falls before the cutoff. */
  lemma DroppedEvents(events: seq<Event>, e: Event)
    requires e in events && e !in FilteredEvents(events)
    ensures e.dateISO.None? || Before(e.dateISO.value, CutoffDate)
  {
  }

  /** A catalogue dated entirely from the cutoff on is kept whole. */
  lemma NothingToDrop(events: seq<Event>)
    requires forall e :: e in events ==> e.dateISO.Some? && !Before(e.dateISO.value, CutoffDate)
    ensures FilteredEvents(events) == events
  {
    FilterTrue(events, OnOrAfterCutoff);
  }

  /** The day-number reading of the test: on or after day number of the cutoff. */
  lemma CutoffByDayNumber(e: Event)
    requires e.dateISO.Some? && Valid(e.dateISO.value)
    ensures OnOrAfterCutoff(e) <==> DayNumber(e.dateISO.value) >= DayNumber(CutoffDate)
  {
    OrderAgrees(e.dateISO.value, CutoffDate);
  }

  /** The three logged counts. */
  datatype Counts = Counts(original: nat, kept: nat, eliminated: int)

  function CountsOf(events: seq<Event>): (c: Counts)
    ensures c.original == |events| && c.kept == |FilteredEvents(events)|
    ensures c.eliminated == c.original - c.kept
    ensures 0 <= c.eliminated <= c.original
  {
    var kept := FilteredEvents(events);
    Counts(|events|, |kept|, |events| - |kept|)
  }

  /** The eliminated count is exactly the number of events without a date on or after the cutoff. */
  lemma EliminatedCountsDropped(events: seq<Event>)
    ensures CountsOf(events).eliminated == |Filter(events, (e: Event) => !OnOrAfterCutoff(e))|
  {
    FilterSplit(events);
  }

  lemma {:induction false} FilterSplit(events: seq<Event>)
    ensures |Filter(events, OnOrAfterCutoff)| + |Filter(events, (e: Event) => !OnOrAfterCutoff(e))| == |events|
  {
    if events != [] {
      FilterSplit(events[..|events| - 1]);
    }
  }
}
