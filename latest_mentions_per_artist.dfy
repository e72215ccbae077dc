/**
 * The mentions page of one artist: which artist it shows, the artist's
 * detections (matched without regard to case), the first `limit` of them,
 * and the summary figures computed once the detections arrive.
 */
module LatestMentionsPerArtist {
  import opened Common
  import opened Seqs
  import opened Text
  import opened Detections

  /** `propArtistName || decodeURIComponent(paramArtistName || "")`, the route parameter given already decoded. */
  function ArtistName(prop: Option<string>, param: Option<string>): (name: string)
    ensures prop.Some? && prop.value != "" ==> name == prop.value
    ensures (prop.None? || prop.value == "") && param.Some? ==> name == param.value
    ensures (prop.None? || prop.value == "") && param.None? ==> name == ""
  {
    if prop.Some? && prop.value != "" then prop.value
    else if param.Some? then param.value
    else ""
  }

  predicate IsArtist(d: Detection, name: string)
  {
    ToLower(d.artista) == ToLower(name)
  }

  /** `artistDetections`: the detections whose artist equals `name` ignoring case, in feed order. */
  function ArtistDetections(dets: seq<Detection>, name: string): (r: seq<Detection>)
    ensures forall d :: d in r <==> d in dets && ToLower(d.artista) == ToLower(name)
    ensures IsSubsequence(r, dets)
  {
    FilterIsSubsequence(dets, (d: Detection) => IsArtist(d, name));
    Filter(dets, (d: Detection) => IsArtist(d, name))
  }

  /** Writing the artist's name in another case selects the same detections. */
  lemma CaseBlind(dets: seq<Detection>, name: string)
    ensures ArtistDetections(dets, ToLower(name)) == ArtistDetections(dets, name)
  {
    ToLowerIdempotent(name);
    FilterCongruent(dets, (d: Detection) => IsArtist(d, ToLower(name)), (d: Detection) => IsArtist(d, name));
  }

  /** The summary figures of the page. */
  datatype Stats = Stats(
    total: nat,
    spots: nat,
    mentions: nat,
    ciudades: seq<string>,
    emisoras: seq<string>,
    venues: seq<string>,
    ultimaDeteccion: string,
    primeraDeteccion: string)

  /** `useState({ total: 0, ... })`. */
  const NoStats := Stats(0, 0, 0, [], [], [], "", "")

  /** `d.Venue || "No especificado"`. */
  function VenueOrPlaceholder(d: Detection): string
  {
    if d.venue == "" then "No especificado" else d.venue
  }

  function Ciudad(d: Detection): string { d.ciudad }
  function Emisora(d: Detection): string { d.emisora }

  /** `v !== "No especificado"`. */
  predicate IsNamed(v: string) { v != "No especificado" }

  /** The venues named by the detections, without the placeholder and without repeats. */
  function NamedVenues(matches: seq<Detection>): (r: seq<string>)
    ensures forall v :: v in r ==> v != "" && v != "No especificado"
    ensures forall d :: d in matches && d.venue != "" && d.venue != "No especificado" ==> d.venue in r
    ensures forall v :: v in r ==> exists d :: d in matches && d.venue == v
    ensures forall i, j :: 0 <= i < j < |r| ==> r[i] != r[j]
  {
    var labels := MapSeq(matches, VenueOrPlaceholder);
    var kept := Filter(labels, IsNamed);
    forall d | d in matches && d.venue != "" && d.venue != "No especificado"
      ensures d.venue in kept
    {
      var i :| 0 <= i < |matches| && matches[i] == d;
      assert labels[i] == d.venue;
    }
    forall v | v in kept
      ensures exists d :: d in matches && d.venue == v
    {
      var i :| 0 <= i < |labels| && labels[i] == v;
      assert matches[i] in matches;
    }
    Distinct(kept)
  }

  /** The named venues are listed in the order in which the matches first name them. */
  lemma NamedVenuesOrder(matches: seq<Detection>)
    ensures InFirstOccurrenceOrder(NamedVenues(matches), MapSeq(matches, VenueOrPlaceholder))
  {
    var labels := MapSeq(matches, VenueOrPlaceholder);
    var kept := Filter(labels, IsNamed);
    var r := Distinct(kept);
    assert NamedVenues(matches) == r;
    FilterFirstOrder(labels, IsNamed);
    forall i, j | 0 <= i < j < |r|
      ensures r[i] in labels && r[j] in labels && FirstIndex(labels, r[i]) < FirstIndex(labels, r[j])
    {
      assert r[i] in kept && r[j] in kept;
    }
  }

  /** The instant a stamp sorts by; an invalid stamp sorts as instant 0. */
  function Instant(d: Detection): real
  {
    if d.hora.at.Some? then d.hora.at.value as real else 0.0
  }

  /**
   * `sortedByDate[0]`: the sort is stable and puts the latest first, so it
   * is the first of the latest matches.
   */
  function Latest(s: seq<Detection>): (d: Detection)
    requires s != []
    ensures d in s && forall e :: e in s ==> Instant(d) >= Instant(e)
  {
    if |s| == 1 then s[0]
    else
      var m := Latest(s[..|s| - 1]);
      if Instant(s[|s| - 1]) > Instant(m) then s[|s| - 1] else m
  }

  /**
   * `sortedByDate[sortedByDate.length - 1]`: the last of the earliest
   * matches, for the same reason.
   */
  function Earliest(s: seq<Detection>): (d: Detection)
    requires s != []
    ensures d in s && forall e :: e in s ==> Instant(d) <= Instant(e)
  {
    if |s| == 1 then s[0]
    else
      var m := Earliest(s[..|s| - 1]);
      if Instant(s[|s| - 1]) <= Instant(m) then s[|s| - 1] else m
  }

  predicate IsSpot(d: Detection) { d.tipo == "SPOT" }
  predicate IsMention(d: Detection) { d.tipo == "MENCION" }

  /** The figures of a non-empty match list. */
  function StatsOf(matches: seq<Detection>): (s: Stats)
    requires matches != []
    ensures s.total == |matches| && s.spots + s.mentions <= s.total
  {
    TypedWithinTotal(matches);
    Stats(
      |matches|,
      Count(matches, IsSpot),
      Count(matches, IsMention),
      ValuesOnce(matches, Ciudad),
      ValuesOnce(matches, Emisora),
      NamedVenues(matches),
      Latest(matches).hora.text,
      Earliest(matches).hora.text)
  }

  /**
   * `[...new Set(matches.map(f))]`: each value some match has, once, in the
   * order in which the matches first show it.
   */
  function ValuesOnce(matches: seq<Detection>, f: Detection -> string): (r: seq<string>)
    ensures forall c :: c in r <==> exists d :: d in matches && f(d) == c
    ensures forall i, j :: 0 <= i < j < |r| ==> r[i] != r[j]
    ensures InFirstOccurrenceOrder(r, MapSeq(matches, f))
  {
    var values := MapSeq(matches, f);
    forall c ensures c in values <==> exists d :: d in matches && f(d) == c
    {
      if c in values {
        var i :| 0 <= i < |values| && values[i] == c;
        assert matches[i] in matches;
      }
      if exists d :: d in matches && f(d) == c {
        var d :| d in matches && f(d) == c;
        var i :| 0 <= i < |matches| && matches[i] == d;
        assert values[i] == c;
      }
    }
    Distinct(values)
  }

  /**
   * What the figures mean: the cities and the stations of the matches,
   * each once and in the order the matches first name them, and the named
   * venues in the order the matches first name them.
   */
  lemma StatsFacts(matches: seq<Detection>)
    requires matches != []
    ensures var s := StatsOf(matches);
      (forall c :: c in s.ciudades <==> exists d :: d in matches && d.ciudad == c)
      && (forall i, j :: 0 <= i < j < |s.ciudades| ==> s.ciudades[i] != s.ciudades[j])
      && (forall e :: e in s.emisoras <==> exists d :: d in matches && d.emisora == e)
      && (forall i, j :: 0 <= i < j < |s.emisoras| ==> s.emisoras[i] != s.emisoras[j])
      && (forall v :: v in s.venues ==> v != "" && v != "No especificado")
    ensures InFirstOccurrenceOrder(StatsOf(matches).ciudades, MapSeq(matches, Ciudad))
    ensures InFirstOccurrenceOrder(StatsOf(matches).emisoras, MapSeq(matches, Emisora))
    ensures InFirstOccurrenceOrder(StatsOf(matches).venues, MapSeq(matches, VenueOrPlaceholder))
  {
    var s := StatsOf(matches);
    assert s.ciudades == ValuesOnce(matches, Ciudad);
    assert s.emisoras == ValuesOnce(matches, Emisora);
    assert s.venues == NamedVenues(matches);
    NamedVenuesOrder(matches);
  }

  /** `ultimaDeteccion` is the stamp of a latest match and `primeraDeteccion` that of an earliest one. */
  lemma Extremes(matches: seq<Detection>)
    requires matches != []
    ensures var s := StatsOf(matches);
      (exists d :: d in matches && s.ultimaDeteccion == d.hora.text && forall e :: e in matches ==> Instant(d) >= Instant(e))
      && (exists d :: d in matches && s.primeraDeteccion == d.hora.text && forall e :: e in matches ==> Instant(d) <= Instant(e))
  {
    var s, latest, earliest := StatsOf(matches), Latest(matches), Earliest(matches);
    assert s.ultimaDeteccion == latest.hora.text && s.primeraDeteccion == earliest.hora.text;
    assert latest in matches && earliest in matches;
  }

  /** Spots and mentions never add up to more than the total. */
  lemma {:induction false} TypedWithinTotal(matches: seq<Detection>)
    ensures Count(matches, IsSpot) + Count(matches, IsMention) <= |matches|
  {
    if matches != [] {
      var init := matches[..|matches| - 1];
      TypedWithinTotal(init);
      assert matches == init + [matches[|matches| - 1]];
      FilterConcat(init, [matches[|matches| - 1]], IsSpot);
      FilterConcat(init, [matches[|matches| - 1]], IsMention);
    }
  }

  /**
   * The statistics block: the total; the spot and mention counts, which
   * never exceed it and are zero exactly when no match has that type; the
   * cities and the stations of the matches, each once, in the order the
   * matches first name them; the named venues in that order; and the
   * stamps of `newest` and `oldest`, a newest and an oldest match, which
   * head and end the newest-first sort.
   */
  method Figures(matches: seq<Detection>) returns (s: Stats, newest: Detection, oldest: Detection)
    requires matches != []
    ensures s == StatsOf(matches)
    ensures s.total == |matches| && s.spots + s.mentions <= s.total
    ensures s.spots == 0 <==> forall d :: d in matches ==> d.tipo != "SPOT"
    ensures s.mentions == 0 <==> forall d :: d in matches ==> d.tipo != "MENCION"
    ensures forall c :: c in s.ciudades <==> exists d :: d in matches && d.ciudad == c
    ensures forall i, j :: 0 <= i < j < |s.ciudades| ==> s.ciudades[i] != s.ciudades[j]
    ensures InFirstOccurrenceOrder(s.ciudades, MapSeq(matches, Ciudad))
    ensures forall e :: e in s.emisoras <==> exists d :: d in matches && d.emisora == e
    ensures forall i, j :: 0 <= i < j < |s.emisoras| ==> s.emisoras[i] != s.emisoras[j]
    ensures InFirstOccurrenceOrder(s.emisoras, MapSeq(matches, Emisora))
    ensures forall v :: v in s.venues ==> v != "" && v != "No especificado"
    ensures InFirstOccurrenceOrder(s.venues, MapSeq(matches, VenueOrPlaceholder))
    ensures newest in matches && forall e :: e in matches ==> Instant(newest) >= Instant(e)
    ensures oldest in matches && forall e :: e in matches ==> Instant(oldest) <= Instant(e)
    ensures s.ultimaDeteccion == newest.hora.text && s.primeraDeteccion == oldest.hora.text
  {
    var spots := Count(matches, IsSpot);
    var mentions := Count(matches, IsMention);
    var ciudades := ValuesOnce(matches, Ciudad);
    var emisoras := ValuesOnce(matches, Emisora);
    var venues := NamedVenues(matches);
    newest, oldest := Latest(matches), Earliest(matches);
    s := Stats(|matches|, spots, mentions, ciudades, emisoras, venues, newest.hora.text, oldest.hora.text);
    TypedWithinTotal(matches);
    NamedVenuesOrder(matches);
  }

  /** The page's state. */
  class ArtistPage {
    var detecciones: seq<Detection>
    var filtered: seq<Detection>
    var stats: Stats

    constructor()
      ensures detecciones == [] && filtered == [] && stats == NoStats
    {
      detecciones := [];
      filtered := [];
      stats := NoStats;
    }

    /** The shown list and figures belong to the stored detections. */
    ghost predicate Coherent(limit: int)
      reads this
    {
      filtered == Take(detecciones, limit) && (detecciones != [] ==> stats == StatsOf(detecciones))
    }

    /** Stores the artist's detections, the first `limit` of them and, when there is one, their figures. */
    method Show(matches: seq<Detection>, limit: int)
      modifies this
      ensures detecciones == matches && Coherent(limit)
      ensures matches == [] ==> stats == old(stats)
    {
      detecciones := matches;
      filtered := Take(matches, limit);
      if matches != [] {
        var newest, oldest;
        stats, newest, oldest := Figures(matches);
      }
    }

    /**
     * The effect: nothing without an artist name or when the fetch fails
     * (`feed` is `None`); otherwise the artist's detections, the first
     * `limit` of them, and the figures when there is at least one.  With
     * no detection the figures keep whatever they held.
     */
    method Load(feed: Option<seq<Detection>>, name: string, limit: int)
      modifies this
      ensures name == "" || feed.None? ==> detecciones == old(detecciones) && filtered == old(filtered) && stats == old(stats)
      ensures name != "" && feed.Some? ==> detecciones == ArtistDetections(feed.value, name) && Coherent(limit)
      ensures name != "" && feed.Some? && detecciones == [] ==> stats == old(stats)
    {
      if name != "" && feed.Some? {
        Show(ArtistDetections(feed.value, name), limit);
      }
    }
  }

  /** On a fresh page, an artist without detections shows the zero figures. */
  method FirstLoadWithoutMatches(feed: seq<Detection>, name: string, limit: int) returns (page: ArtistPage)
    requires name != "" && ArtistDetections(feed, name) == []
    ensures page.stats == NoStats && page.filtered == []
  {
    page := new ArtistPage();
    page.Load(Some(feed), name, limit);
  }
}
