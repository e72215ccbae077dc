/**
 * The events ranking: the `dias` window read off the dashboard's date
 * range, the query string sent to the ranking endpoint, the events the
 * response yields, the tab that filters and orders them, and the avatar
 * initial with its colour.
 */
module EventsRanking {
  import opened Common
  import opened Seqs
  import opened Sorting
  import opened Text
  import Detections

  /** `Evento`, one row of the ranking endpoint's answer. */
  datatype Evento = Evento(
    eventGroupId: int,
    nombreEvento: string,
    artista: string,
    ciudad: string,
    venue: string,
    fecha: string,
    spots: int,
    menciones: int,
    total: int,
    alcance: int)

  // ---------------------------------------------------------------------
  // getDiasFromContext

  /** A context value JavaScript treats as false: missing or the empty string. */
  predicate Falsy(v: Option<string>)
  {
    v.None? || v.value == ""
  }

  /**
   * `getDiasFromContext`: 0 for a missing range and for "todos" in any
   * case; otherwise the first of "7", "14", "30", "60", "90"/"3 meses" that
   * the lower-cased text contains; 0 when none does.
   */
  function DiasFromContext(rango: Option<string>): (d: nat)
    ensures d == 0 || d == 7 || d == 14 || d == 30 || d == 60 || d == 90
    ensures Falsy(rango) ==> d == 0
  {
    if Falsy(rango) then 0
    else
      var texto := ToLower(rango.value);
      if texto == "todos" then 0
      else if Contains(texto, "7") then 7
      else if Contains(texto, "14") then 14
      else if Contains(texto, "30") then 30
      else if Contains(texto, "60") then 60
      else if Contains(texto, "90") || Contains(texto, "3 meses") then 90
      else 0
  }

  /** The window is the first match in the order 7, 14, 30, 60, 90; "todos" in any case and no match give 0. */
  lemma FirstMatchWins(rango: string)
    ensures var d := DiasFromContext(Some(rango));
      var t := ToLower(rango);
      (t == "todos" ==> d == 0)
      && (d == 7 <==> t != "todos" && Contains(t, "7"))
      && (d == 14 <==> t != "todos" && !Contains(t, "7") && Contains(t, "14"))
      && (d == 30 <==> t != "todos" && !Contains(t, "7") && !Contains(t, "14") && Contains(t, "30"))
      && (d == 60 <==> t != "todos" && !Contains(t, "7") && !Contains(t, "14") && !Contains(t, "30") && Contains(t, "60"))
      && (d == 90 <==>
            t != "todos" && !Contains(t, "7") && !Contains(t, "14") && !Contains(t, "30") && !Contains(t, "60")
            && (Contains(t, "90") || Contains(t, "3 meses")))
  {
  }

  /** A text without any digit and without "3 meses" gives no window, whatever else it says ("Este mes"). */
  lemma NoDigitNoWindow(rango: string)
    requires forall i :: 0 <= i < |rango| ==> !('0' <= rango[i] <= '9')
    ensures DiasFromContext(Some(rango)) == 0
  {
    var t := ToLower(rango);
    assert forall i :: 0 <= i < |t| ==> !('0' <= t[i] <= '9');
    DigitFree(t, "7");
    DigitFree(t, "14");
    DigitFree(t, "30");
    DigitFree(t, "60");
    DigitFree(t, "90");
    DigitFree(t, "3 meses");
  }

  /** A text without digits contains nothing that starts with a digit. */
  lemma {:induction false} DigitFree(t: string, s: string)
    requires s != [] && '0' <= s[0] <= '9'
    requires forall i :: 0 <= i < |t| ==> !('0' <= t[i] <= '9')
    ensures !Contains(t, s)
    decreases |t|
  {
    if t != [] {
      DigitFree(t[1..], s);
    }
  }

  // ---------------------------------------------------------------------
  // The query string

  /** The text of a context value, `""` when it is missing. */
  function Given(v: Option<string>): string
  {
    if v.Some? then v.value else ""
  }

  /** The query parameters, in the order the fetch appends them. */
  datatype Name = Pais | Ciudad | Venue | Dias

  /** The parameter's name in the query string. */
  function Spelling(n: Name): string
  {
    match n
    case Pais => "pais"
    case Ciudad => "ciudad"
    case Venue => "venue"
    case Dias => "dias"
  }

  function Position(n: Name): nat
  {
    match n
    case Pais => 0
    case Ciudad => 1
    case Venue => 2
    case Dias => 3
  }

  datatype Param = Param(name: Name, value: string)

  predicate SendsCountry(country: Option<string>)
  {
    !Falsy(country) && country.value != "Todos"
  }

  predicate SendsCity(city: Option<string>)
  {
    !Falsy(city) && city.value != "Todos" && city.value != "Todas"
  }

  /** Only the exact "Todos" is held back: any other spelling is sent. */
  predicate SendsVenue(venue: Option<string>)
  {
    !Falsy(venue) && venue.value != "Todos"
  }

  predicate Named(params: seq<Param>, name: Name)
  {
    exists p :: p in params && p.name == name
  }

  /** The parameters come in the order of their names. */
  predicate Ordered(params: seq<Param>)
  {
    forall i, j :: 0 <= i < j < |params| ==> Position(params[i].name) < Position(params[j].name)
  }

  /** `name` is present exactly when `sent`, and then with `value`. */
  predicate SentAs(params: seq<Param>, name: Name, sent: bool, value: string)
  {
    (Named(params, name) <==> sent) && forall p :: p in params && p.name == name ==> p.value == value
  }

  /** No parameter is positioned at or after `name`. */
  predicate Before(params: seq<Param>, name: Name)
  {
    forall p :: p in params ==> Position(p.name) < Position(name)
  }

  /** One `params.append(name, value)` under `sent`, after every earlier parameter. */
  method AppendIf(params: seq<Param>, sent: bool, name: Name, value: string) returns (r: seq<Param>)
    requires Ordered(params) && Before(params, name)
    ensures Ordered(r)
    ensures SentAs(r, name, sent, value)
    ensures forall p :: p in r ==> p in params || p == Param(name, value)
    ensures forall p :: p in params ==> p in r
  {
    r := params;
    if sent {
      r := r + [Param(name, value)];
      assert r[|r| - 1] in r;
    }
  }

  /**
   * The `URLSearchParams` of the fetch, appended one by one: each filter
   * is sent exactly when it is set and not a "select everything" value,
   * with its own value, in the order country, city, venue, days.
   */
  method QueryParams(country: Option<string>, city: Option<string>, venue: Option<string>, dateRange: Option<string>)
    returns (params: seq<Param>)
    ensures Ordered(params)
    ensures SentAs(params, Pais, SendsCountry(country), Given(country))
    ensures SentAs(params, Ciudad, SendsCity(city), Given(city))
    ensures SentAs(params, Venue, SendsVenue(venue), Given(venue))
    ensures SentAs(params, Dias, DiasFromContext(dateRange) > 0, NatToString(DiasFromContext(dateRange)))
  {
    var p0: seq<Param> := [];
    var p1 := AppendIf(p0, SendsCountry(country), Pais, Given(country));
    var p2 := AppendIf(p1, SendsCity(city), Ciudad, Given(city));
    SentAsKept(p1, p2, Ciudad, Pais, SendsCountry(country), Given(country));
    var p3 := AppendIf(p2, SendsVenue(venue), Venue, Given(venue));
    SentAsKept(p2, p3, Venue, Pais, SendsCountry(country), Given(country));
    SentAsKept(p2, p3, Venue, Ciudad, SendsCity(city), Given(city));
    var dias := DiasFromContext(dateRange);
    params := AppendIf(p3, dias > 0, Dias, NatToString(dias));
    SentAsKept(p3, params, Dias, Pais, SendsCountry(country), Given(country));
    SentAsKept(p3, params, Dias, Ciudad, SendsCity(city), Given(city));
    SentAsKept(p3, params, Dias, Venue, SendsVenue(venue), Given(venue));
  }

  /** Appending a parameter under another name leaves what is sent under `n` as it was. */
  lemma SentAsKept(params: seq<Param>, r: seq<Param>, name: Name, n: Name, sent: bool, value: string)
    requires n != name && SentAs(params, n, sent, value)
    requires forall p :: p in r ==> p in params || p.name == name
    requires forall p :: p in params ==> p in r
    ensures SentAs(r, n, sent, value)
  {
  }

  /** The venue "todos" in lower case is still sent, unlike the country's and the city's. */
  lemma LowercaseVenueSent()
    ensures SendsVenue(Some("todos")) && !SendsCountry(Some("Todos")) && !SendsCity(Some("Todas"))
  {
  }

  // ---------------------------------------------------------------------
  // The response

  /** The parsed JSON body: an array of events or anything else; `Failed` is a thrown fetch or parse. */
  datatype Response = JsonArray(items: seq<Evento>) | OtherJson | Failed

  /** `Array.isArray(data) ? data : []`, and `[]` in the `catch`. */
  function EventsOf(resp: Response): (r: seq<Evento>)
    ensures resp.JsonArray? ==> r == resp.items
    ensures !resp.JsonArray? ==> r == []
  {
    if resp.JsonArray? then resp.items else []
  }

  // ---------------------------------------------------------------------
  // The tabs

  function SpotsKey(e: Evento): real { e.spots as real }
  function MencionesKey(e: Evento): real { e.menciones as real }
  function TotalKey(e: Evento): real { e.total as real }
  predicate HasSpots(e: Evento) { e.spots > 0 }
  predicate HasMentions(e: Evento) { e.menciones > 0 }

  /** `.filter(p).sort((a, b) => key(b) - key(a))`: the kept events, highest key first. */
  function KeepSorted(events: seq<Evento>, p: Evento -> bool, key: Evento -> real): (r: seq<Evento>)
    ensures forall e :: e in r <==> e in events && p(e)
    ensures multiset(r) == multiset(Filter(events, p))
    ensures SortedDescBy(r, key)
  {
    var kept := Filter(events, p);
    var r := SortDescBy(kept, key);
    assert forall e :: e in r <==> e in multiset(kept);
    r
  }

  /**
   * `filteredAndSortedEvents`: the "spots" tab keeps the events with spots
   * and puts the most spots first; the "mentions" tab does the same with
   * mentions; any other tab shows every event, highest total first.
   */
  function Tabbed(events: seq<Evento>, tab: string): (r: seq<Evento>)
    ensures tab == "spots" ==>
      (forall e :: e in r <==> e in events && e.spots > 0)
      && multiset(r) == multiset(Filter(events, HasSpots))
      && SortedDescBy(r, SpotsKey)
    ensures tab == "mentions" ==>
      (forall e :: e in r <==> e in events && e.menciones > 0)
      && multiset(r) == multiset(Filter(events, HasMentions))
      && SortedDescBy(r, MencionesKey)
    ensures tab != "spots" && tab != "mentions" ==>
      multiset(r) == multiset(events) && SortedDescBy(r, TotalKey)
  {
    if tab == "spots" then KeepSorted(events, HasSpots, SpotsKey)
    else if tab == "mentions" then KeepSorted(events, HasMentions, MencionesKey)
    else SortDescBy(events, TotalKey)
  }

  /** The component's state: the fetched events and the active tab. */
  class EventsView {
    var events: seq<Evento>
    var activeTab: string

    /** `useState([])` and `useState("all")`. */
    constructor()
      ensures events == [] && activeTab == "all"
    {
      events := [];
      activeTab := "all";
    }

    /** `setEvents` after a fetch. */
    method Load(resp: Response)
      modifies this
      ensures events == EventsOf(resp) && activeTab == old(activeTab)
    {
      events := EventsOf(resp);
    }

    method SelectTab(tab: string)
      modifies this
      ensures activeTab == tab && events == old(events)
    {
      activeTab := tab;
    }

    /**
     * The shown list.  It is built from a copy (`[...events]`), so it reads
     * the stored events and changes nothing: the stored order survives any
     * number of tab switches.
     */
    method FilteredAndSorted() returns (r: seq<Evento>)
      ensures r == Tabbed(events, activeTab)
      ensures multiset(r) <= multiset(events)
    {
      var filtered := events;
      if activeTab == "spots" {
        filtered := KeepSorted(filtered, HasSpots, SpotsKey);
        FilterSubMultiset(events, HasSpots);
      } else if activeTab == "mentions" {
        filtered := KeepSorted(filtered, HasMentions, MencionesKey);
        FilterSubMultiset(events, HasMentions);
      } else {
        filtered := SortDescBy(filtered, TotalKey);
      }
      r := filtered;
    }
  }

  /** A filtered sequence holds no element more often than its source. */
  lemma {:induction false} FilterSubMultiset<T(!new)>(s: seq<T>, p: T -> bool)
    ensures multiset(Filter(s, p)) <= multiset(s)
  {
    if s != [] {
      var init := s[..|s| - 1];
      FilterSubMultiset(init, p);
      assert s == init + [s[|s| - 1]];
    }
  }

  // ---------------------------------------------------------------------
  // Avatar

  /** `getInitial`: "?" for an empty artist, else the upper-cased first character. */
  function Initial(artist: string): (r: string)
    ensures artist == [] ==> r == "?"
    ensures artist != [] ==> r == Detections.Initial(artist)
  {
    if artist == [] then "?" else Detections.Initial(artist)
  }

  /** Every artist, the empty one included, gets one of the eight colours. */
  lemma EveryArtistColoured(artist: string)
    ensures Detections.ColourIndex(Initial(artist)).Some?
    ensures Detections.ColourIndex(Initial(artist)).value < 8
    ensures artist == [] ==> Detections.ColourIndex(Initial(artist)).value == 7
  {
  }
}
