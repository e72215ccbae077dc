/**
 * The artist recommendation panel: a table of artists per country and
 * city, filtered by genre and ordered by digital score, radio score or
 * their even blend; the blended score shown beside each artist; and the
 * city selection that follows the country selection.
 */
module ArtistRecommendation {
  import opened Common
  import opened Seqs
  import opened Sorting

  datatype Trend = Up | Down | Stable

  /** `ArtistData`. */
  datatype Artist = Artist(
    id: string,
    name: string,
    genre: string,
    digitalScore: int,
    radioScore: int,
    streams: string,
    followers: string,
    playlists: int,
    monthlyListeners: string,
    spins: int,
    stations: int,
    trend: Trend)

  /** One city of `artistDataByCountryCity[country]`, in key order. */
  datatype City = City(name: string, artists: seq<Artist>)

  /** One country of `artistDataByCountryCity`, in key order. */
  datatype Country = Country(name: string, cities: seq<City>)

  /**
   * `artistDataByCountryCity[country] || {}`: the country's cities, none for
   * an unknown country.  An object literal holds each key once; the table
   * as a sequence answers with its first entry of that name.
   */
  function CitiesOf(table: seq<Country>, country: string): (r: seq<City>)
    ensures (forall c :: c in table ==> c.name != country) ==> r == []
    ensures r != [] ==> Country(country, r) in table
    ensures forall i :: 0 <= i < |table| && table[i].name == country && (forall k :: 0 <= k < i ==> table[k].name != country) ==>
      r == table[i].cities
  {
    if table == [] then []
    else if table[0].name == country then table[0].cities
    else
      var r := CitiesOf(table[1..], country);
      assert forall i :: 0 < i < |table| ==> table[1..][i - 1] == table[i];
      r
  }

  /** `Object.keys(...)`: the city names of a country, in order. */
  function CityNames(table: seq<Country>, country: string): (r: seq<string>)
    ensures |r| == |CitiesOf(table, country)|
    ensures forall i :: 0 <= i < |r| ==> r[i] == CitiesOf(table, country)[i].name
  {
    MapSeq(CitiesOf(table, country), (c: City) => c.name)
  }

  /** `countryData[city] || []`: the city's artists, none for an unknown city. */
  function ArtistsOf(cities: seq<City>, city: string): (r: seq<Artist>)
    ensures (forall c :: c in cities ==> c.name != city) ==> r == []
    ensures r != [] ==> City(city, r) in cities
    ensures forall i :: 0 <= i < |cities| && cities[i].name == city && (forall k :: 0 <= k < i ==> cities[k].name != city) ==>
      r == cities[i].artists
  {
    if cities == [] then []
    else if cities[0].name == city then cities[0].artists
    else
      var r := ArtistsOf(cities[1..], city);
      assert forall i :: 0 < i < |cities| ==> cities[1..][i - 1] == cities[i];
      r
  }

  /** The genre filter: everything for "Todos", else the artists of that genre. */
  function ByGenre(data: seq<Artist>, genre: string): (r: seq<Artist>)
    ensures genre == "Todos" ==> r == data
    ensures genre != "Todos" ==> forall a :: a in r <==> a in data && a.genre == genre
    ensures IsSubsequence(r, data)
  {
    if genre == "Todos" then
      SubsequenceReflexive(data);
      data
    else
      FilterIsSubsequence(data, (a: Artist) => a.genre == genre);
      Filter(data, (a: Artist) => a.genre == genre)
  }

  datatype Mode = Combined | Digital | Radio

  /** The value the comparator orders by, highest first. */
  function ModeKey(mode: Mode): Artist -> real
  {
    (a: Artist) =>
      match mode
      case Digital => a.digitalScore as real
      case Radio => a.radioScore as real
      case Combined => a.digitalScore as real * 0.5 + a.radioScore as real * 0.5
  }

  /**
   * `artists`: the selected city's artists of the selected genre, as a
   * sorted copy, highest first on the mode's value.
   */
  function Artists(table: seq<Country>, country: string, city: string, genre: string, mode: Mode): (r: seq<Artist>)
    ensures forall a :: a in r <==> a in ArtistsOf(CitiesOf(table, country), city) && (genre == "Todos" || a.genre == genre)
    ensures multiset(r) == multiset(ByGenre(ArtistsOf(CitiesOf(table, country), city), genre))
    ensures SortedDescBy(r, ModeKey(mode))
  {
    var filtered := ByGenre(ArtistsOf(CitiesOf(table, country), city), genre);
    var r := SortDescBy(filtered, ModeKey(mode));
    assert forall a :: a in r <==> a in multiset(filtered);
    r
  }

  /** A country or city missing from the table shows no artists. */
  lemma UnknownPlaceIsEmpty(table: seq<Country>, country: string, city: string, genre: string, mode: Mode)
    requires (forall c :: c in table ==> c.name != country)
      || (forall c :: c in CitiesOf(table, country) ==> c.name != city)
    ensures Artists(table, country, city, genre, mode) == []
  {
  }

  /** `getCombinedScore`: the even blend of the two scores, rounded, which lies between them. */
  function CombinedScore(a: Artist): (s: int)
    ensures Min(a.digitalScore, a.radioScore) <= s <= Max(a.digitalScore, a.radioScore)
    ensures a.digitalScore == a.radioScore ==> s == a.digitalScore
  {
    var blend := a.digitalScore as real * 0.5 + a.radioScore as real * 0.5;
    RoundWithin(blend, Min(a.digitalScore, a.radioScore), Max(a.digitalScore, a.radioScore));
    Round(blend)
  }

  /** In combined mode, the shown scores never increase down the list. */
  lemma ShownScoresDescend(r: seq<Artist>, i: nat, j: nat)
    requires SortedDescBy(r, ModeKey(Combined)) && i < j < |r|
    ensures CombinedScore(r[i]) >= CombinedScore(r[j])
  {
    var key := ModeKey(Combined);
    assert key(r[i]) >= key(r[j]);
    RoundMonotone(key(r[j]), key(r[i]));
  }

  /** The panel's selections. */
  class Selection {
    var country: string
    var city: string
    var genre: string
    var mode: Mode

    /** The initial selection: Mexico City, every genre, combined order. */
    constructor()
      ensures country == "México" && city == "CDMX" && genre == "Todos" && mode == Combined
    {
      country := "México";
      city := "CDMX";
      genre := "Todos";
      mode := Combined;
    }

    /** The city belongs to the selected country, or is empty when the country has none. */
    ghost predicate Consistent(table: seq<Country>)
      reads this
    {
      var names := CityNames(table, country);
      (names == [] ==> city == "") && (names != [] ==> city in names)
    }

    /**
     * A new country, then the reset: the city stays when the new country
     * has it and otherwise becomes the country's first city, or "" when it
     * has none.
     */
    method SelectCountry(table: seq<Country>, c: string)
      modifies this
      ensures country == c && genre == old(genre) && mode == old(mode)
      ensures old(city) in CityNames(table, c) ==> city == old(city)
      ensures old(city) !in CityNames(table, c) && CityNames(table, c) != [] ==> city == CityNames(table, c)[0]
      ensures CityNames(table, c) == [] ==> city == ""
      ensures Consistent(table)
    {
      country := c;
      var available := CityNames(table, c);
      if city !in available {
        city := if available != [] then available[0] else "";
      }
    }

    /** The artists shown for the current selection. */
    function Shown(table: seq<Country>): (r: seq<Artist>)
      reads this
      ensures multiset(r) == multiset(ByGenre(ArtistsOf(CitiesOf(table, country), city), genre))
      ensures SortedDescBy(r, ModeKey(mode))
    {
      Artists(table, country, city, genre, mode)
    }
  }
}
