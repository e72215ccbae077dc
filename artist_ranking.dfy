/**
 * The artist ranking of the dashboard: detections grouped by lower-cased
 * artist name into one entry per artist (counters, latest detection and the
 * fields shown from it), merged with the server's top-artist counts, then
 * filtered by city, type and station and sorted on the chosen column.
 */
module ArtistRanking {
  import opened Common
  import opened Seqs
  import opened Sorting
  import opened Text
  import opened Tally
  import opened Detections

  /** `EventoCalculado`.  `venue` is `None` where the source stores `undefined`. */
  datatype Calculated = Calculated(
    id: int,
    artista: string,
    emisora: string,
    venue: Option<string>,
    ciudad: string,
    tipo: string,
    confidence: real,
    hora: Stamp,
    audioUrl: string,
    contexto: string,
    conteo: int,
    spots: nat,
    mentions: nat,
    total: nat,
    ultimaDeteccion: Stamp,
    emisoraId: int)

  /** `TopArtista`. */
  datatype TopArtist = TopArtist(nombreOficial: string, conteo: int)

  /** `det.Artista.toLowerCase()`: the grouping key. */
  function Key(d: Detection): string
  {
    ToLower(d.artista)
  }

  function KeysOf(dets: seq<Detection>): (r: seq<string>)
    ensures |r| == |dets|
    ensures forall i :: 0 <= i < |dets| ==> r[i] == Key(dets[i])
  {
    MapSeq(dets, Key)
  }

  /** The detections whose key is `k`, in order. */
  function Group(dets: seq<Detection>, k: string): (g: seq<Detection>)
    ensures forall d :: d in g <==> d in dets && Key(d) == k
    ensures g != [] <==> k in KeysOf(dets)
  {
    if dets == [] then []
    else
      var init := dets[..|dets| - 1];
      var g := Group(init, k) + (if Key(dets[|dets| - 1]) == k then [dets[|dets| - 1]] else []);
      assert KeysOf(dets) == KeysOf(init) + [Key(dets[|dets| - 1])];
      assert g != [] ==> g[0] in g;
      g
  }

  lemma GroupSnoc(dets: seq<Detection>, d: Detection, k: string)
    ensures Group(dets + [d], k) == Group(dets, k) + (if Key(d) == k then [d] else [])
  {
    assert (dets + [d])[..|dets|] == dets;
  }

  // ---------------------------------------------------------------------
  // One artist's entry

  /**
   * The entry `artistasMap.set` creates from the first detection of an
   * artist: no detection counted yet, the detection's identity, and its
   * fields shown with its `Hora` as the latest.
   */
  function New(d: Detection): (c: Calculated)
    ensures c.conteo == 0 && c.spots == 0 && c.mentions == 0 && c.total == 0
    ensures c.id == d.id && c.artista == d.artista && c.hora == d.hora && c.emisoraId == d.emisoraId
    ensures Shows(c, d) && c.ultimaDeteccion == d.hora
  {
    Calculated(d.id, d.artista, d.emisora, Some(d.venue), d.ciudad, d.tipo, d.confidence, d.hora,
      d.audioUrl, d.contexto, 0, 0, 0, 0, d.hora, d.emisoraId)
  }

  /**
   * The refresh of lines 133-142 as written: `artista.venue = det.venue`
   * reads a field `Deteccion` does not have, so the venue becomes undefined.
   */
  function RefreshAsWritten(c: Calculated, d: Detection): (r: Calculated)
    ensures r.venue.None?
  {
    c.(ultimaDeteccion := d.hora, emisora := d.emisora, venue := None, ciudad := d.ciudad, tipo := d.tipo,
      confidence := d.confidence, contexto := d.contexto, audioUrl := d.audioUrl)
  }

  /**
   * As written, a refresh never carries all of the newer detection's fields:
   * its venue, a field the ranking table does not render, is lost whatever
   * the detection says.
   */
  lemma RefreshAsWrittenLosesVenue(c: Calculated, d: Detection)
    ensures !Shows(RefreshAsWritten(c, d), d)
    ensures Shows(Refresh(c, d), d)
  {
  }

  /** The refresh with the detection's own `Venue`, as the other per-detection fields are taken. */
  function Refresh(c: Calculated, d: Detection): (r: Calculated)
    ensures Shows(r, d) && r.ultimaDeteccion == d.hora
    ensures r.conteo == c.conteo && r.spots == c.spots && r.mentions == c.mentions && r.total == c.total
    ensures r.id == c.id && r.artista == c.artista && r.hora == c.hora && r.emisoraId == c.emisoraId
  {
    c.(ultimaDeteccion := d.hora, emisora := d.emisora, venue := Some(d.venue), ciudad := d.ciudad, tipo := d.tipo,
      confidence := d.confidence, contexto := d.contexto, audioUrl := d.audioUrl)
  }

  /** The per-detection fields of entry `c` (station, venue, city, type, confidence, context, audio) are those of `d`. */
  predicate Shows(c: Calculated, d: Detection)
  {
    c.emisora == d.emisora && c.venue == Some(d.venue) && c.ciudad == d.ciudad && c.tipo == d.tipo
    && c.confidence == d.confidence && c.contexto == d.contexto && c.audioUrl == d.audioUrl
  }

  /** One pass of the `forEach` body over an existing entry. */
  function Step(c: Calculated, d: Detection): (r: Calculated)
    ensures r.conteo == c.conteo + 1
  {
    var spots := if d.tipo == "SPOT" then c.spots + 1 else c.spots;
    var mentions := if d.tipo == "SPOT" then c.mentions else c.mentions + 1;
    var counted := c.(conteo := c.conteo + 1, spots := spots, mentions := mentions, total := spots + mentions);
    if Later(d.hora, counted.ultimaDeteccion) then Refresh(counted, d) else counted
  }

  /** The number of detections of type "SPOT": none exactly when no detection is a spot. */
  function Spots(g: seq<Detection>): (n: nat)
    ensures n <= |g|
    ensures n == 0 <==> forall i :: 0 <= i < |g| ==> g[i].tipo != "SPOT"
  {
    if g == [] then 0 else Spots(g[..|g| - 1]) + (if g[|g| - 1].tipo == "SPOT" then 1 else 0)
  }

  /** The entry built from one artist's detections, in order: one count per detection, the first one's identity. */
  function Summary(g: seq<Detection>): (s: Calculated)
    requires g != []
    ensures s.conteo == |g|
    ensures s.id == g[0].id && s.artista == g[0].artista && s.hora == g[0].hora && s.emisoraId == g[0].emisoraId
  {
    if |g| == 1 then Step(New(g[0]), g[0]) else Step(Summary(g[..|g| - 1]), g[|g| - 1])
  }

  /**
   * The entry of a group: its counters agree (`spots + mentions == total ==
   * conteo`, the number of detections, with every type other than "SPOT" a
   * mention); it keeps the id, name and `hora` of the first detection;
   * `ultimaDeteccion` is the `Hora` of a detection of the group whose fields
   * it shows; and when the first timestamp parses it is the latest
   * parseable one.
   */
  lemma SummaryFacts(g: seq<Detection>)
    requires g != []
    ensures var s := Summary(g);
      s.conteo == |g| && s.total == |g| && s.spots + s.mentions == |g| && s.spots == Spots(g)
      && s.id == g[0].id && s.artista == g[0].artista && s.hora == g[0].hora && s.emisoraId == g[0].emisoraId
      && (exists w :: w in g && s.ultimaDeteccion == w.hora && Shows(s, w))
    ensures var s := Summary(g);
      g[0].hora.at.Some? ==>
        (s.ultimaDeteccion.at.Some? && forall d :: d in g && d.hora.at.Some? ==> d.hora.at.value <= s.ultimaDeteccion.at.value)
  {
    SummaryCounts(g);
    SummaryShows(g);
    SummaryLatest(g);
  }

  /** The counters of a group's entry. */
  lemma {:induction false} SummaryCounts(g: seq<Detection>)
    requires g != []
    ensures var s := Summary(g);
      s.total == |g| && s.spots + s.mentions == |g| && s.spots == Spots(g)
  {
    if |g| > 1 {
      var init := g[..|g| - 1];
      var d := g[|g| - 1];
      SummaryCounts(init);
      var prev := Summary(init);
      assert Summary(g) == Step(prev, d);
      StepFacts(prev, d);
    }
  }

  /** A group's entry shows one of its detections, with that detection's stamp. */
  lemma {:induction false} SummaryShows(g: seq<Detection>)
    requires g != []
    ensures var s := Summary(g);
      exists w :: w in g && s.ultimaDeteccion == w.hora && Shows(s, w)
  {
    if |g| == 1 {
      assert g[0] in g;
    } else {
      var init := g[..|g| - 1];
      var d := g[|g| - 1];
      SummaryShows(init);
      assert g == init + [d];
      var prev := Summary(init);
      assert Summary(g) == Step(prev, d);
      StepFacts(prev, d);
      var w :| w in init && prev.ultimaDeteccion == w.hora && Shows(prev, w);
      assert w in g && d in g;
    }
  }

  /** When the first stamp parses, a group's entry ends on its latest parseable stamp. */
  lemma {:induction false} SummaryLatest(g: seq<Detection>)
    requires g != []
    ensures var s := Summary(g);
      g[0].hora.at.Some? ==>
        (s.ultimaDeteccion.at.Some? && forall d :: d in g && d.hora.at.Some? ==> d.hora.at.value <= s.ultimaDeteccion.at.value)
  {
    if |g| > 1 {
      var init := g[..|g| - 1];
      var d := g[|g| - 1];
      SummaryLatest(init);
      assert g == init + [d];
      assert forall x :: x in g <==> x in init || x == d;
      var prev := Summary(init);
      assert Summary(g) == Step(prev, d);
      StepFacts(prev, d);
    }
  }

  /** One pass counts the detection, keeps the entry's identity, and shows either the detection or what it showed before. */
  lemma StepFacts(c: Calculated, d: Detection)
    ensures var r := Step(c, d);
      r.conteo == c.conteo + 1 && r.total == r.spots + r.mentions
      && r.spots == c.spots + (if d.tipo == "SPOT" then 1 else 0)
      && r.mentions == c.mentions + (if d.tipo == "SPOT" then 0 else 1)
      && r.id == c.id && r.artista == c.artista && r.hora == c.hora && r.emisoraId == c.emisoraId
    ensures var r := Step(c, d);
      if Later(d.hora, c.ultimaDeteccion) then r.ultimaDeteccion == d.hora && Shows(r, d)
      else r.ultimaDeteccion == c.ultimaDeteccion && SameShown(r, c)
  {
  }

  /** `a` and `b` carry the same per-detection fields. */
  predicate SameShown(a: Calculated, b: Calculated)
  {
    a.emisora == b.emisora && a.venue == b.venue && a.ciudad == b.ciudad && a.tipo == b.tipo
    && a.confidence == b.confidence && a.contexto == b.contexto && a.audioUrl == b.audioUrl
  }

  lemma SummarySnoc(g: seq<Detection>, d: Detection)
    requires g != []
    ensures Summary(g + [d]) == Step(Summary(g), d)
  {
    assert (g + [d])[..|g|] == g;
  }

  // ---------------------------------------------------------------------
  // The detection pass

  /** The sum of the `conteo` counters. */
  function SumConteo(entries: seq<Calculated>): int
  {
    if entries == [] then 0 else SumConteo(entries[..|entries| - 1]) + entries[|entries| - 1].conteo
  }

  lemma {:induction false} SumConteoUpdate(entries: seq<Calculated>, j: nat, c: Calculated)
    requires j < |entries|
    ensures SumConteo(entries[j := c]) == SumConteo(entries) - entries[j].conteo + c.conteo
  {
    var n := |entries| - 1;
    var e' := entries[j := c];
    if j < n {
      SumConteoUpdate(entries[..n], j, c);
      assert e'[..n] == entries[..n][j := c];
    } else {
      assert e'[..n] == entries[..n];
    }
  }

  lemma SumConteoSnoc(entries: seq<Calculated>, c: Calculated)
    ensures SumConteo(entries + [c]) == SumConteo(entries) + c.conteo
  {
    assert (entries + [c])[..|entries|] == entries;
  }

  /** The keys and entries of `artistasMap` after the detections of `dets`. */
  ghost predicate Grouped(keys: seq<string>, entries: seq<Calculated>, dets: seq<Detection>)
  {
    keys == Distinct(KeysOf(dets)) && EntriesMatch(keys, entries, dets) && SumConteo(entries) == |dets|
  }

  /** Entry `j` summarises the non-empty group of key `j`. */
  ghost predicate EntriesMatch(keys: seq<string>, entries: seq<Calculated>, dets: seq<Detection>)
  {
    |entries| == |keys|
    && forall j :: 0 <= j < |keys| ==> Group(dets, keys[j]) != [] && entries[j] == Summary(Group(dets, keys[j]))
  }

  lemma SeenArtist(keys: seq<string>, entries: seq<Calculated>, dets: seq<Detection>, d: Detection, j: nat)
    requires Grouped(keys, entries, dets) && j < |keys| && keys[j] == Key(d)
    ensures Grouped(keys, entries[j := Step(entries[j], d)], dets + [d])
  {
    SeenKey(keys, dets, d, j);
    SeenEntries(keys, entries, dets, d, j);
    SeenSum(entries, dets, d, j);
  }

  /** Counting one more detection of an artist already seen adds one to the sum of the counters. */
  lemma SeenSum(entries: seq<Calculated>, dets: seq<Detection>, d: Detection, j: nat)
    requires SumConteo(entries) == |dets| && j < |entries|
    ensures SumConteo(entries[j := Step(entries[j], d)]) == |dets + [d]|
  {
    SumConteoUpdate(entries, j, Step(entries[j], d));
  }

  /** A detection of an artist already seen adds no key. */
  lemma SeenKey(keys: seq<string>, dets: seq<Detection>, d: Detection, j: nat)
    requires keys == Distinct(KeysOf(dets)) && j < |keys| && keys[j] == Key(d)
    ensures keys == Distinct(KeysOf(dets + [d]))
  {
    var next := dets + [d];
    assert next[..|dets|] == dets;
    assert KeysOf(next) == KeysOf(dets) + [Key(d)];
    assert Key(d) in KeysOf(dets);
  }

  /** A detection of an artist already seen refreshes that artist's entry and leaves the others. */
  lemma SeenEntries(keys: seq<string>, entries: seq<Calculated>, dets: seq<Detection>, d: Detection, j: nat)
    requires EntriesMatch(keys, entries, dets) && j < |keys| && keys[j] == Key(d)
    requires keys == Distinct(KeysOf(dets))
    ensures EntriesMatch(keys, entries[j := Step(entries[j], d)], dets + [d])
  {
    var next := dets + [d];
    var updated := entries[j := Step(entries[j], d)];
    forall j' | 0 <= j' < |keys|
      ensures Group(next, keys[j']) != [] && updated[j'] == Summary(Group(next, keys[j']))
    {
      GroupSnoc(dets, d, keys[j']);
      if j' == j {
        SummarySnoc(Group(dets, keys[j]), d);
        assert updated[j] == Step(entries[j], d);
      } else {
        assert keys[j'] != keys[j];
        assert Group(next, keys[j']) == Group(dets, keys[j']);
        assert updated[j'] == entries[j'];
      }
    }
  }

  lemma NewArtist(keys: seq<string>, entries: seq<Calculated>, dets: seq<Detection>, d: Detection)
    requires Grouped(keys, entries, dets) && Key(d) !in keys
    ensures Grouped(keys + [Key(d)], entries + [Step(New(d), d)], dets + [d])
  {
    NewKey(dets, d);
    NewEntries(keys, entries, dets, d);
    SumConteoSnoc(entries, Step(New(d), d));
  }

  /** The entries after a new artist's first detection: the old ones unchanged, then the new artist's. */
  lemma NewEntries(keys: seq<string>, entries: seq<Calculated>, dets: seq<Detection>, d: Detection)
    requires Grouped(keys, entries, dets) && Key(d) !in keys
    ensures EntriesMatch(keys + [Key(d)], entries + [Step(New(d), d)], dets + [d])
  {
    var keys' := keys + [Key(d)];
    var extended := entries + [Step(New(d), d)];
    forall j' | 0 <= j' < |keys'|
      ensures Group(dets + [d], keys'[j']) != [] && extended[j'] == Summary(Group(dets + [d], keys'[j']))
    {
      if j' < |keys| {
        OtherGroup(dets, d, keys[j']);
        assert extended[j'] == entries[j'];
      } else {
        OwnGroup(dets, d);
      }
    }
  }

  /** A detection with a new key extends the distinct keys by that key. */
  lemma NewKey(dets: seq<Detection>, d: Detection)
    requires Key(d) !in Distinct(KeysOf(dets))
    ensures Distinct(KeysOf(dets + [d])) == Distinct(KeysOf(dets)) + [Key(d)]
  {
    var next := dets + [d];
    assert next[..|dets|] == dets;
    assert KeysOf(next) == KeysOf(dets) + [Key(d)];
    assert KeysOf(next)[..|dets|] == KeysOf(dets);
  }

  /** A detection leaves the group of every other key as it was. */
  lemma OtherGroup(dets: seq<Detection>, d: Detection, k: string)
    requires k != Key(d)
    ensures Group(dets + [d], k) == Group(dets, k)
  {
    GroupSnoc(dets, d, k);
  }

  /** The first detection of a key forms its group alone. */
  lemma OwnGroup(dets: seq<Detection>, d: Detection)
    requires Key(d) !in KeysOf(dets)
    ensures Group(dets + [d], Key(d)) == [d]
  {
    GroupSnoc(dets, d, Key(d));
  }

  /** One pass of the `forEach` body: create the artist's entry if its key is new, then count the detection. */
  method AddDetection(keys: seq<string>, entries: seq<Calculated>, ghost dets: seq<Detection>, d: Detection)
    returns (keys': seq<string>, entries': seq<Calculated>)
    requires Grouped(keys, entries, dets)
    ensures Grouped(keys', entries', dets + [d])
  {
    var k := Key(d);
    var j := IndexOf(keys, k);
    if j < 0 {
      NewArtist(keys, entries, dets, d);
      keys', entries' := keys + [k], entries + [Step(New(d), d)];
    } else {
      SeenArtist(keys, entries, dets, d, j);
      keys', entries' := keys, entries[j := Step(entries[j], d)];
    }
  }

  /** The `detecciones.forEach` pass: one entry per distinct key, in first-occurrence order. */
  method GroupDetections(dets: seq<Detection>) returns (keys: seq<string>, entries: seq<Calculated>)
    ensures Grouped(keys, entries, dets)
  {
    keys, entries := [], [];
    var i := 0;
    ghost var done: seq<Detection> := [];
    assert KeysOf(done) == [];
    while i < |dets|
      invariant 0 <= i <= |dets| && done == dets[..i]
      invariant Grouped(keys, entries, done)
    {
      keys, entries := AddDetection(keys, entries, done, dets[i]);
      PrefixSnoc(dets, i);
      done := done + [dets[i]];
      i := i + 1;
    }
    assert done == dets;
  }

  // ---------------------------------------------------------------------
  // The topArtistas merge

  /** The `conteo` an entry with key `k` ends with: that of the last top artist with the key, else `current`. */
  function TopConteo(tops: seq<TopArtist>, k: string, current: int): (n: int)
    ensures (forall t :: t in tops ==> ToLower(t.nombreOficial) != k) ==> n == current
  {
    if tops == [] then current
    else if ToLower(tops[|tops| - 1].nombreOficial) == k then tops[|tops| - 1].conteo
    else TopConteo(tops[..|tops| - 1], k, current)
  }

  /**
   * `topArtistas.forEach`: overwrites `conteo` of the entries whose key a
   * top artist has and adds no entry.  Every entry already has a positive
   * total, so the `total === 0` branch never runs.
   */
  method MergeTop(keys: seq<string>, entries: seq<Calculated>, tops: seq<TopArtist>) returns (merged: seq<Calculated>)
    requires |keys| == |entries|
    requires forall i, j :: 0 <= i < j < |keys| ==> keys[i] != keys[j]
    requires forall j :: 0 <= j < |entries| ==> entries[j].total > 0
    ensures |merged| == |entries|
    ensures forall j :: 0 <= j < |entries| ==>
      merged[j] == entries[j].(conteo := TopConteo(tops, keys[j], entries[j].conteo))
  {
    merged := entries;
    var t := 0;
    while t < |tops|
      invariant 0 <= t <= |tops|
      invariant |merged| == |entries|
      invariant forall j :: 0 <= j < |entries| ==>
        merged[j] == entries[j].(conteo := TopConteo(tops[..t], keys[j], entries[j].conteo))
    {
      var top := tops[t];
      assert tops[..t + 1][..t] == tops[..t];
      var j := IndexOf(keys, ToLower(top.nombreOficial));
      if j >= 0 {
        merged := merged[j := merged[j].(conteo := top.conteo)];
        if merged[j].total == 0 {
          assert false;
        }
      }
      t := t + 1;
    }
    assert tops[..t] == tops;
  }

  /**
   * The entries `eventosCalculados` holds: one per artist key, in
   * first-occurrence order, the summary of the artist's detections with
   * `conteo` replaced by the top-artist count when there is one.
   */
  ghost predicate Merged(r: seq<Calculated>, dets: seq<Detection>, tops: seq<TopArtist>)
    ensures Merged(r, dets, tops) ==> (r == [] <==> dets == [])
  {
    assert dets != [] ==> KeysOf(dets)[0] in Distinct(KeysOf(dets));

    |r| == |Distinct(KeysOf(dets))|
    && forall j :: 0 <= j < |r| ==>
      var k := Distinct(KeysOf(dets))[j];
      Group(dets, k) != [] && r[j] == Summary(Group(dets, k)).(conteo := TopConteo(tops, k, |Group(dets, k)|))
  }

  /** A merged table holds one entry per artist, compared without case, and every detected artist has one. */
  lemma MergedOnePerArtist(r: seq<Calculated>, dets: seq<Detection>, tops: seq<TopArtist>)
    requires Merged(r, dets, tops)
    ensures forall i, j :: 0 <= i < j < |r| ==> ToLower(r[i].artista) != ToLower(r[j].artista)
    ensures forall d :: d in dets ==> exists j :: 0 <= j < |r| && ToLower(r[j].artista) == Key(d)
  {
    var keys := Distinct(KeysOf(dets));
    forall j | 0 <= j < |r|
      ensures ToLower(r[j].artista) == keys[j]
    {
      EntryKey(r, dets, tops, j);
    }
    KeyedOnce(r, keys, dets);
  }

  /** Entries named after the distinct keys, in order, name each artist once and every artist detected. */
  lemma KeyedOnce(r: seq<Calculated>, keys: seq<string>, dets: seq<Detection>)
    requires forall i, j :: 0 <= i < j < |keys| ==> keys[i] != keys[j]
    requires forall k :: k in KeysOf(dets) ==> k in keys
    requires |r| == |keys| && forall j :: 0 <= j < |r| ==> ToLower(r[j].artista) == keys[j]
    ensures forall i, j :: 0 <= i < j < |r| ==> ToLower(r[i].artista) != ToLower(r[j].artista)
    ensures forall d :: d in dets ==> exists j :: 0 <= j < |r| && ToLower(r[j].artista) == Key(d)
  {
    forall d | d in dets
      ensures exists j :: 0 <= j < |r| && ToLower(r[j].artista) == Key(d)
    {
      var i :| 0 <= i < |dets| && dets[i] == d;
      assert KeysOf(dets)[i] == Key(d);
      assert Key(d) in keys;
      var j :| 0 <= j < |keys| && keys[j] == Key(d);
      assert ToLower(r[j].artista) == Key(d);
    }
  }

  /** The `j`-th entry of a merged table is the artist of the `j`-th key. */
  lemma EntryKey(r: seq<Calculated>, dets: seq<Detection>, tops: seq<TopArtist>, j: nat)
    requires Merged(r, dets, tops) && j < |r|
    ensures ToLower(r[j].artista) == Distinct(KeysOf(dets))[j]
  {
    var k := Distinct(KeysOf(dets))[j];
    var g := Group(dets, k);
    assert r[j].artista == Summary(g).artista == g[0].artista;
    assert g[0] in g;
  }

  /** A grouping meets what the merge asks of it: distinct keys and entries that each count something. */
  lemma GroupedReady(keys: seq<string>, entries: seq<Calculated>, dets: seq<Detection>)
    requires Grouped(keys, entries, dets)
    ensures |keys| == |entries|
    ensures forall i, j :: 0 <= i < j < |keys| ==> keys[i] != keys[j]
    ensures forall j :: 0 <= j < |entries| ==> entries[j].total > 0 && entries[j].conteo == |Group(dets, keys[j])|
  {
    forall j | 0 <= j < |entries|
      ensures entries[j].total > 0 && entries[j].conteo == |Group(dets, keys[j])|
    {
      SummaryFacts(Group(dets, keys[j]));
    }
  }

  /** `eventosCalculados`: nothing without detections, otherwise the merged grouping. */
  method Calculate(dets: seq<Detection>, tops: seq<TopArtist>) returns (r: seq<Calculated>)
    ensures dets == [] ==> r == []
    ensures Merged(r, dets, tops)
  {
    if |dets| == 0 {
      assert KeysOf(dets) == [];
      return [];
    }
    var keys, entries := GroupDetections(dets);
    GroupedReady(keys, entries, dets);
    r := MergeTop(keys, entries, tops);
  }

  /** Without top-artist counts, the counters of every entry agree and add up to the number of detections. */
  lemma CountersAddUp(dets: seq<Detection>, keys: seq<string>, entries: seq<Calculated>)
    requires keys == Distinct(KeysOf(dets)) && |entries| == |keys|
    requires forall j :: 0 <= j < |keys| ==> Group(dets, keys[j]) != [] && entries[j] == Summary(Group(dets, keys[j]))
    ensures forall j :: 0 <= j < |entries| ==>
      entries[j].conteo == entries[j].total == entries[j].spots + entries[j].mentions == |Group(dets, keys[j])|
  {
    forall j | 0 <= j < |entries|
      ensures entries[j].conteo == entries[j].total == entries[j].spots + entries[j].mentions == |Group(dets, keys[j])|
    {
      SummaryFacts(Group(dets, keys[j]));
    }
  }

  // ---------------------------------------------------------------------
  // filteredAndSortedEvents

  datatype SortField = ByDate | BySpots | ByMentions | ByTotal | ByConfidence

  /** The `sortBy` prop: any other value sorts by total. */
  function FieldOf(sortBy: string): (f: SortField)
    ensures f == ByDate <==> sortBy == "date"
    ensures f == BySpots <==> sortBy == "spots"
    ensures f == ByMentions <==> sortBy == "mentions"
    ensures f == ByConfidence <==> sortBy == "confidence"
    ensures f == ByTotal <==> sortBy !in {"date", "spots", "mentions", "confidence"}
  {
    if sortBy == "date" then ByDate
    else if sortBy == "spots" then BySpots
    else if sortBy == "mentions" then ByMentions
    else if sortBy == "total" then ByTotal
    else if sortBy == "confidence" then ByConfidence
    else ByTotal
  }

  /** The sorted column; an unparseable `ultimaDeteccion` ranks as instant 0. */
  function SortValue(f: SortField, c: Calculated): (v: real)
    ensures f == ByDate && c.ultimaDeteccion.at.None? ==> v == 0.0
    ensures f == ByDate && c.ultimaDeteccion.at.Some? ==> v == c.ultimaDeteccion.at.value as real
    ensures f in {BySpots, ByMentions, ByTotal} ==> v >= 0.0
    ensures f == ByTotal && c.total == c.spots + c.mentions ==> v == c.spots as real + c.mentions as real
  {
    match f
    case ByDate => if c.ultimaDeteccion.at.Some? then c.ultimaDeteccion.at.value as real else 0.0
    case BySpots => c.spots as real
    case ByMentions => c.mentions as real
    case ByTotal => c.total as real
    case ByConfidence => c.confidence
  }

  function SortKey(f: SortField): Calculated -> real
  {
    (c: Calculated) => SortValue(f, c)
  }

  /** The active filters: city, then type, then the "venue" filter, which compares the station. */
  predicate Passes(c: Calculated, city: string, tipo: string, venue: string)
  {
    (city == "todos" || c.ciudad == city) && (tipo == "todos" || c.tipo == tipo) && (venue == "todos" || c.emisora == venue)
  }

  function Selection(entries: seq<Calculated>, city: string, tipo: string, venue: string): (r: seq<Calculated>)
    ensures forall c :: c in r <==> c in entries && Passes(c, city, tipo, venue)
    ensures IsSubsequence(r, entries)
  {
    var byCity := if city != "todos" then Filter(entries, (c: Calculated) => c.ciudad == city) else entries;
    var byType := if tipo != "todos" then Filter(byCity, (c: Calculated) => c.tipo == tipo) else byCity;
    var byStation := if venue != "todos" then Filter(byType, (c: Calculated) => c.emisora == venue) else byType;
    SubsequenceReflexive(entries);
    FilterIsSubsequence(entries, (c: Calculated) => c.ciudad == city);
    FilterIsSubsequence(byCity, (c: Calculated) => c.tipo == tipo);
    FilterIsSubsequence(byType, (c: Calculated) => c.emisora == venue);
    SubsequenceReflexive(byCity);
    SubsequenceReflexive(byType);
    SubsequenceTransitive(byType, byCity, entries);
    SubsequenceTransitive(byStation, byType, entries);
    byStation
  }

  /** The ranking: the entries passing every active filter, highest first on the chosen column. */
  function Ranked(entries: seq<Calculated>, city: string, tipo: string, venue: string, sortBy: string): (r: seq<Calculated>)
    ensures forall c :: c in r <==> c in entries && Passes(c, city, tipo, venue)
    ensures multiset(r) == multiset(Selection(entries, city, tipo, venue))
    ensures SortedDescBy(r, SortKey(FieldOf(sortBy)))
  {
    var selected := Selection(entries, city, tipo, venue);
    var r := SortDescBy(selected, SortKey(FieldOf(sortBy)));
    assert forall c :: c in r <==> c in multiset(selected);
    r
  }

  /**
   * The memoised `eventosCalculados` array.  `filtered` starts as that very
   * array and `.sort` works in place, so a ranking with no active filter
   * reorders the stored entries too.
   */
  class Ranking {
    var calculated: seq<Calculated>

    constructor(entries: seq<Calculated>)
      ensures calculated == entries
    {
      calculated := entries;
    }

    method FilteredAndSorted(city: string, tipo: string, venue: string, sortBy: string) returns (r: seq<Calculated>)
      modifies this
      ensures r == Ranked(old(calculated), city, tipo, venue, sortBy)
      ensures city == "todos" && tipo == "todos" && venue == "todos" ==> calculated == r
      ensures !(city == "todos" && tipo == "todos" && venue == "todos") ==> calculated == old(calculated)
    {
      var filtered := Selection(calculated, city, tipo, venue);
      r := SortDescBy(filtered, SortKey(FieldOf(sortBy)));
      if city == "todos" && tipo == "todos" && venue == "todos" {
        calculated := r;
      }
    }
  }
}
