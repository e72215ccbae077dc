/**
 * The latest-mentions feed: the detections of the selected city and type,
 * cut to the first `limit`; the tabs that split that list by type; and the
 * colour band of a detection's confidence.
 */
module LatestMentions {
  import opened Common
  import opened Seqs
  import opened Detections

  predicate InCity(d: Detection, city: string) { city == "todos" || d.ciudad == city }
  predicate OfType(d: Detection, tipo: string) { tipo == "todos" || d.tipo == tipo }

  /** The detections passing both filters, in feed order. */
  function Matching(dets: seq<Detection>, city: string, tipo: string): (r: seq<Detection>)
    ensures forall d :: d in r <==> d in dets && InCity(d, city) && OfType(d, tipo)
    ensures IsSubsequence(r, dets)
  {
    var byCity := Filter(dets, (d: Detection) => InCity(d, city));
    var r := Filter(byCity, (d: Detection) => OfType(d, tipo));
    FilterIsSubsequence(dets, (d: Detection) => InCity(d, city));
    FilterIsSubsequence(byCity, (d: Detection) => OfType(d, tipo));
    SubsequenceTransitive(r, byCity, dets);
    r
  }

  /**
   * `filteredDetecciones`: the first `limit` matching detections (a
   * negative `limit` drops that many from the end, as `slice` does).  It is
   * an order-preserving selection of the feed, so "Mostrando X de Y" never
   * shows X above Y, nor above the limit.
   */
  function Filtered(dets: seq<Detection>, city: string, tipo: string, limit: int): (r: seq<Detection>)
    ensures r <= Matching(dets, city, tipo)
    ensures limit >= 0 ==> |r| == Min(limit, |Matching(dets, city, tipo)|)
    ensures IsSubsequence(r, dets)
    ensures |r| <= |dets| && (limit >= 0 ==> |r| <= limit)
    ensures forall d :: d in r ==> InCity(d, city) && OfType(d, tipo)
  {
    var matching := Matching(dets, city, tipo);
    var r := Take(matching, limit);
    PrefixIsSubsequence(r, matching);
    SubsequenceTransitive(r, matching, dets);
    SubsequenceMembers(r, dets);
    r
  }

  datatype Tab = All | Mentions | Spots

  /** The list under a tab: everything, or only the MENCION or only the SPOT items of the already cut list. */
  function TabItems(shown: seq<Detection>, tab: Tab): (r: seq<Detection>)
    ensures tab == All ==> r == shown
    ensures tab == Mentions ==> forall d :: d in r <==> d in shown && d.tipo == "MENCION"
    ensures tab == Spots ==> forall d :: d in r <==> d in shown && d.tipo == "SPOT"
    ensures IsSubsequence(r, shown)
  {
    match tab
    case All =>
      SubsequenceReflexive(shown);
      shown
    case Mentions =>
      FilterIsSubsequence(shown, (d: Detection) => d.tipo == "MENCION");
      Filter(shown, (d: Detection) => d.tipo == "MENCION")
    case Spots =>
      FilterIsSubsequence(shown, (d: Detection) => d.tipo == "SPOT");
      Filter(shown, (d: Detection) => d.tipo == "SPOT")
  }

  /** A detection of any other type (a song, an interview) is listed under "all" only. */
  lemma OtherTypesOnlyUnderAll(shown: seq<Detection>, d: Detection)
    requires d in shown && d.tipo != "MENCION" && d.tipo != "SPOT"
    ensures d in TabItems(shown, All)
    ensures d !in TabItems(shown, Mentions) && d !in TabItems(shown, Spots)
  {
  }

  /** The two typed tabs together never list more than the "all" tab. */
  lemma {:induction false} TabsWithinAll(shown: seq<Detection>)
    ensures |TabItems(shown, Mentions)| + |TabItems(shown, Spots)| <= |shown|
  {
    if shown != [] {
      var init := shown[..|shown| - 1];
      TabsWithinAll(init);
      assert TabItems(shown, Mentions) == TabItems(init, Mentions)
        + (if shown[|shown| - 1].tipo == "MENCION" then [shown[|shown| - 1]] else []);
      assert TabItems(shown, Spots) == TabItems(init, Spots)
        + (if shown[|shown| - 1].tipo == "SPOT" then [shown[|shown| - 1]] else []);
    }
  }

  datatype Band = Green | Amber | Red

  /** `confidenceColors`: green from 0.9, amber from 0.7, red below. */
  function ConfidenceBand(confidence: real): (b: Band)
    ensures b == Green <==> confidence >= 0.9
    ensures b == Amber <==> 0.7 <= confidence < 0.9
    ensures b == Red <==> confidence < 0.7
  {
    if confidence >= 0.9 then Green else if confidence >= 0.7 then Amber else Red
  }
}
