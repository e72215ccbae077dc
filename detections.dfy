/**
 * The radio-monitoring detections that the dashboard fetches (one per
 * spot or mention of an artist on a station), their timestamps, and the
 * avatar helpers the rankings share: the initial of a name and the colour
 * class picked from its character code.
 */
module Detections {
  import opened Common
  import opened Text

  /**
   * A timestamp string and the instant `new Date(text)` gives, in
   * milliseconds, or `None` for an invalid date (NaN).
   */
  datatype Stamp = Stamp(text: string, at: Option<int>)

  /** `new Date(a) > new Date(b)`: false as soon as either side is NaN. */
  function Later(a: Stamp, b: Stamp): (r: bool)
    ensures a.at.None? || b.at.None? ==> !r
    ensures a.at.Some? && b.at.Some? ==> (r <==> a.at.value > b.at.value)
  {
    a.at.Some? && b.at.Some? && a.at.value > b.at.value
  }

  /**
   * Among timestamps that parse, `Later` is a strict order; a timestamp that
   * does not parse is never later, nor earlier, than any other.
   */
  lemma LaterStrictOrder(a: Stamp, b: Stamp, c: Stamp)
    ensures !Later(a, a)
    ensures Later(a, b) ==> !Later(b, a)
    ensures Later(a, b) && Later(b, c) ==> Later(a, c)
    ensures a.at.None? ==> !Later(a, b) && !Later(b, a)
  {
  }

  /** `Deteccion`. */
  datatype Detection = Detection(
    id: int,
    emisoraId: int,
    emisora: string,
    ciudad: string,
    pais: string,
    artista: string,
    tipo: string,
    venue: string,
    fechaEvento: string,
    nombreEvento: string,
    confidence: real,
    hora: Stamp,
    audioUrl: string,
    contexto: string)

  /** `artist.charAt(0).toUpperCase()`: empty for an empty name. */
  function Initial(name: string): (r: string)
    ensures name == [] <==> r == []
    ensures name != [] && 'a' <= name[0] <= 'z' ==> r == [(name[0] as int - 32) as char]
  {
    if name == [] then "" else UpperChar(name[0])
  }

  /** `charCodeAt(0)` of a one-character string: the character's first UTF-16 code unit. */
  function CodeUnit(c: char): (u: nat)
    ensures u < 0x1_0000
    ensures (c as int) < 0x1_0000 ==> u == c as int
  {
    if (c as int) < 0x1_0000 then c as int else 0xD800 + (c as int - 0x1_0000) / 0x400
  }

  /**
   * `initial.charCodeAt(0) % colors.length` with eight colours: an index
   * into the colours for a non-empty initial, nothing (NaN, so `undefined`)
   * for an empty one.
   */
  function ColourIndex(initial: string): (k: Option<nat>)
    ensures k.Some? <==> initial != []
    ensures k.Some? ==> k.value < 8 && k.value == CodeUnit(initial[0]) % 8
  {
    if initial == [] then None else Some(CodeUnit(initial[0]) % 8)
  }

  /** A name whose initial is a letter of the same case gets the same colour whichever case it is written in. */
  lemma ColourIgnoresCase(a: string, b: string)
    requires a != [] && b != [] && 'a' <= a[0] <= 'z' && b[0] as int == a[0] as int - 32
    ensures ColourIndex(Initial(a)) == ColourIndex(Initial(b))
  {
  }

  // ---------------------------------------------------------------------
  // formatTimeAgo, shared by both mention feeds

  /** `Math.floor((now - at) / 1000)`: whole seconds elapsed, rounded down. */
  function Elapsed(at: int, now: int): (e: int)
    ensures e * 1000 <= now - at < e * 1000 + 1000
  {
    (now - at) / 1000
  }

  /** What `formatTimeAgo` shows: a relative bucket, an absolute date, or a thrown error for an invalid date. */
  datatype Ago = JustNow | MinutesAgo(n: nat) | HoursAgo(n: nat) | DaysAgo(n: nat) | Absolute(at: int) | InvalidTime

  /**
   * `formatTimeAgo(hora)` at instant `now`: seconds under a minute
   * (including a timestamp in the future), whole minutes under an hour,
   * whole hours under a day, whole days under a week, else the date
   * itself.  An invalid date fails every comparison and reaches `format`,
   * which throws.
   */
  function TimeAgo(hora: Stamp, now: int): (a: Ago)
    ensures a == InvalidTime <==> hora.at.None?
    ensures hora.at.Some? ==>
      var e := Elapsed(hora.at.value, now);
      (a == JustNow <==> e < 60)
      && (a.MinutesAgo? <==> 60 <= e < 3600)
      && (a.HoursAgo? <==> 3600 <= e < 86400)
      && (a.DaysAgo? <==> 86400 <= e < 604800)
      && (a.Absolute? <==> e >= 604800)
    ensures a.MinutesAgo? ==> 1 <= a.n < 60 && a.n * 60 <= Elapsed(hora.at.value, now) < a.n * 60 + 60
    ensures a.HoursAgo? ==> 1 <= a.n < 24 && a.n * 3600 <= Elapsed(hora.at.value, now) < a.n * 3600 + 3600
    ensures a.DaysAgo? ==> 1 <= a.n < 7 && a.n * 86400 <= Elapsed(hora.at.value, now) < a.n * 86400 + 86400
    ensures a.Absolute? ==> a.at == hora.at.value
  {
    if hora.at.None? then InvalidTime
    else
      var e := Elapsed(hora.at.value, now);
      if e < 60 then JustNow
      else if e < 3600 then MinutesAgo(e / 60)
      else if e < 86400 then HoursAgo(e / 3600)
      else if e < 604800 then DaysAgo(e / 86400)
      else Absolute(hora.at.value)
  }

  /** A detection stamped after `now` (a clock ahead of the browser's) reads "a few seconds ago". */
  lemma FutureIsJustNow(hora: Stamp, now: int)
    requires hora.at.Some? && hora.at.value > now
    ensures TimeAgo(hora, now) == JustNow
  {
    assert Elapsed(hora.at.value, now) < 0;
  }

  /** The text of a relative bucket; the absolute date's text is locale formatting and is not modelled. */
  function AgoText(a: Ago): (t: Option<string>)
    ensures t.Some? <==> (a.JustNow? || a.MinutesAgo? || a.HoursAgo? || a.DaysAgo?)
    ensures t.Some? ==> StartsWith(t.value, "Hace ")
  {
    match a
    case JustNow => Some("Hace unos segundos")
    case MinutesAgo(n) => Some("Hace " + NatToString(n) + " min")
    case HoursAgo(n) => Some("Hace " + NatToString(n) + " h")
    case DaysAgo(n) => Some("Hace " + NatToString(n) + " d")
    case Absolute(_) => None
    case InvalidTime => None
  }
}
