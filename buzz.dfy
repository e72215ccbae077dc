/**
 * The synthetic "digital buzz" of an event (src/lib/digitalBuzzData.ts): a
 * seeded linear-congruential generator drives a 12-week mention series,
 * a sentiment value, a set of influencers, trend annotations and a split of
 * a total across four platforms; closed formulas turn the series into a
 * buzz score and a growth percentage, and radio counts into a compliance
 * status.
 */
module DigitalBuzz {
  import opened Common
  import opened Seqs
  import opened Sorting
  import opened Calendar
  import opened Text

  /** A reach figure such as "2.8M" or "950K", as `parseFloat` reads it. */
  type NonNegReal = x: real | x >= 0.0

  datatype Reach = Reach(amount: NonNegReal, millions: bool)

  datatype BuzzEvent = BuzzEvent(
    id: string,
    evento: string,
    artista: string,
    genero: string,
    ciudad: string,
    venue: string,
    fecha: Date,
    capacidad: nat,
    radioSpots: nat,
    radioMenciones: nat,
    radioTotal: nat,
    alcance: Reach)

  /** `parseReach`: millions stay as they are, anything else is read as thousands. */
  function ParseReach(r: Reach): (m: real)
    ensures m >= 0.0
    ensures r.millions ==> m == r.amount
    ensures !r.millions ==> m * 1000.0 == r.amount
  {
    if r.millions then r.amount else r.amount / 1000.0
  }

  // ---------------------------------------------------------------------
  // The generator

  const Modulus: int := 233280

  /** JavaScript's `%`: the remainder takes the sign of the dividend. */
  function JsRem(a: int, m: int): (r: int)
    requires m > 0
    ensures a >= 0 ==> 0 <= r < m
    ensures a < 0 ==> -m < r <= 0
  {
    if a >= 0 then a % m else -((-a) % m)
  }

  /** One step of the generator: `(seed * 9301 + 49297) % 233280`. */
  function Lcg(seed: int): (next: int)
    ensures seed >= 0 ==> 0 <= next < Modulus
  {
    JsRem(seed * 9301 + 49297, Modulus)
  }

  /** The value `next()` returns once the seed has become `seed`. */
  function Unit(seed: int): real
  {
    seed as real / Modulus as real
  }

  /** `u * w`: a fraction of a width. */
  function Scale(u: real, w: real): real
  {
    u * w
  }


  /** From a non-negative seed, `next()` lies in [0, 1) and the new seed in [0, 233280). */
  lemma NextBounds(seed: int)
    requires seed >= 0
    ensures 0 <= Lcg(seed) < Modulus
    ensures 0.0 <= Unit(Lcg(seed)) < 1.0
  {
  }

  lemma MulNonNegative(a: real, b: real)
    requires a >= 0.0 && b >= 0.0
    ensures a * b >= 0.0
  {
  }

  lemma MulPositive(a: real, b: real)
    requires a > 0.0 && b > 0.0
    ensures a * b > 0.0
  {
  }

  /** A fraction in [0, 1) of a positive width is below that width. */
  lemma ScaleBelow(u: real, w: real)
    requires 0.0 <= u < 1.0 && w > 0.0
    ensures 0.0 <= Scale(u, w) < w
  {
    var v := 1.0 - u;
    MulPositive(v, w);
    MulNonNegative(u, w);
  }

  /**
   * What `range(lo, hi)` returns when called with the generator at `seed`:
   * from a non-negative seed, a value in [lo, hi).
   */
  function RangeAt(seed: int, lo: real, hi: real): (r: real)
    ensures seed >= 0 && lo < hi ==> lo <= r < hi
  {
    var u := Unit(Lcg(seed));
    if seed >= 0 && lo < hi then
      NextBounds(seed);
      ScaleBelow(u, hi - lo);
      lo + Scale(u, hi - lo)
    else
      lo + Scale(u, hi - lo)
  }

  /** `class SeededRandom`: the generator object with its one mutable field. */
  class SeededRandom {
    var seed: int

    constructor (seed: int)
      ensures this.seed == seed
    {
      this.seed := seed;
    }

    method Next() returns (r: real)
      modifies this
      ensures seed == Lcg(old(seed))
      ensures r == Unit(seed)
    {
      seed := JsRem(seed * 9301 + 49297, Modulus);
      r := seed as real / Modulus as real;
    }

    method Range(min: real, max: real) returns (r: real)
      modifies this
      ensures seed == Lcg(old(seed))
      ensures r == RangeAt(old(seed), min, max)
    {
      var u := Next();
      r := min + u * (max - min);
    }
  }

  /**
   * `event.id.split('').reduce((acc, c) => acc + c.charCodeAt(0), 0)`:
   * `split('')` cuts the id into UTF-16 code units, so a character outside
   * the Basic Multilingual Plane adds both of its surrogates.
   */
  function CharCodeSum(s: string): (n: nat)
    ensures s == [] ==> n == 0
    ensures (forall i :: 0 <= i < |s| ==> (s[i] as int) < 0x1_0000) ==> n == CodePointSum(s)
    ensures |s| == 1 && (s[0] as int) >= 0x1_0000 ==> n == Utf16Units(s[0])[0] + Utf16Units(s[0])[1]
  {
    if s == [] then 0
    else
      var init, u := s[..|s| - 1], Utf16Units(s[|s| - 1]);
      assert forall i :: 0 <= i < |init| ==> init[i] == s[i];
      assert |u| == 1 ==> UnitSum(u) == u[0] by {
        if |u| == 1 {
          assert u[..0] == [];
        }
      }
      assert |u| == 2 ==> UnitSum(u) == u[0] + u[1] by {
        if |u| == 2 {
          assert u[..1] == [u[0]] && u[..1][..0] == [];
          assert UnitSum(u[..1]) == u[0];
        }
      }
      CharCodeSum(init) + UnitSum(u)
  }

  function UnitSum(units: seq<nat>): nat
  {
    if units == [] then 0 else UnitSum(units[..|units| - 1]) + units[|units| - 1]
  }

  /** The sum of the characters' code points, which the code units add up to inside the Basic Multilingual Plane. */
  function CodePointSum(s: string): nat
  {
    if s == [] then 0 else CodePointSum(s[..|s| - 1]) + s[|s| - 1] as int
  }

  /** The sum over an id is the sum over its parts. */
  lemma {:induction false} CharCodeSumConcat(a: string, b: string)
    ensures CharCodeSum(a + b) == CharCodeSum(a) + CharCodeSum(b)
    decreases |b|
  {
    if b == [] {
      assert a + b == a;
    } else {
      assert (a + b)[..|a + b| - 1] == a + b[..|b| - 1];
      CharCodeSumConcat(a, b[..|b| - 1]);
    }
  }

  /** An emoji counts as its two surrogates, not as its code point. */
  lemma EmojiSumsSurrogates()
    ensures CharCodeSum("\U{1F600}") == 0xD83D + 0xDE00
    ensures CharCodeSum("\U{1F600}") != 0x1F600
  {
    var u := Utf16Units('\U{1F600}');
    assert u[0] == 0xD83D && u[1] == 0xDE00;
    assert "\U{1F600}"[..0] == [];
  }

  /** `Math.floor(u * n)` for `u` in [0, 1) is a valid index into `n` items. */
  lemma FloorIndex(u: real, n: nat)
    requires 0.0 <= u < 1.0 && n > 0
    ensures 0 <= (u * n as real).Floor < n
  {
    assert u * n as real < n as real by {
      assert (1.0 - u) * n as real > 0.0;
    }
  }

  // ---------------------------------------------------------------------
  // Weekly mentions

  /** The reference "today" of the series: 2025-10-09. */
  const Today: Date := Date(2025, 10, 9)

  /** `600 + capacidad / 80 + reachInMillions * 1200`. */
  function Base(e: BuzzEvent): (b: real)
    ensures b >= 600.0
  {
    600.0 + e.capacidad as real / 80.0 + ParseReach(e.alcance) * 1200.0
  }

  /** Whole weeks from the reference day to the event, rounded down. */
  function WeeksUntil(e: BuzzEvent): (w: int)
    requires Valid(e.fecha)
    ensures 7 * w <= DayNumber(e.fecha) - DayNumber(Today) < 7 * w + 7
  {
    (DayNumber(e.fecha) - DayNumber(Today)) / 7
  }

  /** Scaling a non-negative base by factors below their bounds stays below the scaled bound. */
  lemma ScaledBelow(base: real, f: real, fmax: real, j: real, jmax: real)
    requires base >= 0.0 && 0.0 <= f <= fmax && 0.0 <= j <= jmax
    ensures base * f * j <= base * fmax * jmax
  {
    assert base * f <= base * fmax;
    assert base * f * j <= base * fmax * j;
    assert base * fmax * j <= base * fmax * jmax;
  }

  lemma ScaleMonotone(b: real, x: real, y: real)
    requires b >= 0.0 && x <= y
    ensures b * x <= b * y
  {
  }

  /** `1 / (1 + e)` for a positive `e` lies strictly between 0 and 1. */
  lemma SigmoidBounds(e: real)
    requires e > 0.0
    ensures 0.0 < 1.0 / (1.0 + e) < 1.0
  {
  }

  /** The jittered value of one week never exceeds the largest factor and jitter. */
  lemma WeekValueBounds(base: real, factor: real, fmax: real, jitter: real)
    requires base >= 0.0 && 0.0 <= factor <= fmax && 0.0 <= jitter < 1.15
    ensures Round(base * factor * jitter) <= Round(base * fmax * 1.15)
  {
    ScaledBelow(base, factor, fmax, jitter, 1.15);
    RoundMonotone(base * factor * jitter, base * fmax * 1.15);
  }

  /** At the event's own week (factor 1) the value is at least the base times the smallest jitter. */
  lemma EventWeekBound(base: real, jitter: real)
    requires base >= 0.0 && 0.85 <= jitter
    ensures Round(base * 1.0 * 0.85) <= Round(base * 1.0 * jitter)
  {
    ScaledBelow(base, 1.0, 1.0, 0.85, jitter);
    RoundMonotone(base * 1.0 * 0.85, base * 1.0 * jitter);
  }

  /**
   * One week of the series, `weekFromEvent` weeks before the event (negative
   * after it): a factor (a draw in [0.3, 0.6) for the weeks before, 1 at the
   * event, a sigmoid after) times a jitter drawn in [0.85, 1.15), at least 50.
   */
  method WeekMention(random: SeededRandom, base: real, weekFromEvent: int, exp: real -> real) returns (m: int)
    requires random.seed >= 0 && base >= 0.0
    requires forall x :: exp(x) > 0.0
    modifies random
    ensures random.seed >= 0
    ensures 50 <= m <= Max(50, Round(base * 1.0 * 1.15))
    ensures weekFromEvent > 0 ==> m <= Max(50, Round(base * 0.6 * 1.15))
    ensures weekFromEvent == 0 ==> m >= Round(base * 1.0 * 0.85)
  {
    var factor := DrawFactor(random, weekFromEvent, exp);
    var jitter := random.Range(0.85, 1.15);
    WeekValueBounds(base, factor, 1.0, jitter);
    if weekFromEvent > 0 {
      WeekValueBounds(base, factor, 0.6, jitter);
    } else if weekFromEvent == 0 {
      EventWeekBound(base, jitter);
    }
    m := Max(50, Round(base * factor * jitter));
  }

  /** The week's factor: a draw in [0.3, 0.6) before the event, 1 at it, a sigmoid in (0, 1) after it. */
  method DrawFactor(random: SeededRandom, weekFromEvent: int, exp: real -> real) returns (factor: real)
    requires random.seed >= 0
    requires forall x :: exp(x) > 0.0
    modifies random
    ensures random.seed >= 0
    ensures 0.0 <= factor <= 1.0
    ensures weekFromEvent > 0 ==> 0.3 <= factor < 0.6
    ensures weekFromEvent == 0 ==> factor == 1.0
  {
    if weekFromEvent > 0 {
      factor := random.Range(0.3, 0.6);
    } else if weekFromEvent == 0 {
      factor := 1.0;
    } else {
      var weeksAway := -weekFromEvent;
      var e := exp((weeksAway - 6) as real);
      SigmoidBounds(e);
      factor := 1.0 / (1.0 + e);
    }
  }

  /**
   * `generateWeeklyMentions`: twelve weekly counts, oldest first.  Every
   * count is at least 50 and at most the base scaled by the largest factor
   * (1) and the largest jitter (1.15); the weeks before the event use
   * factors below 0.6, and the event's own week uses factor 1, so its count
   * is at least the base scaled by the smallest jitter (0.85).  `Math.exp`
   * is a parameter: only its positivity matters.
   */
  method WeeklyMentions(e: BuzzEvent, exp: real -> real) returns (mentions: seq<int>)
    requires Valid(e.fecha)
    requires forall x :: exp(x) > 0.0
    ensures |mentions| == 12
    ensures forall j :: 0 <= j < 12 ==> 50 <= mentions[j] <= Max(50, Round(Base(e) * 1.0 * 1.15))
    ensures forall j :: 0 <= j < 12 && j < WeeksUntil(e) ==> mentions[j] <= Max(50, Round(Base(e) * 0.6 * 1.15))
    ensures forall j :: 0 <= j < 12 && j == WeeksUntil(e) ==> mentions[j] >= Round(Base(e) * 1.0 * 0.85)
  {
    var random := new SeededRandom(CharCodeSum(e.id));
    var base := Base(e);
    var weeksUntil := WeeksUntil(e);
    mentions := [];
    var i := 11;
    while i >= 0
      invariant -1 <= i <= 11
      invariant |mentions| == 11 - i
      invariant random.seed >= 0
      invariant forall j :: 0 <= j < |mentions| ==> 50 <= mentions[j] <= Max(50, Round(base * 1.0 * 1.15))
      invariant forall j :: 0 <= j < |mentions| && j < weeksUntil ==> mentions[j] <= Max(50, Round(base * 0.6 * 1.15))
      invariant forall j :: 0 <= j < |mentions| && j == weeksUntil ==> mentions[j] >= Round(base * 1.0 * 0.85)
    {
      var m := WeekMention(random, base, weeksUntil - (11 - i), exp);
      mentions := mentions + [m];
      i := i - 1;
    }
  }

  // ---------------------------------------------------------------------
  // Sentiment, buzz score and growth

  /** `generateSentiment`: one draw from a generator seeded with the id's code sum plus 1000, in a band per genre. */
  function Sentiment(e: BuzzEvent): (s: real)
    ensures e.genero == "Pop/Urbano" ==> 0.66 <= s < 0.78
    ensures e.genero == "Regional" ==> 0.62 <= s < 0.74
    ensures e.genero != "Pop/Urbano" && e.genero != "Regional" ==> 0.68 <= s < 0.80
    ensures 0.62 <= s < 0.80
  {
    var seed := CharCodeSum(e.id) + 1000;
    if e.genero == "Pop/Urbano" then
      RangeAt(seed, 0.66, 0.78)
    else if e.genero == "Regional" then
      RangeAt(seed, 0.62, 0.74)
    else
      RangeAt(seed, 0.68, 0.80)
  }

  /** `reduce((a, b) => a + b, 0)`: never negative over non-negative weeks. */
  function SumOf(s: seq<int>): (n: int)
    ensures (forall i :: 0 <= i < |s| ==> s[i] >= 0) ==> n >= 0
    ensures |s| == 1 ==> n == s[0]
  {
    if s == [] then 0 else SumOf(s[..|s| - 1]) + s[|s| - 1]
  }

  /** `Math.max(0, Math.min(x, 1))`. */
  function Unit01(x: real): (r: real)
    ensures 0.0 <= r <= 1.0
    ensures 0.0 <= x <= 1.0 ==> r == x
  {
    if x < 0.0 then 0.0 else if x > 1.0 then 1.0 else x
  }

  /** The volume component: the mean of the last four weeks over 10000, capped at 1. */
  function VolumeScore(mentions: seq<int>): (v: real)
    ensures v <= 1.0
    ensures (forall i :: 0 <= i < |mentions| ==> mentions[i] >= 0) ==> 0.0 <= v
  {
    var last4 := SliceFrom(mentions, -4);
    var avg := SumOf(last4) as real / 4.0 / 10000.0;
    assert (forall i :: 0 <= i < |mentions| ==> mentions[i] >= 0) ==> avg >= 0.0 by {
      if forall i :: 0 <= i < |mentions| ==> mentions[i] >= 0 {
        assert forall i :: 0 <= i < |last4| ==> last4[i] in mentions;
      }
    }
    if avg < 1.0 then avg else 1.0
  }

  /**
   * The growth component of the buzz score: the relative change from the
   * mean of weeks -6..-5 to the mean of the last two weeks, clamped to [0, 1].
   */
  function GrowthScore(mentions: seq<int>): (g: real)
    ensures 0.0 <= g <= 1.0
    ensures var p := SumOf(Slice(mentions, -6, -4)); var l := SumOf(SliceFrom(mentions, -2));
      && (p <= 0 ==> g == 0.0)
      && (p > 0 && l <= p ==> g == 0.0)
      && (p > 0 && l >= 2 * p ==> g == 1.0)
  {
    var avgPrev2 := SumOf(Slice(mentions, -6, -4)) as real / 2.0;
    var avgLast2 := SumOf(SliceFrom(mentions, -2)) as real / 2.0;
    var growth := if avgPrev2 > 0.0 then (avgLast2 - avgPrev2) / avgPrev2 else 0.0;
    if avgPrev2 > 0.0 then
      RatioFacts(avgPrev2, avgLast2);
      Unit01(growth)
    else
      Unit01(growth)
  }

  /** The relative change is at most 0 when the mean did not grow and at least 1 when it doubled. */
  lemma RatioFacts(prev: real, last: real)
    requires prev > 0.0
    ensures last <= prev ==> (last - prev) / prev <= 0.0
    ensures last >= 2.0 * prev ==> (last - prev) / prev >= 1.0
  {
    var q := (last - prev) / prev;
    assert q * prev == last - prev;
    if last >= 2.0 * prev {
      assert (q - 1.0) * prev == last - 2.0 * prev >= 0.0;
    }
  }

  /** The growth component reads weeks -6, -5, -2 and -1 only: weeks -4 and -3 do not matter. */
  lemma GrowthScoreWindow(a: seq<int>, b: seq<int>)
    requires |a| >= 6 && |b| >= 6
    requires a[|a| - 6..|a| - 4] == b[|b| - 6..|b| - 4] && a[|a| - 2..] == b[|b| - 2..]
    ensures GrowthScore(a) == GrowthScore(b)
  {
    assert Slice(a, -6, -4) == a[|a| - 6..|a| - 4];
    assert Slice(b, -6, -4) == b[|b| - 6..|b| - 4];
    assert SliceFrom(a, -2) == a[|a| - 2..];
    assert SliceFrom(b, -2) == b[|b| - 2..];
  }

  /**
   * `calculateBuzzScore`: a weighted sum of volume (0.5), growth (0.3) and
   * sentiment (0.2), as a percentage.  Because the sentiment stays below
   * 0.80 the score never exceeds 96, and for non-negative mentions it is at
   * least 12, since the sentiment is at least 0.62.
   */
  function BuzzScore(e: BuzzEvent, mentions: seq<int>): (score: int)
    ensures score <= 96
    ensures (forall i :: 0 <= i < |mentions| ==> mentions[i] >= 0) ==> 12 <= score
  {
    var v := VolumeScore(mentions);
    var g := GrowthScore(mentions);
    var s := Sentiment(e);
    ScoreBounds(v, g, s);
    Round((v * 0.5 + g * 0.3 + s * 0.2) * 100.0)
  }

  /** The weighted sum of components within their ranges rounds to at most 96, and to at least 12 when the volume is non-negative. */
  lemma ScoreBounds(v: real, g: real, s: real)
    requires v <= 1.0 && 0.0 <= g <= 1.0 && 0.62 <= s < 0.80
    ensures Round((v * 0.5 + g * 0.3 + s * 0.2) * 100.0) <= 96
    ensures v >= 0.0 ==> Round((v * 0.5 + g * 0.3 + s * 0.2) * 100.0) >= 12
  {
    var x := (v * 0.5 + g * 0.3 + s * 0.2) * 100.0;
    RoundMonotone(x, 96.0);
    assert Round(96.0) == 96;
    if v >= 0.0 {
      RoundMonotone(12.0, x);
      assert Round(12.0) == 12;
    }
  }

  /**
   * `calculateGrowth`: the rounded percentage change from the mean of weeks
   * -4..-3 to the mean of the last two weeks, 0 when the earlier mean is 0.
   * With positive earlier weeks it has the sign of the change, never drops
   * below -100 for non-negative mentions, and a doubling reads 100.
   */
  function Growth(mentions: seq<int>): (pct: int)
    ensures var p := SumOf(Slice(mentions, -4, -2)); var l := SumOf(SliceFrom(mentions, -2));
      && (p == 0 ==> pct == 0)
      && (p > 0 && l >= p ==> pct >= 0)
      && (p > 0 && l <= p ==> pct <= 0)
      && (p > 0 && l >= 0 ==> pct >= -100)
      && (p > 0 && l == 2 * p ==> pct == 100)
  {
    var avgLast2 := SumOf(SliceFrom(mentions, -2)) as real / 2.0;
    var avgPrev2 := SumOf(Slice(mentions, -4, -2)) as real / 2.0;
    if avgPrev2 == 0.0 then 0 else PercentChange(avgPrev2, avgLast2)
  }

  /** `Math.round((last - prev) / prev * 100)` for a non-zero `prev`. */
  function PercentChange(prev: real, last: real): (pct: int)
    requires prev != 0.0
    ensures prev > 0.0 && last >= prev ==> pct >= 0
    ensures prev > 0.0 && last <= prev ==> pct <= 0
    ensures prev > 0.0 && last >= 0.0 ==> pct >= -100
    ensures prev > 0.0 && last == 2.0 * prev ==> pct == 100
  {
    if prev > 0.0 then
      PercentChangeFacts(prev, last);
      Round((last - prev) / prev * 100.0)
    else
      Round((last - prev) / prev * 100.0)
  }

  lemma PercentChangeFacts(prev: real, last: real)
    requires prev > 0.0
    ensures last >= prev ==> Round((last - prev) / prev * 100.0) >= 0
    ensures last <= prev ==> Round((last - prev) / prev * 100.0) <= 0
    ensures last >= 0.0 ==> Round((last - prev) / prev * 100.0) >= -100
    ensures last == 2.0 * prev ==> Round((last - prev) / prev * 100.0) == 100
  {
    var x := (last - prev) / prev * 100.0;
    if last >= prev {
      assert x >= 0.0;
      RoundMonotone(0.0, x);
    }
    if last <= prev {
      assert x <= 0.0;
      RoundMonotone(x, 0.0);
    }
    if last >= 0.0 {
      assert x >= -100.0;
      RoundMonotone(-100.0, x);
    }
    if last == 2.0 * prev {
      var q := (last - prev) / prev;
      assert q * prev == last - prev == prev;
      assert (q - 1.0) * prev == 0.0;
      assert q == 1.0;
    }
  }

  /** The growth of twelve non-negative weeks only depends on the last four. */
  lemma GrowthUsesLastFourWeeks(a: seq<int>, b: seq<int>)
    requires |a| >= 4 && |b| >= 4 && a[|a| - 4..] == b[|b| - 4..]
    ensures Growth(a) == Growth(b)
  {
    assert Slice(a, -4, -2) == a[|a| - 4..][..2];
    assert Slice(b, -4, -2) == b[|b| - 4..][..2];
    assert SliceFrom(a, -2) == a[|a| - 4..][2..];
    assert SliceFrom(b, -2) == b[|b| - 4..][2..];
  }

  // ---------------------------------------------------------------------
  // Hashtags

  /** `Tour$` after `\s+`: the optional tail of the tour pattern, up to the end. */
  predicate IsTourTail(t: string)
  {
    |t| > 4 && t[|t| - 4..] == "Tour" && forall i :: 0 <= i < |t| - 4 ==> IsSpace(t[i])
  }

  /**
   * The lazy group `(.+?)` followed by `(?:\s+Tour)?$`: the shortest
   * non-empty prefix of `rest` with no line terminator after which only the
   * optional tail remains, tried from length `n` on.
   */
  function LazyCapture(rest: string, n: nat): (c: Option<string>)
    requires 1 <= n
    requires forall i :: 0 <= i < n - 1 && i < |rest| ==> !IsLineTerminator(rest[i])
    ensures c.Some? ==> 1 <= |c.value| <= |rest| && c.value == rest[..|c.value|]
    ensures c.Some? ==> forall i :: 0 <= i < |c.value| ==> !IsLineTerminator(c.value[i])
    decreases |rest| - n
  {
    if n > |rest| || IsLineTerminator(rest[n - 1]) then None
    else if rest[n..] == [] || IsTourTail(rest[n..]) then Some(rest[..n])
    else LazyCapture(rest, n + 1)
  }

  /** `evento.match(/- (.+?)(?:\s+Tour)?$/)[1]`: the first position where the pattern matches. */
  function TourMatch(evento: string, from: nat): (c: Option<string>)
    decreases |evento| - from
  {
    if from + 2 > |evento| then None
    else if evento[from..from + 2] == "- " && LazyCapture(evento[from + 2..], 1).Some? then
      LazyCapture(evento[from + 2..], 1)
    else TourMatch(evento, from + 1)
  }

  /** Without "- " in the name the pattern cannot match. */
  lemma {:induction false} NoDashNoMatch(evento: string, from: nat)
    requires forall i :: from <= i < |evento| - 1 ==> !(evento[i] == '-' && evento[i + 1] == ' ')
    ensures TourMatch(evento, from).None?
    decreases |evento| - from
  {
    if from + 2 <= |evento| {
      assert evento[from..from + 2] != "- " by {
        assert evento[from..from + 2][0] == evento[from];
        assert evento[from..from + 2][1] == evento[from + 1];
      }
      NoDashNoMatch(evento, from + 1);
    }
  }

  /** `s.replace(/Tour$/, '')`. */
  function StripTour(s: string): (r: string)
    ensures r <= s
    ensures EndsWith(s, "Tour") ==> |r| == |s| - 4
    ensures !EndsWith(s, "Tour") ==> r == s
  {
    if EndsWith(s, "Tour") then s[..|s| - 4] else s
  }

  datatype Hashtags = Hashtags(primary: string, secondary: string)

  /**
   * `generateHashtags`: the primary tag is "#" + artist + city with all
   * whitespace removed; the secondary is "#" + tour name + "Tour" when the
   * event name matches the tour pattern and "#" + artist + "Tour" otherwise.
   * Neither tag contains whitespace.
   */
  function MakeHashtags(e: BuzzEvent): (h: Hashtags)
    ensures h.primary == "#" + RemoveSpaces(e.artista) + RemoveSpaces(e.ciudad)
    ensures StartsWith(h.secondary, "#") && EndsWith(h.secondary, "Tour")
    ensures TourMatch(e.evento, 0).None? ==> h.secondary == "#" + RemoveSpaces(e.artista) + "Tour"
    ensures NoSpaces(h.primary) && NoSpaces(h.secondary)
  {
    var artistSlug := RemoveSpaces(e.artista);
    var citySlug := RemoveSpaces(e.ciudad);
    var m := TourMatch(e.evento, 0);
    var tour := if m.None? then artistSlug else StripTour(RemoveSpaces(m.value));
    assert NoSpaces(tour) by {
      if m.Some? {
        PrefixNoSpaces(RemoveSpaces(m.value), tour);
      }
    }
    NoSpacesConcat("#", artistSlug);
    NoSpacesConcat("#" + artistSlug, citySlug);
    NoSpacesConcat("#", tour);
    NoSpacesConcat("#" + tour, "Tour");
    Hashtags("#" + artistSlug + citySlug, "#" + tour + "Tour")
  }

  predicate NoSpaces(s: string)
  {
    forall i :: 0 <= i < |s| ==> !IsSpace(s[i])
  }

  lemma PrefixNoSpaces(s: string, p: string)
    requires NoSpaces(s) && p <= s
    ensures NoSpaces(p)
  {
    assert forall i :: 0 <= i < |p| ==> p[i] == s[i];
  }

  lemma NoSpacesConcat(a: string, b: string)
    requires NoSpaces(a) && NoSpaces(b)
    ensures NoSpaces(a + b)
  {
    assert forall i :: |a| <= i < |a + b| ==> (a + b)[i] == b[i - |a|];
  }

  // ---------------------------------------------------------------------
  // Influencers

  datatype Platform = X | Instagram | TikTok | YouTube

  const Platforms: seq<Platform> := [X, Instagram, TikTok, YouTube]

  datatype Kind = News | Fan | Local

  function KindTag(k: Kind): string
  {
    match k
    case News => "news"
    case Fan => "fan"
    case Local => "local"
  }

  datatype InfluencerType = InfluencerType(prefix: string, kind: Kind)

  /** `influencerTypes`: five name patterns used in turn. */
  function InfluencerTypes(e: BuzzEvent): (r: seq<InfluencerType>)
    ensures |r| == 5
  {
    [InfluencerType("Música", News), InfluencerType("Conciertos", Fan),
     InfluencerType(e.ciudad, Local), InfluencerType(e.artista, Fan), InfluencerType("Live", News)]
  }

  /** An influencer; the post preview is the index of a template for its kind. */
  datatype Influencer = Influencer(
    name: string,
    handle: string,
    platform: Platform,
    mentions: int,
    engagement: int,
    sentiment: real,
    preview: nat)

  function Engagement(x: Influencer): real { x.engagement as real }

  /** An influencer as generated: mentions in [50, 300], engagement between 15 and 45 times that. */
  ghost predicate WellFormed(x: Influencer, sentiment: real)
  {
    50 <= x.mentions <= 300
    && Round(x.mentions as real * 15.0) <= x.engagement <= Round(x.mentions as real * 45.0)
    && sentiment - 0.05 <= x.sentiment < sentiment + 0.05
    && x.preview < 3
  }

  /** Engagement lies between 15 and 45 times the mentions, after rounding. */
  lemma EngagementBounds(mentions: nat, multiplier: real)
    requires 15.0 <= multiplier < 45.0
    ensures Round(mentions as real * 15.0) <= Round(mentions as real * multiplier) <= Round(mentions as real * 45.0)
  {
    var b := mentions as real;
    ScaleMonotone(b, 15.0, multiplier);
    ScaleMonotone(b, multiplier, 45.0);
    RoundMonotone(b * 15.0, b * multiplier);
    RoundMonotone(b * multiplier, b * 45.0);
  }

  /**
   * One influencer of `generateInfluencers`, drawing in the source's order:
   * platform, mentions, engagement multiplier, handle number, sentiment,
   * and the preview drawn by `generatePostPreview`.
   */
  method MakeInfluencer(random: SeededRandom, t: InfluencerType, sentiment: real) returns (x: Influencer)
    requires random.seed >= 0
    modifies random
    ensures random.seed >= 0
    ensures WellFormed(x, sentiment)
  {
    var u := DrawIndex(random, 4);
    var platform := Platforms[u];
    var mentions, engagement := DrawReachOf(random);
    var handleNumber := random.Range(1.0, 99.0);
    var s := random.Range(sentiment - 0.05, sentiment + 0.05);
    var preview := DrawIndex(random, 3);
    var name := t.prefix + " " + (if t.kind == News then "News" else "Fan");
    var handle := "@" + ToLower(t.prefix) + KindTag(t.kind) + IntToString(Round(handleNumber));
    x := Influencer(name, handle, platform, mentions, engagement, s, preview);
  }

  /** `Math.floor(random() * n)`: an index below `n`. */
  method DrawIndex(random: SeededRandom, n: nat) returns (k: nat)
    requires random.seed >= 0 && n > 0
    modifies random
    ensures random.seed >= 0
    ensures k < n
  {
    NextBounds(random.seed);
    var u := random.Next();
    FloorIndex(u, n);
    k := (u * n as real).Floor;
  }

  /** The mentions (a rounded draw in [50, 300)) and the engagement (mentions times a draw in [15, 45), rounded). */
  method DrawReachOf(random: SeededRandom) returns (mentions: nat, engagement: int)
    requires random.seed >= 0
    modifies random
    ensures random.seed >= 0
    ensures 50 <= mentions <= 300
    ensures Round(mentions as real * 15.0) <= engagement <= Round(mentions as real * 45.0)
  {
    var rawMentions := random.Range(50.0, 300.0);
    RoundWithin(rawMentions, 50, 300);
    mentions := Round(rawMentions);
    engagement := DrawEngagement(random, mentions);
  }

  /** `Math.round(mentions * range(15, 45))`. */
  method DrawEngagement(random: SeededRandom, mentions: nat) returns (engagement: int)
    requires random.seed >= 0
    modifies random
    ensures random.seed >= 0
    ensures Round(mentions as real * 15.0) <= engagement <= Round(mentions as real * 45.0)
  {
    var multiplier := random.Range(15.0, 45.0);
    EngagementBounds(mentions, multiplier);
    engagement := Round(mentions as real * multiplier);
  }

  /**
   * `generateInfluencers`: `count` influencers (none for a negative count),
   * sorted by engagement, highest first, each well formed.
   */
  method Influencers(e: BuzzEvent, count: int) returns (r: seq<Influencer>)
    ensures |r| == Max(0, count)
    ensures SortedDescBy(r, Engagement)
    ensures forall x :: x in r ==> WellFormed(x, Sentiment(e))
  {
    var random := new SeededRandom(CharCodeSum(e.id) + 2000);
    var sentiment := Sentiment(e);
    var types := InfluencerTypes(e);
    var generated: seq<Influencer> := [];
    var i := 0;
    while i < count
      invariant 0 <= i && (count >= 0 ==> i <= count) && (count < 0 ==> i == 0)
      invariant |generated| == i
      invariant random.seed >= 0
      invariant forall x :: x in generated ==> WellFormed(x, sentiment)
    {
      var x := MakeInfluencer(random, types[i % 5], sentiment);
      generated := generated + [x];
      i := i + 1;
    }
    r := SortDescBy(generated, Engagement);
    forall x | x in r
      ensures WellFormed(x, sentiment)
    {
      assert x in multiset(r);
    }
  }

  // ---------------------------------------------------------------------
  // Annotations

  datatype Annotation = Annotation(week: int, text: string)

  /** `possibleAnnotations`: seven candidates over the weeks 8 to 11. */
  const Candidates: seq<Annotation> := [
    Annotation(8, "Anuncio 2ª fecha"),
    Annotation(8, "Pre-venta inicia"),
    Annotation(9, "Sold out zona VIP"),
    Annotation(10, "Video viral TikTok"),
    Annotation(10, "Sold out zona A"),
    Annotation(11, "Último día preventa"),
    Annotation(11, "Trending topic")]

  function Week(a: Annotation): real { a.week as real }

  /** The weeks of the annotations still to choose from. */
  function WeeksOf(s: seq<Annotation>): set<int>
  {
    set a | a in s :: a.week
  }

  /** Dropping one candidate loses at most its week. */
  lemma DropKeepsWeeks(possible: seq<Annotation>, idx: nat)
    requires idx < |possible|
    ensures WeeksOf(possible) <= WeeksOf(possible[..idx] + possible[idx + 1..]) + {possible[idx].week}
    ensures forall a :: a in possible[..idx] + possible[idx + 1..] ==> a in possible
  {
    var rest := possible[..idx] + possible[idx + 1..];
    forall w | w in WeeksOf(possible)
      ensures w in WeeksOf(rest) + {possible[idx].week}
    {
      var b :| b in possible && b.week == w;
      var k :| 0 <= k < |possible| && possible[k] == b;
      if k < idx {
        assert rest[k] == b;
      } else if k > idx {
        assert rest[k - 1] == b;
      }
    }
  }

  /** How many annotations `generateAnnotations` selects: `Math.floor(range(2, 4))`. */
  function AnnotationCount(e: BuzzEvent): (n: int)
    ensures n == 2 || n == 3
  {
    var seed := CharCodeSum(e.id) + 3000;
    RangeAt(seed, 2.0, 4.0).Floor
  }

  /**
   * What holds between the draws of `generateAnnotations`: everything
   * kept or still possible is a candidate, the kept annotations have
   * pairwise different weeks, which are exactly the selected weeks, and the
   * selected weeks together with those still possible cover weeks 8 to 11.
   */
  ghost predicate Picking(annotations: seq<Annotation>, possible: seq<Annotation>, selected: set<int>)
  {
    (forall a :: a in annotations ==> a in Candidates)
    && (forall a :: a in possible ==> a in Candidates)
    && (forall i :: 0 <= i < |annotations| ==> annotations[i].week in selected)
    && (forall i, j :: 0 <= i < j < |annotations| ==> annotations[i].week != annotations[j].week)
    && |selected| == |annotations|
    && {8, 9, 10, 11} <= selected + WeeksOf(possible)
  }

  /**
   * One draw: a random candidate is removed from `possible` and kept when
   * its week is not yet selected.
   */
  method Pick(random: SeededRandom, annotations: seq<Annotation>, possible: seq<Annotation>, selected: set<int>)
    returns (annotations': seq<Annotation>, possible': seq<Annotation>, selected': set<int>)
    requires random.seed >= 0 && |possible| > 0
    requires Picking(annotations, possible, selected)
    modifies random
    ensures random.seed >= 0
    ensures Picking(annotations', possible', selected')
    ensures |possible'| == |possible| - 1
    ensures |annotations| <= |annotations'| <= |annotations| + 1
  {
    var idx := DrawIndex(random, |possible|);
    var a := possible[idx];
    annotations', selected' := annotations, selected;
    if a.week !in selected {
      annotations' := annotations + [a];
      selected' := selected + {a.week};
    }
    possible' := possible[..idx] + possible[idx + 1..];
    DropKeepsWeeks(possible, idx);
  }

  /**
   * `generateAnnotations`: picks random candidates, dropping each one after
   * looking at it and keeping it only if its week is still free, until
   * `AnnotationCount` are kept.  Because the candidates cover four weeks the
   * target is always reached, and the result is in strictly increasing week
   * order.
   */
  method Annotations(e: BuzzEvent) returns (r: seq<Annotation>)
    ensures |r| == AnnotationCount(e)
    ensures forall a :: a in r ==> a in Candidates
    ensures forall i, j :: 0 <= i < j < |r| ==> r[i].week < r[j].week
  {
    var random := new SeededRandom(CharCodeSum(e.id) + 3000);
    var possible := Candidates;
    var annotations: seq<Annotation> := [];
    var selectedWeeks: set<int> := {};
    var x := random.Range(2.0, 4.0);
    var count := x.Floor;
    assert count == AnnotationCount(e);
    assert WeeksOf(possible) == {8, 9, 10, 11} by {
      assert Candidates[0] in possible && Candidates[2] in possible;
      assert Candidates[3] in possible && Candidates[5] in possible;
    }
    while |annotations| < count && |possible| > 0
      invariant random.seed >= 0
      invariant |annotations| <= count
      invariant Picking(annotations, possible, selectedWeeks)
      decreases |possible|
    {
      annotations, possible, selectedWeeks := Pick(random, annotations, possible, selectedWeeks);
    }
    if |annotations| < count {
      PickingCompletes(annotations, possible, selectedWeeks);
      assert false;
    }
    r := SortBy(annotations, Week);
    SortedPicks(annotations);
  }

  /** Once no candidate is left, all four weeks have been selected. */
  lemma PickingCompletes(annotations: seq<Annotation>, possible: seq<Annotation>, selected: set<int>)
    requires Picking(annotations, possible, selected) && possible == []
    ensures |annotations| >= 4
  {
    assert WeeksOf(possible) == {};
    SubsetCardinality({8, 9, 10, 11}, selected);
  }

  /** Sorting the kept annotations by week gives strictly increasing weeks, all candidates. */
  lemma SortedPicks(annotations: seq<Annotation>)
    requires forall a :: a in annotations ==> a in Candidates
    requires forall i, j :: 0 <= i < j < |annotations| ==> annotations[i].week != annotations[j].week
    ensures forall a :: a in SortBy(annotations, Week) ==> a in Candidates
    ensures forall i, j :: 0 <= i < j < |annotations| ==> SortBy(annotations, Week)[i].week < SortBy(annotations, Week)[j].week
  {
    WeeksIncrease(annotations);
    forall a | a in SortBy(annotations, Week)
      ensures a in Candidates
    {
      SortByMembers(annotations, Week);
      assert a in annotations;
    }
  }

  lemma WeeksIncrease(annotations: seq<Annotation>)
    requires forall i, j :: 0 <= i < j < |annotations| ==> annotations[i].week != annotations[j].week
    ensures forall i, j :: 0 <= i < j < |annotations| ==> SortBy(annotations, Week)[i].week < SortBy(annotations, Week)[j].week
  {
    assert DistinctKeys(annotations, Week) by {
      forall i, j | 0 <= i < j < |annotations|
        ensures Week(annotations[i]) != Week(annotations[j])
      {
      }
    }
    SortByDistinctKeys(annotations, Week);
  }

  // ---------------------------------------------------------------------
  // Platform split and radio compliance

  datatype PlatformSplit = PlatformSplit(x: int, ig: int, tikTok: int, yt: int)

  /**
   * The rounded parts of `t` for the shares `a`, `b`, `c` and the rest: they
   * add up to `t` within 2, and shares in their bands give no negative part.
   */
  function Split(t: real, a: real, b: real, c: real): (s: PlatformSplit)
    ensures t - 2.0 < (s.x + s.ig + s.tikTok + s.yt) as real <= t + 2.0
    ensures t >= 0.0 && 0.22 <= a < 0.28 && 0.27 <= b < 0.33 && 0.27 <= c < 0.33 ==>
      s.x >= 0 && s.ig >= 0 && s.tikTok >= 0 && s.yt >= 0
  {
    SharesSum(t, a, b, c);
    if t >= 0.0 && 0.22 <= a < 0.28 && 0.27 <= b < 0.33 && 0.27 <= c < 0.33 then
      SharesNonNegative(t, a, b, c);
      PlatformSplit(Round(t * a), Round(t * b), Round(t * c), Round(t * (1.0 - a - b - c)))
    else
      PlatformSplit(Round(t * a), Round(t * b), Round(t * c), Round(t * (1.0 - a - b - c)))
  }

  /** The four shares of a total add up to it. */
  lemma SharesSum(t: real, a: real, b: real, c: real)
    ensures t * a + t * b + t * c + t * (1.0 - a - b - c) == t
  {
  }

  /** Shares drawn in their bands leave a positive share for YouTube, so no part is negative. */
  lemma SharesNonNegative(t: real, a: real, b: real, c: real)
    requires t >= 0.0
    requires 0.22 <= a < 0.28 && 0.27 <= b < 0.33 && 0.27 <= c < 0.33
    ensures t * a >= 0.0 && t * b >= 0.0 && t * c >= 0.0 && t * (1.0 - a - b - c) >= 0.0
  {
    MulNonNegative(t, a);
    MulNonNegative(t, b);
    MulNonNegative(t, c);
    assert t * (1.0 - a - b - c) >= 0.0 by { MulNonNegative(t, 1.0 - a - b - c); }
  }

  /**
   * `splitByPlatform`: X takes 22-28 %, Instagram and TikTok 27-33 % each and
   * YouTube the rest; each part is rounded, so the parts add up to the total
   * within 2.
   */
  function SplitByPlatform(total: int, seed: int): (s: PlatformSplit)
    ensures seed >= 0 && total >= 0 ==> s.x >= 0 && s.ig >= 0 && s.tikTok >= 0 && s.yt >= 0
    ensures total - 2 < s.x + s.ig + s.tikTok + s.yt <= total + 2
  {
    var s1 := Lcg(seed);
    var s2 := Lcg(s1);
    Split(total as real, RangeAt(seed, 0.22, 0.28), RangeAt(s1, 0.27, 0.33), RangeAt(s2, 0.27, 0.33))
  }

  /** For a positive `x`, comparing `t / x` with `k` compares `t` with `k * x`. */
  lemma RatioAtLeast(t: real, x: real, k: real)
    requires x > 0.0
    ensures t / x >= k <==> t >= k * x
  {
    var q := t / x;
    assert q * x == t;
    if q >= k {
      assert (q - k) * x >= 0.0 by { MulNonNegative(q - k, x); }
      assert (q - k) * x == q * x - k * x;
    } else {
      assert (k - q) * x > 0.0 by { MulPositive(k - q, x); }
      assert (k - q) * x == k * x - q * x;
    }
  }

  datatype Status = Ok | Medio | Bajo

  /** `cumplimiento` is a percentage, or not a finite number when nothing is expected. */
  datatype RadioCompliance = RadioCompliance(
    eventId: string,
    total: nat,
    esperado: int,
    cumplimiento: Option<int>,
    status: Status)

  /** `(capacidad / 1000) + reachInMillions * 50`. */
  function Expected(e: BuzzEvent): (x: real)
    ensures x >= 0.0
  {
    e.capacidad as real / 1000.0 + ParseReach(e.alcance) * 50.0
  }

  /**
   * `calculateRadioCompliance`: OK when the radio total reaches the
   * expectation, Medio from 70 % up, otherwise Bajo.  With nothing expected
   * the ratio is infinite (OK) for a positive total and not a number (Bajo)
   * for a zero total.
   */
  function RadioComplianceOf(e: BuzzEvent): (c: RadioCompliance)
    ensures var x := Expected(e); var t := e.radioTotal as real;
      && (x > 0.0 ==>
            (c.status == Ok <==> t >= x)
            && (c.status == Medio <==> 0.7 * x <= t < x)
            && (c.status == Bajo <==> t < 0.7 * x)
            && c.cumplimiento == Some(Round(t / x * 100.0)))
      && (x == 0.0 ==> c.cumplimiento.None? && (c.status == Ok <==> e.radioTotal > 0))
    ensures c.esperado == Round(Expected(e)) && c.total == e.radioTotal
  {
    var x := Expected(e);
    var t := e.radioTotal as real;
    if x == 0.0 then
      RadioCompliance(e.id, e.radioTotal, Round(x), None, if e.radioTotal > 0 then Ok else Bajo)
    else
      var ratio := t / x;
      RatioAtLeast(t, x, 1.0);
      RatioAtLeast(t, x, 0.7);
      var status := if ratio >= 1.0 then Ok else if ratio >= 0.7 then Medio else Bajo;
      RadioCompliance(e.id, e.radioTotal, Round(x), Some(Round(ratio * 100.0)), status)
  }
}
