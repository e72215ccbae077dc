/** Values and arithmetic shared by every part of the dashboard model. */
module Common {

  /** A value that may be absent: a date string that does not parse, a missing optional field. */
  datatype Option<+T> = None | Some(value: T)

  /** JavaScript's `Math.round`: the nearest integer, with halves rounded towards +infinity. */
  function Round(x: real): (r: int)
    ensures x - 0.5 < r as real <= x + 0.5
  {
    (x + 0.5).Floor
  }

  /** A rounded value never leaves an interval whose ends are integers. */
  lemma RoundWithin(x: real, lo: int, hi: int)
    requires lo as real <= x <= hi as real
    ensures lo <= Round(x) <= hi
  {
    assert lo as real <= x + 0.5;
    assert (x + 0.5).Floor >= lo;
  }

  /** `Math.round` is monotone. */
  lemma RoundMonotone(x: real, y: real)
    requires x <= y
    ensures Round(x) <= Round(y)
  {
    assert (x + 0.5).Floor as real <= y + 0.5;
  }

  /** `total / n`: the mean of `n` values summing to `total`. */
  function Mean(total: real, n: nat): (m: real)
    requires n >= 1
    ensures m * n as real == total
  {
    total / n as real
  }

  /** `Math.max(lo, Math.min(hi, x))`. */
  function Clamp(x: int, lo: int, hi: int): (r: int)
    requires lo <= hi
    ensures lo <= r <= hi
    ensures lo <= x <= hi ==> r == x
    ensures x < lo ==> r == lo
    ensures hi < x ==> r == hi
  {
    if x < lo then lo else if x > hi then hi else x
  }

  /** Clamping to [lo, hi] where lo <= x never changes x from below, only from above. */
  lemma ClampOnlyFromAbove(x: int, lo: int, hi: int)
    requires lo <= x && lo <= hi
    ensures Clamp(x, lo, hi) == if x > hi then hi else x
  {
  }

  function Min(a: int, b: int): int { if a <= b then a else b }
  function Max(a: int, b: int): int { if a >= b then a else b }

  /**
   * Where `Array.prototype.slice` puts a start or end index `n` on an array
   * of length `len`: a negative `n` counts from the end.
   */
  function SliceIndex(n: int, len: nat): (e: nat)
    ensures e <= len
    ensures n >= 0 ==> e == Min(n, len)
    ensures n < 0 ==> e == Max(0, len + n)
  {
    if n >= 0 then Min(n, len) else Max(0, len + n)
  }

  /** `s.slice(start, end)`. */
  function Slice<T>(s: seq<T>, start: int, end: int): (r: seq<T>)
    ensures |r| <= |s|
    ensures SliceIndex(start, |s|) <= SliceIndex(end, |s|) ==>
      r == s[SliceIndex(start, |s|)..SliceIndex(end, |s|)]
    ensures SliceIndex(end, |s|) < SliceIndex(start, |s|) ==> r == []
  {
    var from := SliceIndex(start, |s|);
    var to := SliceIndex(end, |s|);
    if from <= to then s[from..to] else []
  }

  /** `s.slice(start)`. */
  function SliceFrom<T>(s: seq<T>, start: int): (r: seq<T>)
    ensures r == s[SliceIndex(start, |s|)..]
    ensures start < 0 ==> |r| == Min(-start, |s|)
  {
    s[SliceIndex(start, |s|)..]
  }

  /** `s.slice(0, n)`: a prefix, of length `n` when `s` is long enough. */
  function Take<T>(s: seq<T>, n: int): (r: seq<T>)
    ensures |r| <= |s|
    ensures r <= s
    ensures n >= 0 ==> |r| == Min(n, |s|)
  {
    Slice(s, 0, n)
  }

  /** Cardinality is monotone under the subset order (used for counting distinct weeks). */
  lemma {:induction false} SubsetCardinality<T>(a: set<T>, b: set<T>)
    requires a <= b
    ensures |a| <= |b|
    decreases |b|
  {
    if a != {} {
      var x :| x in a;
      SubsetCardinality(a - {x}, b - {x});
    }
  }
}
