/**
 * `Array.prototype.sort` with a numeric comparator, as the dashboard calls it:
 * `(a, b) => key(a) - key(b)` for ascending and `(a, b) => key(b) - key(a)` for
 * descending order.  The engine's sort is stable, so the model is a stable
 * insertion sort and its contract says so: the result is sorted, is a
 * permutation of the input, and keeps the input order among equal keys.
 */
module Sorting {
  import opened Seqs

  /** Ascending by `key`. */
  ghost predicate SortedBy<T>(s: seq<T>, key: T -> real)
  {
    forall i, j :: 0 <= i < j < |s| ==> key(s[i]) <= key(s[j])
  }

  /** Descending by `key`. */
  ghost predicate SortedDescBy<T>(s: seq<T>, key: T -> real)
  {
    forall i, j :: 0 <= i < j < |s| ==> key(s[i]) >= key(s[j])
  }

  /** Places `x` after every element whose key is not greater than its own. */
  function Insert<T>(s: seq<T>, x: T, key: T -> real): (r: seq<T>)
    requires SortedBy(s, key)
    ensures SortedBy(r, key)
    ensures multiset(r) == multiset(s) + multiset{x}
    ensures |r| == |s| + 1
  {
    if s == [] then [x]
    else if key(s[0]) > key(x) then [x] + s
    else
      var t := Insert(s[1..], x, key);
      AboveHead(s, x, t, key);
      assert multiset(s) == multiset{s[0]} + multiset(s[1..]) by {
        assert s == [s[0]] + s[1..];
      }
      [s[0]] + t
  }

  /** Whatever rearranges the rest of a sorted sequence and an element not below its head stays above its head. */
  lemma AboveHead<T>(s: seq<T>, x: T, t: seq<T>, key: T -> real)
    requires SortedBy(s, key) && s != [] && key(s[0]) <= key(x)
    requires multiset(t) == multiset(s[1..]) + multiset{x}
    ensures forall i :: 0 <= i < |t| ==> key(s[0]) <= key(t[i])
  {
    forall i | 0 <= i < |t|
      ensures key(s[0]) <= key(t[i])
    {
      assert t[i] in multiset(t);
    }
  }

  /** `[...s].sort((a, b) => key(a) - key(b))`. */
  function SortBy<T>(s: seq<T>, key: T -> real): (r: seq<T>)
    ensures SortedBy(r, key)
    ensures multiset(r) == multiset(s)
    ensures |r| == |s|
  {
    if s == [] then []
    else
      assert s == s[..|s| - 1] + [s[|s| - 1]];
      Insert(SortBy(s[..|s| - 1], key), s[|s| - 1], key)
  }

  /** `[...s].sort((a, b) => key(b) - key(a))`. */
  function SortDescBy<T>(s: seq<T>, key: T -> real): (r: seq<T>)
    ensures SortedDescBy(r, key)
    ensures multiset(r) == multiset(s)
    ensures |r| == |s|
  {
    SortBy(s, x => -key(x))
  }

  /** The elements that carry key `k`, in order. */
  function WithKey<T>(s: seq<T>, key: T -> real, k: real): seq<T>
  {
    if s == [] then []
    else WithKey(s[..|s| - 1], key, k) + (if key(s[|s| - 1]) == k then [s[|s| - 1]] else [])
  }

  lemma {:induction false} WithKeyConcat<T>(a: seq<T>, b: seq<T>, key: T -> real, k: real)
    ensures WithKey(a + b, key, k) == WithKey(a, key, k) + WithKey(b, key, k)
    decreases |b|
  {
    if b == [] {
      assert a + b == a;
    } else {
      var b' := b[..|b| - 1];
      assert (a + b)[..|a + b| - 1] == a + b';
      WithKeyConcat(a, b', key, k);
    }
  }

  lemma {:induction false} WithKeyNone<T>(s: seq<T>, key: T -> real, k: real)
    requires forall i :: 0 <= i < |s| ==> key(s[i]) != k
    ensures WithKey(s, key, k) == []
  {
    if s != [] {
      WithKeyNone(s[..|s| - 1], key, k);
    }
  }

  lemma WithKeySingle<T>(x: T, key: T -> real, k: real)
    ensures WithKey([x], key, k) == if key(x) == k then [x] else []
  {
    assert [x][..0] == [];
  }

  lemma InsertStableFront<T>(s: seq<T>, x: T, key: T -> real, k: real)
    requires s != [] && SortedBy(s, key) && key(s[0]) > key(x)
    ensures WithKey([x] + s, key, k) == WithKey(s, key, k) + WithKey([x], key, k)
  {
    WithKeyConcat([x], s, key, k);
    WithKeySingle(x, key, k);
    if key(x) == k {
      WithKeyNone(s, key, k);
    }
  }

  lemma {:induction false} InsertStable<T>(s: seq<T>, x: T, key: T -> real, k: real)
    requires SortedBy(s, key)
    ensures WithKey(Insert(s, x, key), key, k) == WithKey(s, key, k) + WithKey([x], key, k)
  {
    if s == [] {
      assert Insert(s, x, key) == [x];
      WithKeySingle(x, key, k);
    } else if key(s[0]) > key(x) {
      assert Insert(s, x, key) == [x] + s;
      InsertStableFront(s, x, key, k);
    } else {
      var t := Insert(s[1..], x, key);
      assert Insert(s, x, key) == [s[0]] + t;
      assert SortedBy(s[1..], key);
      InsertStable(s[1..], x, key, k);
      WithKeyConcat([s[0]], t, key, k);
      WithKeyConcat([s[0]], s[1..], key, k);
      assert [s[0]] + s[1..] == s;
      assert WithKey(Insert(s, x, key), key, k) == WithKey([s[0]], key, k) + WithKey(t, key, k);
      assert WithKey(t, key, k) == WithKey(s[1..], key, k) + WithKey([x], key, k);
      assert WithKey(s, key, k) == WithKey([s[0]], key, k) + WithKey(s[1..], key, k);
    }
  }

  /**
   * Stability: sorting does not reorder elements that share a key.  The
   * elements of any one key appear in the output exactly as in the input.
   */
  lemma {:induction false} SortByStable<T>(s: seq<T>, key: T -> real, k: real)
    ensures WithKey(SortBy(s, key), key, k) == WithKey(s, key, k)
  {
    if s != [] {
      var s' := s[..|s| - 1];
      var x := s[|s| - 1];
      assert s' + [x] == s;
      var r := SortBy(s', key);
      assert SortBy(s, key) == Insert(r, x, key);
      SortByStable(s', key, k);
      InsertStable(r, x, key, k);
      WithKeyConcat(s', [x], key, k);
      assert WithKey(SortBy(s, key), key, k) == WithKey(r, key, k) + WithKey([x], key, k);
      assert WithKey(s, key, k) == WithKey(s', key, k) + WithKey([x], key, k);
    }
  }

  /** Every element of a sorted permutation comes from the input, and conversely. */
  lemma SortByMembers<T>(s: seq<T>, key: T -> real)
    ensures forall x :: x in SortBy(s, key) <==> x in s
  {
    var r := SortBy(s, key);
    forall x ensures x in r <==> x in s {
      assert x in r <==> x in multiset(r);
      assert x in s <==> x in multiset(s);
    }
  }

  /** The first `n` elements of a sorted sequence are still sorted. */
  lemma TakeSorted<T>(s: seq<T>, key: T -> real, n: nat)
    requires SortedBy(s, key) && n <= |s|
    ensures SortedBy(s[..n], key)
  {
  }

  /** The first `n` elements of a sorted sequence are its `n` smallest: nothing left out is smaller. */
  lemma TakeIsTop<T>(s: seq<T>, key: T -> real, n: nat)
    requires SortedBy(s, key) && n <= |s|
    ensures forall i, y :: 0 <= i < n && y in s && y !in s[..n] ==> key(s[i]) <= key(y)
  {
    forall i, y | 0 <= i < n && y in s && y !in s[..n]
      ensures key(s[i]) <= key(y)
    {
      var j :| 0 <= j < |s| && s[j] == y;
    }
  }

  /** The first `n` elements of a descending sequence are its `n` largest. */
  lemma TakeIsTopDesc<T>(s: seq<T>, key: T -> real, n: nat)
    requires SortedDescBy(s, key) && n <= |s|
    ensures forall i, y :: 0 <= i < n && y in s && y !in s[..n] ==> key(s[i]) >= key(y)
  {
    forall i, y | 0 <= i < n && y in s && y !in s[..n]
      ensures key(s[i]) >= key(y)
    {
      var j :| 0 <= j < |s| && s[j] == y;
    }
  }
  /** A prefix holds no element more often than the whole sequence. */
  lemma PrefixSubMultiset<T>(s: seq<T>, n: nat)
    requires n <= |s|
    ensures multiset(s[..n]) <= multiset(s)
  {
    assert s == s[..n] + s[n..];
  }

  /** The first `n` of an ascending sort: still ascending, drawn from the input, and nothing left out ranks lower. */
  lemma AscPrefixIsTop<T>(s: seq<T>, key: T -> real, n: nat)
    requires n <= |s|
    ensures var r := SortBy(s, key)[..n];
      SortedBy(r, key)
      && multiset(r) <= multiset(s)
      && (forall x :: x in r ==> x in s)
      && (forall i, y :: 0 <= i < n && y in s && y !in r ==> key(r[i]) <= key(y))
  {
    var sorted := SortBy(s, key);
    var r := sorted[..n];
    PrefixSubMultiset(sorted, n);
    TakeSorted(sorted, key, n);
    TakeIsTop(sorted, key, n);
    forall x | x in r
      ensures x in s
    {
      assert x in sorted;
      assert x in multiset(sorted);
    }
    forall y | y in s
      ensures y in sorted
    {
      assert y in multiset(s);
    }
  }

  /** The first `n` of a descending sort: still descending, drawn from the input, and nothing left out ranks higher. */
  lemma DescPrefixIsTop<T>(s: seq<T>, key: T -> real, n: nat)
    requires n <= |s|
    ensures var r := SortDescBy(s, key)[..n];
      SortedDescBy(r, key)
      && multiset(r) <= multiset(s)
      && (forall x :: x in r ==> x in s)
      && (forall i, y :: 0 <= i < n && y in s && y !in r ==> key(r[i]) >= key(y))
  {
    var sorted := SortDescBy(s, key);
    PrefixSubMultiset(sorted, n);
    TakeIsTopDesc(sorted, key, n);
    forall x | x in sorted
      ensures x in s
    {
      assert x in multiset(sorted);
    }
    forall y | y in s
      ensures y in sorted
    {
      assert y in multiset(s);
    }
  }


  /** No two elements share a key. */
  ghost predicate DistinctKeys<T>(s: seq<T>, key: T -> real)
  {
    forall i, j :: 0 <= i < j < |s| ==> key(s[i]) != key(s[j])
  }

  lemma {:induction false} InsertDistinctKeys<T>(s: seq<T>, x: T, key: T -> real)
    requires SortedBy(s, key) && DistinctKeys(s, key)
    requires forall i :: 0 <= i < |s| ==> key(s[i]) != key(x)
    ensures DistinctKeys(Insert(s, x, key), key)
  {
    if s != [] && key(s[0]) <= key(x) {
      var t := Insert(s[1..], x, key);
      InsertDistinctKeys(s[1..], x, key);
      assert Insert(s, x, key) == [s[0]] + t;
      forall j | 0 <= j < |t|
        ensures key(s[0]) != key(t[j])
      {
        assert t[j] in multiset(t);
        if t[j] != x {
          assert t[j] in multiset(s[1..]);
          var k :| 0 <= k < |s[1..]| && s[1..][k] == t[j];
          assert s[k + 1] == t[j];
        }
      }
    }
  }

  /** Sorting keeps distinct keys distinct; with sortedness, the keys strictly increase. */
  lemma {:induction false} SortByDistinctKeys<T>(s: seq<T>, key: T -> real)
    requires DistinctKeys(s, key)
    ensures DistinctKeys(SortBy(s, key), key)
    ensures forall i, j :: 0 <= i < j < |s| ==> key(SortBy(s, key)[i]) < key(SortBy(s, key)[j])
  {
    if s != [] {
      var s' := s[..|s| - 1];
      var x := s[|s| - 1];
      var r := SortBy(s', key);
      SortByDistinctKeys(s', key);
      forall i | 0 <= i < |r|
        ensures key(r[i]) != key(x)
      {
        assert r[i] in multiset(s');
        var k :| 0 <= k < |s'| && s'[k] == r[i];
        assert s[k] == r[i];
      }
      InsertDistinctKeys(r, x, key);
    }
  }
}
