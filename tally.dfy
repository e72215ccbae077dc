/**
 * `const m = new Map(); xs.forEach(x => m.set(k(x), (m.get(k(x)) || 0) + 1));
 * Array.from(m.entries())`: counting by key in a `Map`, whose entries keep
 * the order in which their keys were first set.
 */
module Tally {
  import opened Seqs

  datatype Entry<K> = Entry(key: K, count: nat)

  function Keys<K>(entries: seq<Entry<K>>): (r: seq<K>)
    ensures |r| == |entries|
    ensures forall i :: 0 <= i < |r| ==> r[i] == entries[i].key
  {
    if entries == [] then [] else Keys(entries[..|entries| - 1]) + [entries[|entries| - 1].key]
  }

  /** The sum of the counts. */
  function Total<K>(entries: seq<Entry<K>>): nat
  {
    if entries == [] then 0 else Total(entries[..|entries| - 1]) + entries[|entries| - 1].count
  }

  /** Adding one to one entry adds one to the total. */
  lemma {:induction false} TotalIncrement<K>(entries: seq<Entry<K>>, j: nat)
    requires j < |entries|
    ensures Total(entries[j := Entry(entries[j].key, entries[j].count + 1)]) == Total(entries) + 1
  {
    var e' := entries[j := Entry(entries[j].key, entries[j].count + 1)];
    var n := |entries| - 1;
    if j < n {
      TotalIncrement(entries[..n], j);
      assert e'[..n] == entries[..n][j := Entry(entries[j].key, entries[j].count + 1)];
    } else {
      assert e'[..n] == entries[..n];
    }
  }

  /** Index of `k` in `s`, or -1: `Map.get` on the keys set so far. */
  function IndexOf<K(==)>(s: seq<K>, k: K): (i: int)
    ensures -1 <= i < |s|
    ensures i >= 0 ==> s[i] == k
    ensures i < 0 ==> k !in s
  {
    if s == [] then -1
    else if s[|s| - 1] == k then |s| - 1
    else IndexOf(s[..|s| - 1], k)
  }

  /** `entries` is the tally of `keys`: each distinct key once, in first-occurrence order, with its count. */
  ghost predicate IsTally<K(!new)>(entries: seq<Entry<K>>, keys: seq<K>)
  {
    Keys(entries) == Distinct(keys)
    && (forall i :: 0 <= i < |entries| ==> entries[i].count == Occurrences(keys, entries[i].key))
    && Total(entries) == |keys|
  }

  /** Counting a key seen before increments its entry. */
  lemma CountSeenKey<K(!new)>(entries: seq<Entry<K>>, keys: seq<K>, k: K, j: nat)
    requires IsTally(entries, keys)
    requires j < |entries| && entries[j].key == k
    ensures IsTally(entries[j := Entry(k, entries[j].count + 1)], keys + [k])
  {
    var next := keys + [k];
    assert next[..|next| - 1] == keys;
    var updated := entries[j := Entry(k, entries[j].count + 1)];
    TotalIncrement(entries, j);
    assert Keys(updated) == Keys(entries);
    assert k in keys by {
      assert k in Keys(entries);
    }
    forall j' | 0 <= j' < |updated|
      ensures updated[j'].count == Occurrences(next, updated[j'].key)
    {
      if j' != j {
        assert Keys(entries)[j'] != Keys(entries)[j];
      }
    }
  }

  /** Counting a new key appends an entry with count 1. */
  lemma CountNewKey<K(!new)>(entries: seq<Entry<K>>, keys: seq<K>, k: K)
    requires IsTally(entries, keys)
    requires k !in Keys(entries)
    ensures IsTally(entries + [Entry(k, 1)], keys + [k])
  {
    var next := keys + [k];
    assert next[..|next| - 1] == keys;
    var extended := entries + [Entry(k, 1)];
    assert extended[..|entries|] == entries;
    assert k !in keys;
    assert Distinct(next) == Distinct(keys) + [k];
    assert Keys(extended) == Keys(entries) + [k];
    assert Total(extended) == Total(entries) + 1;
    forall j' | 0 <= j' < |extended|
      ensures extended[j'].count == Occurrences(next, extended[j'].key)
    {
      if j' < |entries| {
        assert extended[j'].key == Keys(entries)[j'];
      }
    }
  }

  /**
   * Counts `keys` by value.  The entries list each distinct key once, in
   * order of first occurrence, with the number of times it occurs, and the
   * counts add up to the number of keys.
   */
  method CountByKey<K(==,!new)>(keys: seq<K>) returns (entries: seq<Entry<K>>)
    ensures Keys(entries) == Distinct(keys)
    ensures forall i :: 0 <= i < |entries| ==> entries[i].count == Occurrences(keys, entries[i].key)
    ensures Total(entries) == |keys|
  {
    entries := [];
    var i := 0;
    ghost var done: seq<K> := [];
    while i < |keys|
      invariant 0 <= i <= |keys| && done == keys[..i]
      invariant IsTally(entries, done)
    {
      entries := CountOne(entries, done, keys[i]);
      PrefixSnoc(keys, i);
      done := done + [keys[i]];
      i := i + 1;
    }
    assert done == keys;
  }

  /** One pass of the loop: bump the key's entry, or append one for a new key. */
  method CountOne<K(==,!new)>(entries: seq<Entry<K>>, ghost done: seq<K>, k: K) returns (entries': seq<Entry<K>>)
    requires IsTally(entries, done)
    ensures IsTally(entries', done + [k])
  {
    var j := IndexOf(Keys(entries), k);
    if j >= 0 {
      CountSeenKey(entries, done, k, j);
      entries' := entries[j := Entry(k, entries[j].count + 1)];
    } else {
      CountNewKey(entries, done, k);
      entries' := entries + [Entry(k, 1)];
    }
  }
}
