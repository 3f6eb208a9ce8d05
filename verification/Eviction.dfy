// Bounding a map by evicting its oldest entries.

module Eviction {

  import opened Wrappers
  import opened StableSorting

  type Entry = (string, int)

  predicate NoNewer(a: Entry, b: Entry) {
    a.1 <= b.1
  }

  // kept is m cut down to the newest cap entries: nothing else changes, and no evicted entry is newer than a
  // kept one. Entries with equal stamps may go either way.
  ghost predicate KeepsNewest<V>(m: map<string, V>, kept: map<string, V>, stamp: V -> int, cap: nat) {
    kept.Keys <= m.Keys &&
    (forall k | k in kept :: kept[k] == m[k]) &&
    (if |m| <= cap then kept == m else |kept| == cap) &&
    (forall k, e | k in kept && e in m && e !in kept :: stamp(m[e]) <= stamp(m[k]))
  }

  ghost predicate ListsEntries<V>(m: map<string, V>, entries: seq<Entry>, stamp: V -> int) {
    (forall i | 0 <= i < |entries| :: entries[i].0 in m && entries[i].1 == stamp(m[entries[i].0])) &&
    (forall i, j | 0 <= i < j < |entries| :: entries[i].0 != entries[j].0)
  }

  // The entries of a map, in an arbitrary order.
  method Entries<V>(m: map<string, V>, stamp: V -> int) returns (entries: seq<Entry>)
    ensures ListsEntries(m, entries, stamp) && |entries| == |m|
  {
    entries := [];
    var rest := m.Keys;
    while rest != {}
      invariant rest <= m.Keys && |entries| + |rest| == |m|
      invariant ListsEntries(m, entries, stamp) && forall i | 0 <= i < |entries| :: entries[i].0 !in rest
      decreases rest
    {
      var k :| k in rest;
      rest := rest - {k};
      entries := entries + [(k, stamp(m[k]))];
    }
  }

  lemma {:induction false} SortedEntriesStillListed<V>(m: map<string, V>, entries: seq<Entry>, sorted: seq<Entry>,
                                                       stamp: V -> int)
    requires ListsEntries(m, entries, stamp) && multiset(sorted) == multiset(entries)
    ensures ListsEntries(m, sorted, stamp) && |sorted| == |entries|
  {
    assert |sorted| == |multiset(sorted)|;
    forall i | 0 <= i < |sorted| ensures sorted[i].0 in m && sorted[i].1 == stamp(m[sorted[i].0]) {
      assert sorted[i] in multiset(entries);
    }
    forall i, j | 0 <= i < j < |sorted| ensures sorted[i].0 != sorted[j].0 {
      if sorted[i].0 == sorted[j].0 {
        assert sorted[i] == sorted[j];
        NoDuplicates(m, entries, stamp, sorted[i]);
        TwiceInMultiset(sorted, i, j);
      }
    }
  }

  lemma {:induction false} NoDuplicates<V>(m: map<string, V>, entries: seq<Entry>, stamp: V -> int, e: Entry)
    requires ListsEntries(m, entries, stamp)
    ensures multiset(entries)[e] <= 1
    decreases |entries|
  {
    if entries != [] {
      var front, last := entries[..|entries| - 1], entries[|entries| - 1];
      assert entries == front + [last];
      NoDuplicates(m, front, stamp, e);
      assert last !in front;
      assert multiset(front)[last] == 0;
    }
  }

  method EvictOldest<V>(m: map<string, V>, stamp: V -> int, cap: nat) returns (kept: map<string, V>)
    ensures KeepsNewest(m, kept, stamp, cap)
  {
    kept := m;
    if |m| <= cap {
      return;
    }
    var entries := Entries(m, stamp);
    var sorted := Sort(entries, NoNewer);
    SortIsStable(entries, NoNewer);
    SortedEntriesStillListed(m, entries, sorted, stamp);
    var removeCount := |sorted| - cap;
    for i := 0 to removeCount
      invariant kept.Keys <= m.Keys && forall k | k in kept :: kept[k] == m[k]
      invariant |kept| == |m| - i
      invariant forall k | k in m :: k !in kept <==> exists j :: 0 <= j < i && sorted[j].0 == k
    {
      var id := sorted[i].0;
      assert id in kept;
      var smaller := kept - {id};
      assert smaller.Keys == kept.Keys - {id};
      assert |smaller.Keys| == |kept.Keys| - 1;
      kept := smaller;
    }
    forall k, e | k in kept && e in m && e !in kept ensures stamp(m[e]) <= stamp(m[k]) {
      var j :| 0 <= j < removeCount && sorted[j].0 == e;
      var i := AllKeysListed(m, sorted, stamp, k);
      assert removeCount <= i;
      assert NoNewer(sorted[j], sorted[i]);
    }
  }

  function KeySet(entries: seq<Entry>): set<string> {
    if entries == [] then {} else {entries[0].0} + KeySet(entries[1..])
  }

  lemma {:induction false} KeySetSize<V>(m: map<string, V>, entries: seq<Entry>, stamp: V -> int)
    requires ListsEntries(m, entries, stamp)
    ensures |KeySet(entries)| == |entries| && KeySet(entries) <= m.Keys
    ensures forall k | k in KeySet(entries) :: exists i :: 0 <= i < |entries| && entries[i].0 == k
    decreases |entries|
  {
    if entries != [] {
      KeySetSize(m, entries[1..], stamp);
      assert entries[0].0 !in KeySet(entries[1..]);
      forall k | k in KeySet(entries) ensures exists i :: 0 <= i < |entries| && entries[i].0 == k {
        if k == entries[0].0 {
        } else {
          var i :| 0 <= i < |entries[1..]| && entries[1..][i].0 == k;
          assert entries[i + 1].0 == k;
        }
      }
    }
  }

  lemma AllKeysListed<V>(m: map<string, V>, entries: seq<Entry>, stamp: V -> int, k: string) returns (i: nat)
    requires ListsEntries(m, entries, stamp) && |entries| == |m| && k in m
    ensures i < |entries| && entries[i].0 == k
  {
    KeySetSize(m, entries, stamp);
    SubsetOfSameSize(KeySet(entries), m.Keys);
    i :| 0 <= i < |entries| && entries[i].0 == k;
  }

  lemma SubsetOfSameSize<T>(a: set<T>, b: set<T>)
    requires a <= b && |a| == |b|
    ensures a == b
  {
    assert b == a + (b - a);
  }
}
