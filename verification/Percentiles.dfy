// Percentiles by truncated index into the sorted values, and what they mean: ranks among the values.

module Percentiles {

  import opened StableSorting

  predicate AtMost(x: real, y: real) {
    x <= y
  }

  // The q-th percentile of sorted values, by truncated index.
  function Percentile(sorted: seq<real>, q: nat): real
    requires sorted != []
  {
    var i := |sorted| * q / 100;
    sorted[if i <= |sorted| - 1 then i else |sorted| - 1]
  }

  function CountAtMost(xs: seq<real>, p: real): nat {
    if xs == [] then 0 else (if xs[0] <= p then 1 else 0) + CountAtMost(xs[1..], p)
  }

  // p is one of the values, and more than q percent of the values are at most p while fewer than or exactly
  // q percent are less.
  ghost predicate IsPercentile(p: real, xs: seq<real>, q: nat) {
    p in xs && 100 * CountAtMost(xs, p) > q * |xs| && 100 * CountBelow(xs, p) <= q * |xs|
  }

  function CountBelow(xs: seq<real>, p: real): nat {
    if xs == [] then 0 else (if xs[0] < p then 1 else 0) + CountBelow(xs[1..], p)
  }

  lemma {:induction false} InsertKeepsCounts(x: real, xs: seq<real>, p: real)
    ensures CountAtMost(Insert(x, xs, AtMost), p) == CountAtMost([x] + xs, p)
    ensures CountBelow(Insert(x, xs, AtMost), p) == CountBelow([x] + xs, p)
    decreases |xs|
  {
    assert ([x] + xs)[1..] == xs;
    if xs == [] || x <= xs[0] {
    } else {
      InsertKeepsCounts(x, xs[1..], p);
      assert ([x] + xs[1..])[1..] == xs[1..];
      assert Insert(x, xs, AtMost)[1..] == Insert(x, xs[1..], AtMost);
    }
  }

  lemma {:induction false} SortKeepsCounts(xs: seq<real>, p: real)
    ensures CountAtMost(Sort(xs, AtMost), p) == CountAtMost(xs, p)
    ensures CountBelow(Sort(xs, AtMost), p) == CountBelow(xs, p)
    decreases |xs|
  {
    if xs != [] {
      SortKeepsCounts(xs[1..], p);
      InsertKeepsCounts(xs[0], Sort(xs[1..], AtMost), p);
      assert ([xs[0]] + Sort(xs[1..], AtMost))[1..] == Sort(xs[1..], AtMost);
    }
  }

  lemma {:induction false} RanksInSorted(sorted: seq<real>, i: nat)
    requires i < |sorted| && Sorted(sorted, AtMost)
    ensures CountAtMost(sorted, sorted[i]) >= i + 1 && CountBelow(sorted, sorted[i]) <= i
    decreases |sorted|
  {
    assert AtMost(sorted[0], sorted[i]);
    if i == 0 {
      NoneBelow(sorted, sorted[0]);
    } else {
      RanksInSorted(sorted[1..], i - 1);
    }
  }

  lemma {:induction false} NoneBelow(xs: seq<real>, p: real)
    requires forall i | 0 <= i < |xs| :: AtMost(p, xs[i])
    ensures CountBelow(xs, p) == 0
    decreases |xs|
  {
    if xs != [] {
      assert AtMost(p, xs[0]);
      NoneBelow(xs[1..], p);
    }
  }

  // The least of the values is their q-th percentile exactly if more than q percent of them equal it.
  lemma LeastIsPercentileIff(p: real, xs: seq<real>, q: nat)
    requires forall x | x in xs :: AtMost(p, x)
    ensures IsPercentile(p, xs, q) <==> 100 * CountAtMost(xs, p) > q * |xs|
  {
    NoneBelow(xs, p);
    if CountAtMost(xs, p) > 0 { CountedIsThere(xs, p); }
  }

  lemma {:induction false} CountedIsThere(xs: seq<real>, p: real)
    requires CountAtMost(xs, p) > 0
    ensures exists x :: x in xs && x <= p
    decreases |xs|
  {
    if xs[0] <= p {
      assert xs[0] in xs;
    } else {
      CountedIsThere(xs[1..], p);
      var x :| x in xs[1..] && x <= p;
      assert x in xs;
    }
  }

  // The index i picked for the q-th of n values: the bounds that make it a rank.
  lemma PercentileIndex(n: nat, q: nat, i: int)
    requires 0 < n && q < 100 && i == n * q / 100
    ensures 0 <= i < n && 100 * i <= q * n < 100 * (i + 1)
  {
    assert n * q == q * n;
    assert q * n <= 99 * n;
  }

  lemma RankIsPercentile(xs: seq<real>, i: nat, q: nat)
    requires i < |xs| && 100 * i <= q * |xs| < 100 * (i + 1)
    ensures |Sort(xs, AtMost)| == |xs| && IsPercentile(Sort(xs, AtMost)[i], xs, q)
  {
    var sorted := Sort(xs, AtMost);
    SortIsStable(xs, AtMost);
    RanksInSorted(sorted, i);
    SortKeepsCounts(xs, sorted[i]);
    assert sorted[i] in multiset(sorted);
  }

  lemma PercentileIsRank(xs: seq<real>, q: nat)
    requires xs != [] && q < 100
    ensures |Sort(xs, AtMost)| == |xs| && |xs| * q / 100 < |xs|
    ensures IsPercentile(Percentile(Sort(xs, AtMost), q), xs, q)
  {
    var i := |xs| * q / 100;
    PercentileIndex(|xs|, q, i);
    RankIsPercentile(xs, i, q);
  }

  lemma IndexesInOrder(n: nat, p: nat, q: nat)
    requires 0 < n && p <= q < 100
    ensures 0 <= n * p / 100 <= n * q / 100 < n
  {
    assert n * p <= n * q;
    PercentileIndex(n, q, n * q / 100);
  }

  lemma PercentilesInOrder(sorted: seq<real>, p: nat, q: nat)
    requires sorted != [] && Sorted(sorted, AtMost) && p <= q < 100
    ensures Percentile(sorted, p) <= Percentile(sorted, q)
  {
    IndexesInOrder(|sorted|, p, q);
    var i, j := |sorted| * p / 100, |sorted| * q / 100;
    if i < j { assert AtMost(sorted[i], sorted[j]); }
  }

  // The three percentiles are true rank statistics, never out of bounds, and in order.
  lemma PercentilesAreRanks(xs: seq<real>)
    requires xs != []
    ensures var sorted := Sort(xs, AtMost);
            sorted != [] && |sorted| == |xs| &&
            IsPercentile(Percentile(sorted, 50), xs, 50) && IsPercentile(Percentile(sorted, 95), xs, 95) &&
            IsPercentile(Percentile(sorted, 99), xs, 99) &&
            Percentile(sorted, 50) <= Percentile(sorted, 95) <= Percentile(sorted, 99)
  {
    PercentileIsRank(xs, 50);
    PercentileIsRank(xs, 95);
    PercentileIsRank(xs, 99);
    SortIsStable(xs, AtMost);
    PercentilesInOrder(Sort(xs, AtMost), 50, 95);
    PercentilesInOrder(Sort(xs, AtMost), 95, 99);
  }
}
