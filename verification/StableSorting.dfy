// Stable sorting, as the library sort does it, and why there is only one stable order.

module StableSorting {

  ghost predicate TotalPreorder<T(!new)>(leq: (T, T) -> bool) {
    (forall x, y :: leq(x, y) || leq(y, x)) &&
    (forall x, y, z :: leq(x, y) && leq(y, z) ==> leq(x, z))
  }

  ghost predicate Sorted<T>(xs: seq<T>, leq: (T, T) -> bool) {
    forall i, j :: 0 <= i < j < |xs| ==> leq(xs[i], xs[j])
  }

  // The elements of xs that rank equal to y, in order.
  function Peers<T>(xs: seq<T>, y: T, leq: (T, T) -> bool): seq<T> {
    if xs == [] then []
    else (if leq(xs[0], y) && leq(y, xs[0]) then [xs[0]] else []) + Peers(xs[1..], y, leq)
  }

  function Insert<T>(x: T, xs: seq<T>, leq: (T, T) -> bool): seq<T> {
    if xs == [] || leq(x, xs[0]) then [x] + xs else [xs[0]] + Insert(x, xs[1..], leq)
  }

  function Sort<T>(xs: seq<T>, leq: (T, T) -> bool): seq<T> {
    if xs == [] then [] else Insert(xs[0], Sort(xs[1..], leq), leq)
  }

  lemma {:induction false} InsertAddsOne<T>(x: T, xs: seq<T>, leq: (T, T) -> bool)
    ensures multiset(Insert(x, xs, leq)) == multiset(xs) + multiset{x}
    decreases |xs|
  {
    if xs == [] || leq(x, xs[0]) {
    } else {
      InsertAddsOne(x, xs[1..], leq);
      assert xs == [xs[0]] + xs[1..];
    }
  }

  lemma {:induction false} InsertSorts<T(!new)>(x: T, xs: seq<T>, leq: (T, T) -> bool)
    requires TotalPreorder(leq) && Sorted(xs, leq)
    ensures Sorted(Insert(x, xs, leq), leq)
    decreases |xs|
  {
    if xs == [] || leq(x, xs[0]) {
    } else {
      var rest := Insert(x, xs[1..], leq);
      InsertSorts(x, xs[1..], leq);
      InsertAddsOne(x, xs[1..], leq);
      forall j | 0 <= j < |rest| ensures leq(xs[0], rest[j]) {
        assert rest[j] in multiset(rest);
        assert rest[j] == x || rest[j] in xs[1..];
      }
    }
  }

  lemma {:induction false} InsertKeepsPeers<T(!new)>(x: T, xs: seq<T>, y: T, leq: (T, T) -> bool)
    requires TotalPreorder(leq)
    ensures Peers(Insert(x, xs, leq), y, leq) == Peers([x] + xs, y, leq)
    decreases |xs|
  {
    assert ([x] + xs)[1..] == xs;
    if xs == [] || leq(x, xs[0]) {
    } else {
      InsertKeepsPeers(x, xs[1..], y, leq);
      assert ([x] + xs[1..])[1..] == xs[1..];
      assert Insert(x, xs, leq)[1..] == Insert(x, xs[1..], leq);
    }
  }

  // Sorting sorts, loses and invents nothing, and keeps the order of equals.
  lemma {:induction false} SortIsStable<T(!new)>(xs: seq<T>, leq: (T, T) -> bool)
    requires TotalPreorder(leq)
    ensures Sorted(Sort(xs, leq), leq) && multiset(Sort(xs, leq)) == multiset(xs)
    ensures |Sort(xs, leq)| == |xs|
    ensures forall y :: Peers(Sort(xs, leq), y, leq) == Peers(xs, y, leq)
    decreases |xs|
  {
    if xs != [] {
      SortIsStable(xs[1..], leq);
      assert xs == [xs[0]] + xs[1..];
      InsertSorts(xs[0], Sort(xs[1..], leq), leq);
      InsertAddsOne(xs[0], Sort(xs[1..], leq), leq);
      assert |Sort(xs, leq)| == |multiset(Sort(xs, leq))|;
      forall y ensures Peers(Sort(xs, leq), y, leq) == Peers(xs, y, leq) {
        InsertKeepsPeers(xs[0], Sort(xs[1..], leq), y, leq);
        assert ([xs[0]] + Sort(xs[1..], leq))[1..] == Sort(xs[1..], leq);
      }
    }
  }

  lemma {:induction false} PeersOfHead<T(!new)>(xs: seq<T>, leq: (T, T) -> bool)
    requires TotalPreorder(leq) && xs != []
    ensures Peers(xs, xs[0], leq) != [] && Peers(xs, xs[0], leq)[0] == xs[0]
  {
  }

  lemma {:induction false} PeersAreMembers<T(!new)>(xs: seq<T>, y: T, leq: (T, T) -> bool)
    ensures forall x :: x in Peers(xs, y, leq) ==> x in xs && leq(x, y) && leq(y, x)
    decreases |xs|
  {
    if xs != [] { PeersAreMembers(xs[1..], y, leq); }
  }

  // A sorted sequence is determined by its classes of equals: a stable sort has one possible result.
  lemma {:induction false} StableOrderIsUnique<T(!new)>(a: seq<T>, b: seq<T>, leq: (T, T) -> bool)
    requires TotalPreorder(leq) && Sorted(a, leq) && Sorted(b, leq)
    requires forall y :: Peers(a, y, leq) == Peers(b, y, leq)
    ensures a == b
    decreases |a|
  {
    if a == [] {
      if b != [] { PeersOfHead(b, leq); }
    } else {
      PeersOfHead(a, leq);
      assert Peers(b, a[0], leq) != [];
      SameHead(a, b, leq);
      forall y ensures Peers(a[1..], y, leq) == Peers(b[1..], y, leq) {
        assert Peers(a, y, leq) == Peers(b, y, leq);
        if leq(a[0], y) && leq(y, a[0]) {
          assert Peers(a, y, leq)[1..] == Peers(a[1..], y, leq);
          assert Peers(b, y, leq)[1..] == Peers(b[1..], y, leq);
        } else {
          assert Peers(a, y, leq) == Peers(a[1..], y, leq);
          assert Peers(b, y, leq) == Peers(b[1..], y, leq);
        }
      }
      StableOrderIsUnique(a[1..], b[1..], leq);
      assert a == [a[0]] + a[1..] && b == [b[0]] + b[1..];
    }
  }

  lemma SameHead<T(!new)>(a: seq<T>, b: seq<T>, leq: (T, T) -> bool)
    requires TotalPreorder(leq) && Sorted(a, leq) && Sorted(b, leq) && a != [] && b != []
    requires forall y :: Peers(a, y, leq) == Peers(b, y, leq)
    ensures a[0] == b[0]
  {
    PeersOfHead(a, leq);
    PeersOfHead(b, leq);
    PeersAreMembers(b, a[0], leq);
    PeersAreMembers(a, b[0], leq);
    assert a[0] in b && b[0] in a;
    assert leq(a[0], b[0]) && leq(b[0], a[0]);
    assert Peers(b, a[0], leq)[0] == b[0];
  }
}
