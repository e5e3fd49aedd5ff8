/**
 The sort behind every ordered query and sorted list: ascending by a two-part key, rows with equal
 keys keeping their order. A descending sort is the ascending sort by the negated key.
 */
module StableSort {
  type Rank = (int, int)

  predicate Before(a: Rank, b: Rank) {
    a.0 < b.0 || (a.0 == b.0 && a.1 < b.1)
  }

  function SortBy<T>(xs: seq<T>, key: T -> Rank): (r: seq<T>)
    ensures |r| == |xs|
    decreases |xs|
  {
    if xs == [] then [] else Place(SortBy(xs[..|xs| - 1], key), xs[|xs| - 1], key)
  }

  function Place<T>(sorted: seq<T>, x: T, key: T -> Rank): (r: seq<T>)
    ensures |r| == |sorted| + 1
    decreases |sorted|
  {
    if sorted == [] || !Before(key(x), key(sorted[|sorted| - 1])) then sorted + [x]
    else Place(sorted[..|sorted| - 1], x, key) + [sorted[|sorted| - 1]]
  }

  ghost predicate Sorted<T>(xs: seq<T>, key: T -> Rank) {
    forall i, j :: 0 <= i < j < |xs| ==> !Before(key(xs[j]), key(xs[i]))
  }

  /** The elements with one key, in order. */
  function WithKey<T>(xs: seq<T>, key: T -> Rank, k: Rank): seq<T>
    decreases |xs|
  {
    if xs == [] then []
    else WithKey(xs[..|xs| - 1], key, k) + (if key(xs[|xs| - 1]) == k then [xs[|xs| - 1]] else [])
  }

  /** The first element with the least key. */
  function FirstLeast<T>(xs: seq<T>, key: T -> Rank): T
    requires xs != []
    decreases |xs|
  {
    if |xs| == 1 then xs[0]
    else
      var best := FirstLeast(xs[..|xs| - 1], key);
      if Before(key(xs[|xs| - 1]), key(best)) then xs[|xs| - 1] else best
  }

  lemma BeforeAsymmetric(a: Rank, b: Rank)
    ensures Before(a, b) ==> !Before(b, a) && a != b
  {
  }

  lemma PlaceLast<T>(sorted: seq<T>, x: T, key: T -> Rank)
    requires sorted == [] || !Before(key(x), key(sorted[|sorted| - 1]))
    requires Sorted(sorted, key)
    ensures Sorted(sorted + [x], key)
  {
  }

  lemma {:induction false} PlaceSorts<T>(sorted: seq<T>, x: T, key: T -> Rank)
    requires Sorted(sorted, key)
    ensures Sorted(Place(sorted, x, key), key)
    ensures multiset(Place(sorted, x, key)) == multiset(sorted) + multiset{x}
    decreases |sorted|
  {
    hide Before;
    if sorted == [] || !Before(key(x), key(sorted[|sorted| - 1])) {
      PlaceLast(sorted, x, key);
    } else {
      var n := |sorted| - 1;
      var front := sorted[..n];
      assert Sorted(front, key);
      PlaceSorts(front, x, key);
      var inner := Place(front, x, key);
      assert sorted == front + [sorted[n]];
      assert Place(sorted, x, key) == inner + [sorted[n]];
      hide Place;
      forall i | 0 <= i < |inner| ensures !Before(key(sorted[n]), key(inner[i])) {
        assert inner[i] in multiset(inner);
        assert inner[i] == x || inner[i] in front;
        BeforeAsymmetric(key(x), key(sorted[n]));
      }
    }
  }

  lemma {:induction false} PlaceHead<T>(sorted: seq<T>, x: T, key: T -> Rank)
    requires Sorted(sorted, key)
    ensures Place(sorted, x, key)[0] == if sorted == [] || Before(key(x), key(sorted[0])) then x else sorted[0]
    decreases |sorted|
  {
    if sorted != [] {
      var n := |sorted| - 1;
      assert Sorted(sorted[..n], key);
      PlaceHead(sorted[..n], x, key);
    }
  }

  /** Where an element is placed: after all that are not later, before all that are. */
  function PlaceAt<T>(sorted: seq<T>, x: T, key: T -> Rank): (p: nat)
    ensures p <= |sorted|
    decreases |sorted|
  {
    if sorted == [] || !Before(key(x), key(sorted[|sorted| - 1])) then |sorted|
    else PlaceAt(sorted[..|sorted| - 1], x, key)
  }

  function Inserted<T>(xs: seq<T>, p: nat, x: T): (r: seq<T>)
    requires p <= |xs|
    ensures |r| == |xs| + 1
  {
    xs[..p] + [x] + xs[p..]
  }

  lemma {:induction false} PlaceInserts<T>(sorted: seq<T>, x: T, key: T -> Rank)
    requires Sorted(sorted, key)
    ensures Place(sorted, x, key) == Inserted(sorted, PlaceAt(sorted, x, key), x)
    ensures forall i :: 0 <= i < |sorted| ==>
                          (i < PlaceAt(sorted, x, key) <==> !Before(key(x), key(sorted[i])))
    decreases |sorted|
  {
    if sorted != [] && Before(key(x), key(sorted[|sorted| - 1])) {
      var front := sorted[..|sorted| - 1];
      assert Sorted(front, key);
      PlaceInserts(front, x, key);
      assert forall i :: 0 <= i < |front| ==> front[i] == sorted[i];
    } else if sorted != [] {
      assert sorted[..|sorted|] == sorted;
    }
  }

  lemma WithKeyAppend<T>(xs: seq<T>, x: T, key: T -> Rank, k: Rank)
    ensures WithKey(xs + [x], key, k) == WithKey(xs, key, k) + (if key(x) == k then [x] else [])
  {
    assert (xs + [x])[..|xs|] == xs;
  }

  lemma {:induction false} PlaceIsStable<T>(sorted: seq<T>, x: T, key: T -> Rank, k: Rank)
    ensures WithKey(Place(sorted, x, key), key, k) == WithKey(sorted + [x], key, k)
    decreases |sorted|
  {
    hide Before;
    if sorted == [] || !Before(key(x), key(sorted[|sorted| - 1])) {
    } else {
      var n := |sorted| - 1;
      BeforeAsymmetric(key(x), key(sorted[n]));
      PlaceIsStable(sorted[..n], x, key, k);
      assert Place(sorted, x, key) == Place(sorted[..n], x, key) + [sorted[n]];
      hide Place;
      assert sorted == sorted[..n] + [sorted[n]];
      WithKeyAppend(sorted[..n], x, key, k);
      WithKeyAppend(sorted[..n], sorted[n], key, k);
      WithKeyAppend(sorted, x, key, k);
      WithKeyAppend(Place(sorted[..n], x, key), sorted[n], key, k);
    }
  }

  /** Sorting rearranges, in ascending order. */
  lemma {:induction false} SortSorts<T>(xs: seq<T>, key: T -> Rank)
    ensures Sorted(SortBy(xs, key), key)
    ensures multiset(SortBy(xs, key)) == multiset(xs)
    decreases |xs|
  {
    hide Place;
    if xs != [] {
      var n := |xs| - 1;
      SortSorts(xs[..n], key);
      PlaceSorts(SortBy(xs[..n], key), xs[n], key);
      hide Sorted;
      assert xs == xs[..n] + [xs[n]];
    }
  }

  /** Elements with equal keys keep their order. */
  lemma {:induction false} SortIsStable<T>(xs: seq<T>, key: T -> Rank, k: Rank)
    ensures WithKey(SortBy(xs, key), key, k) == WithKey(xs, key, k)
    decreases |xs|
  {
    hide Place, Before;
    if xs != [] {
      var n := |xs| - 1;
      SortIsStable(xs[..n], key, k);
      PlaceIsStable(SortBy(xs[..n], key), xs[n], key, k);
      WithKeyAppend(SortBy(xs[..n], key), xs[n], key, k);
    }
  }

  /** The sorted list is headed by the first element with the least key. */
  lemma {:induction false} SortHead<T>(xs: seq<T>, key: T -> Rank)
    requires xs != []
    ensures SortBy(xs, key)[0] == FirstLeast(xs, key)
    decreases |xs|
  {
    hide Place, Before;
    var n := |xs| - 1;
    if n > 0 {
      SortHead(xs[..n], key);
      SortSorts(xs[..n], key);
    }
    assert Sorted(SortBy(xs[..n], key), key);
    PlaceHead(SortBy(xs[..n], key), xs[n], key);
  }

  /** A list already in order is left alone. */
  lemma {:induction false} SortedIsFixed<T>(xs: seq<T>, key: T -> Rank)
    requires Sorted(xs, key)
    ensures SortBy(xs, key) == xs
    decreases |xs|
  {
    if xs != [] {
      assert Sorted(xs[..|xs| - 1], key);
      SortedIsFixed(xs[..|xs| - 1], key);
    }
  }

  lemma {:induction false} LeastIsLeast<T>(xs: seq<T>, key: T -> Rank, i: nat)
    requires i < |xs|
    ensures FirstLeast(xs, key) in xs && !Before(key(xs[i]), key(FirstLeast(xs, key)))
    decreases |xs|
  {
    var n := |xs| - 1;
    if n > 0 {
      LeastIsLeast(xs[..n], key, if i < n then i else 0);
    }
  }

  /** The elements that satisfy `p`, in order. */
  function Filter<T>(xs: seq<T>, p: T -> bool): (r: seq<T>)
    ensures |r| <= |xs|
    decreases |xs|
  {
    if xs == [] then []
    else
      var front := Filter(xs[..|xs| - 1], p);
      if p(xs[|xs| - 1]) then front + [xs[|xs| - 1]] else front
  }

  lemma {:induction false} FilterHas<T>(xs: seq<T>, p: T -> bool, x: T)
    ensures x in Filter(xs, p) <==> x in xs && p(x)
    decreases |xs|
  {
    if xs != [] {
      FilterHas(xs[..|xs| - 1], p, x);
      assert xs == xs[..|xs| - 1] + [xs[|xs| - 1]];
    }
  }

  lemma {:induction false} FilterAppend<T>(xs: seq<T>, ys: seq<T>, p: T -> bool)
    ensures Filter(xs + ys, p) == Filter(xs, p) + Filter(ys, p)
    decreases |ys|
  {
    if ys == [] {
      assert xs + ys == xs;
    } else {
      var n := |ys| - 1;
      FilterAppend(xs, ys[..n], p);
      assert (xs + ys)[..|xs + ys| - 1] == xs + ys[..n];
    }
  }

  lemma {:induction false} FilterAll<T>(xs: seq<T>, p: T -> bool, all: bool)
    requires forall i :: 0 <= i < |xs| ==> p(xs[i]) == all
    ensures Filter(xs, p) == if all then xs else []
    decreases |xs|
  {
    if xs != [] {
      FilterAll(xs[..|xs| - 1], p, all);
      assert xs == xs[..|xs| - 1] + [xs[|xs| - 1]];
    }
  }

  lemma {:induction false} PlaceFilter<T>(sorted: seq<T>, x: T, key: T -> Rank, p: T -> bool)
    requires Sorted(sorted, key)
    ensures Filter(Place(sorted, x, key), p)
            == if p(x) then Place(Filter(sorted, p), x, key) else Filter(sorted, p)
    decreases |sorted|
  {
    hide Before;
    if sorted == [] || !Before(key(x), key(sorted[|sorted| - 1])) {
      if Filter(sorted, p) != [] {
        var last := Filter(sorted, p)[|Filter(sorted, p)| - 1];
        FilterHas(sorted, p, last);
        NotBeforeAny(sorted, x, key, last);
      }
      FilterAppend(sorted, [x], p);
    } else {
      var n := |sorted| - 1;
      PlaceFilter(sorted[..n], x, key, p);
      var inner := Place(sorted[..n], x, key);
      assert (inner + [sorted[n]])[..|inner|] == inner;
      assert p(sorted[n]) ==> Filter(sorted, p)[..|Filter(sorted, p)| - 1] == Filter(sorted[..n], p);
    }
  }

  lemma NotBeforeAny<T>(sorted: seq<T>, x: T, key: T -> Rank, y: T)
    requires Sorted(sorted, key) && y in sorted && !Before(key(x), key(sorted[|sorted| - 1]))
    ensures !Before(key(x), key(y))
  {
    var i :| 0 <= i < |sorted| && sorted[i] == y;
  }

  /** Filtering rows before the sort gives what filtering the sorted rows gives. */
  lemma {:induction false} SortFilter<T>(xs: seq<T>, key: T -> Rank, p: T -> bool)
    ensures SortBy(Filter(xs, p), key) == Filter(SortBy(xs, key), p)
    decreases |xs|
  {
    hide Place, Before, Sorted;
    if xs != [] {
      var n := |xs| - 1;
      SortFilter(xs[..n], key, p);
      SortSorts(xs[..n], key);
      PlaceFilter(SortBy(xs[..n], key), xs[n], key, p);
      if p(xs[n]) {
        assert (Filter(xs[..n], p) + [xs[n]])[..|Filter(xs[..n], p)|] == Filter(xs[..n], p);
      }
    }
  }

  /** A condition that only early elements meet selects a prefix. */
  lemma {:induction false} FilterIsPrefix<T>(xs: seq<T>, p: T -> bool)
    requires forall i, j :: 0 <= i < j < |xs| && p(xs[j]) ==> p(xs[i])
    ensures Filter(xs, p) == xs[..|Filter(xs, p)|]
    decreases |xs|
  {
    if xs != [] {
      var n := |xs| - 1;
      FilterIsPrefix(xs[..n], p);
      if p(xs[n]) {
        FilterAll(xs, p, true);
        assert xs[..|xs|] == xs;
      }
    }
  }

  /** The head of a sorted list is one of its elements, and none comes before it. */
  lemma HeadIsLeast<T>(xs: seq<T>, key: T -> Rank) returns (least: T)
    requires xs != []
    ensures least == SortBy(xs, key)[0] && least in xs
    ensures forall x :: x in xs ==> !Before(key(x), key(least))
  {
    hide SortBy, FirstLeast, Before;
    least := FirstLeast(xs, key);
    SortHead(xs, key);
    LeastIsLeast(xs, key, 0);
    forall x | x in xs ensures !Before(key(x), key(least)) {
      var i :| 0 <= i < |xs| && xs[i] == x;
      LeastIsLeast(xs, key, i);
    }
  }

  /** Filtering everything out again loses an element for each that fails. */
  lemma {:induction false} FilterTwiceIff<T>(xs: seq<T>, p: T -> bool, q: T -> bool)
    ensures |Filter(Filter(xs, p), q)| <= |Filter(xs, q)|
    ensures |Filter(Filter(xs, p), q)| == |Filter(xs, q)| ==> forall x :: x in xs && q(x) ==> p(x)
    ensures (forall x :: x in xs && q(x) ==> p(x)) ==> Filter(Filter(xs, p), q) == Filter(xs, q)
    decreases |xs|
  {
    if xs != [] {
      var front, last := xs[..|xs| - 1], xs[|xs| - 1];
      FilterTwiceIff(front, p, q);
      assert xs == front + [last];
      if p(last) {
        FilterAppend(Filter(front, p), [last], q);
      }
    }
  }

  lemma FilterInserted<T>(xs: seq<T>, at: nat, x: T, p: T -> bool)
    requires at <= |xs| && !p(x)
    ensures Filter(Inserted(xs, at, x), p) == Filter(xs, p)
  {
    hide Filter;
    var a, b := xs[..at], xs[at..];
    assert xs == a + b;
    FilterSkips(a, x, b, p);
    assert Inserted(xs, at, x) == a + [x] + b;
  }

  lemma FilterSkips<T>(a: seq<T>, x: T, b: seq<T>, p: T -> bool)
    requires !p(x)
    ensures Filter(a + [x] + b, p) == Filter(a + b, p)
  {
    FilterLast(a, x, p);
    hide Filter;
    FilterAppend(a + [x], b, p);
    FilterAppend(a, b, p);
  }

  lemma FilterLast<T>(a: seq<T>, x: T, p: T -> bool)
    requires !p(x)
    ensures Filter(a + [x], p) == Filter(a, p)
  {
    assert (a + [x])[..|a|] == a;
  }
}
