/** Loading all descendants of a conversation with a stack and no visited set. */
module BranchTree {
  import opened Wrappers
  import opened ConversationForest

  // ---------------------------------------------------------------- descendants

  /** The rows of the workspace other than the root, in whatever order the query returns them. */
  ghost predicate ListingOf(f: Forest, root: Id, listing: seq<Id>)
    requires root in f
  {
    Distinct(listing) && forall x :: x in listing <==> x in f && x != root && f[x].workspace == f[root].workspace
  }

  function ChildrenOf(f: Forest, listing: seq<Id>, p: Id): (children: seq<Id>)
    requires forall x :: x in listing ==> x in f
    ensures forall x :: x in children <==> x in listing && f[x].parent == Some(p)
    decreases |listing|
  {
    if listing == [] then []
    else
      var n := |listing| - 1;
      assert listing == listing[..n] + [listing[n]];
      ChildrenOf(f, listing[..n], p) + (if f[listing[n]].parent == Some(p) then [listing[n]] else [])
  }

  /** x is listed and n + 1 parent steps through listed rows lead to the root. */
  ghost predicate Below(f: Forest, listing: seq<Id>, root: Id, x: Id, n: nat)
    decreases n
  {
    && x in listing && x in f && f[x].parent.Some?
    && (if n == 0 then f[x].parent.value == root else Below(f, listing, root, f[x].parent.value, n - 1))
  }

  ghost predicate Descends(f: Forest, listing: seq<Id>, root: Id, x: Id) {
    exists n: nat :: Below(f, listing, root, x, n)
  }

  /** Each id's parent is the root or occurs earlier. */
  ghost predicate ParentsFirst(f: Forest, root: Id, order: seq<Id>) {
    forall i :: 0 <= i < |order| ==> ParentBefore(f, root, order, i)
  }

  ghost predicate ParentBefore(f: Forest, root: Id, order: seq<Id>, i: nat)
    requires i < |order|
  {
    order[i] in f && f[order[i]].parent.Some?
    && (f[order[i]].parent.value == root || f[order[i]].parent.value in order[..i])
  }

  /** x hangs below the root or below something already found. */
  ghost predicate Hangs(f: Forest, root: Id, found: seq<Id>, x: Id) {
    x in f && f[x].parent.Some? && (f[x].parent.value == root || f[x].parent.value in found)
  }

  /** What the stack loop keeps: nothing is found twice, and exactly what hangs below something found is found or pending. */
  ghost predicate Searching(f: Forest, listing: seq<Id>, root: Id, found: seq<Id>, stack: seq<Id>) {
    && Distinct(found + stack)
    && ParentsFirst(f, root, found)
    && (forall x :: x in found || x in stack <==> x in listing && Hangs(f, root, found, x))
  }

  lemma {:induction false} ChildrenDistinct(f: Forest, listing: seq<Id>, p: Id)
    requires (forall x :: x in listing ==> x in f) && Distinct(listing)
    ensures Distinct(ChildrenOf(f, listing, p))
    decreases |listing|
  {
    if listing != [] {
      var n := |listing| - 1;
      ChildrenDistinct(f, listing[..n], p);
      assert listing[n] !in listing[..n];
    }
  }

  lemma SearchStarts(f: Forest, listing: seq<Id>, root: Id)
    requires (forall x :: x in listing ==> x in f) && Distinct(listing)
    ensures Searching(f, listing, root, [], ChildrenOf(f, listing, root))
  {
    ChildrenDistinct(f, listing, root);
    assert [] + ChildrenOf(f, listing, root) == ChildrenOf(f, listing, root);
  }

  lemma DistinctMoved(found: seq<Id>, rest: seq<Id>, current: Id, children: seq<Id>)
    requires Distinct(found + (rest + [current])) && Distinct(children)
    requires forall x :: x in children ==> x !in found && x !in rest && x != current
    ensures Distinct((found + [current]) + (rest + children))
    ensures current !in found && current !in rest
  {
    var a := found + (rest + [current]);
    var b := (found + [current]) + (rest + children);
    assert a[|found| + |rest|] == current;
    forall i | 0 <= i < |found| ensures found[i] == a[i] {
    }
    forall i | 0 <= i < |rest| ensures rest[i] == a[|found| + i] {
    }
    forall i | |found| < i <= |found| + |rest| ensures b[i] == a[i - 1] {
    }
    forall i, j | 0 <= i < j < |b| ensures b[i] != b[j] {
      if j > |found| + |rest| {
        assert b[j] == children[j - |found| - 1 - |rest|];
        assert b[j] in children;
        if i > |found| + |rest| {
          assert b[i] == children[i - |found| - 1 - |rest|];
        }
      } else if i < |found| {
        assert b[i] == a[i];
      }
    }
  }

  lemma SearchSteps(f: Forest, listing: seq<Id>, root: Id, found: seq<Id>, rest: seq<Id>, current: Id)
    requires (forall x :: x in listing ==> x in f) && Distinct(listing) && root !in listing
    requires Searching(f, listing, root, found, rest + [current])
    ensures Searching(f, listing, root, found + [current], rest + ChildrenOf(f, listing, current))
    ensures current in listing && current !in found
  {
    var children := ChildrenOf(f, listing, current);
    var stack := rest + [current];
    assert current in stack;
    ChildrenDistinct(f, listing, current);
    NotYetFound(found, stack, current, |rest|);
    forall x | x in children ensures x !in found && x !in rest && x != current {
      assert f[x].parent == Some(current);
      assert !Hangs(f, root, found, x);
    }
    DistinctMoved(found, rest, current, children);
    var found' := found + [current];
    forall i | 0 <= i < |found'| ensures ParentBefore(f, root, found', i) {
      if i < |found| {
        assert ParentBefore(f, root, found, i);
        assert found'[..i] == found[..i];
      } else {
        assert found'[..i] == found;
      }
    }
    forall x ensures x in found' || x in rest + children <==> x in listing && Hangs(f, root, found', x) {
      assert x in stack <==> x in rest || x == current;
      assert x in rest + children <==> x in rest || x in children;
    }
  }

  lemma NotYetFound(found: seq<Id>, stack: seq<Id>, x: Id, k: nat)
    requires Distinct(found + stack) && k < |stack| && stack[k] == x
    ensures x !in found
  {
    assert (found + stack)[|found| + k] == x;
    forall i | 0 <= i < |found| ensures found[i] != x {
      assert (found + stack)[i] == found[i];
    }
  }

  lemma {:induction false} FoundDescends(f: Forest, listing: seq<Id>, root: Id, found: seq<Id>, i: nat)
    requires Searching(f, listing, root, found, []) && i < |found|
    ensures Descends(f, listing, root, found[i])
    decreases i
  {
    assert ParentBefore(f, root, found, i);
    var p := f[found[i]].parent.value;
    if p == root {
      assert Below(f, listing, root, found[i], 0);
    } else {
      var j :| 0 <= j < i && found[..i][j] == p;
      FoundDescends(f, listing, root, found, j);
      var n: nat :| Below(f, listing, root, p, n);
      assert Below(f, listing, root, found[i], n + 1);
    }
  }

  lemma {:induction false} DescendantFound(f: Forest, listing: seq<Id>, root: Id, found: seq<Id>, x: Id, n: nat)
    requires Searching(f, listing, root, found, []) && Below(f, listing, root, x, n)
    ensures x in found
    decreases n
  {
    if n > 0 {
      DescendantFound(f, listing, root, found, f[x].parent.value, n - 1);
    }
  }

  lemma SearchDone(f: Forest, listing: seq<Id>, root: Id, found: seq<Id>)
    requires Searching(f, listing, root, found, [])
    ensures Distinct(found) && ParentsFirst(f, root, found)
    ensures forall x :: x in found <==> Descends(f, listing, root, x)
  {
    assert found + [] == found;
    forall x ensures x in found <==> Descends(f, listing, root, x) {
      if x in found {
        var i :| 0 <= i < |found| && found[i] == x;
        FoundDescends(f, listing, root, found, i);
      }
      if Descends(f, listing, root, x) {
        var n: nat :| Below(f, listing, root, x, n);
        DescendantFound(f, listing, root, found, x, n);
      }
    }
  }

  function Get(byParent: map<Id, seq<Id>>, p: Id): seq<Id> {
    if p in byParent then byParent[p] else []
  }

  method GroupByParent(f: Forest, listing: seq<Id>) returns (byParent: map<Id, seq<Id>>)
    requires forall x :: x in listing ==> x in f
    ensures forall p :: Get(byParent, p) == ChildrenOf(f, listing, p)
  {
    byParent := map[];
    for i := 0 to |listing|
      invariant forall p :: Get(byParent, p) == ChildrenOf(f, listing[..i], p)
    {
      assert listing[..i + 1][..i] == listing[..i];
      var x := listing[i];
      if f[x].parent.Some? {
        var p := f[x].parent.value;
        byParent := byParent[p := Get(byParent, p) + [x]];
      }
    }
    assert listing[..|listing|] == listing;
  }

  /** `_load_descendants`, on any table: it terminates and returns each proper descendant once, parents first. */
  method LoadDescendants(f: Forest, listing: seq<Id>, root: Id) returns (descendants: seq<Id>)
    requires (forall x :: x in listing ==> x in f) && Distinct(listing) && root !in listing
    ensures Distinct(descendants) && ParentsFirst(f, root, descendants)
    ensures forall x :: x in descendants <==> Descends(f, listing, root, x)
  {
    hide Searching, ChildrenOf;
    var byParent := GroupByParent(f, listing);
    descendants := [];
    var stack := Get(byParent, root);
    SearchStarts(f, listing, root);
    while stack != []
      invariant Searching(f, listing, root, descendants, stack)
      decreases (set x | x in listing) - (set x | x in descendants)
    {
      var current := stack[|stack| - 1];
      var rest := stack[..|stack| - 1];
      assert stack == rest + [current];
      SearchSteps(f, listing, root, descendants, rest, current);
      assert current in (set x | x in listing) - (set x | x in descendants);
      descendants := descendants + [current];
      stack := rest + Get(byParent, current);
    }
    SearchDone(f, listing, root, descendants);
  }

  // ---------------------------------------------------------------- descendants and ancestor chains

  lemma {:induction false} BelowClimbs(f: Forest, listing: seq<Id>, root: Id, x: Id, n: nat)
    requires x in f && root in f && Below(f, listing, root, x, n)
    requires forall y :: y in listing ==> y in f
    ensures UpBy(f, x, n + 1) == Some(root)
    decreases n
  {
    if n > 0 {
      assert f[x].parent.value in listing;
      BelowClimbs(f, listing, root, f[x].parent.value, n - 1);
    } else {
      assert UpBy(f, root, 0) == Some(root);
    }
  }

  lemma {:induction false} ClimbIsBelow(f: Forest, listing: seq<Id>, root: Id, x: Id, k: nat, i: nat)
    requires WellGrown(f) && x in f && root in f && ListingOf(f, root, listing)
    requires f[x].workspace == f[root].workspace
    requires i < k < |Chain(f, x)| && Chain(f, x)[k] == root
    requires f[Chain(f, x)[i]].workspace == f[root].workspace
    ensures Below(f, listing, root, Chain(f, x)[i], k - 1 - i)
    decreases k - i
  {
    hide Chain;
    ChainSteps(f, x);
    var c := Chain(f, x);
    assert Up(f, c[i]) == Some(c[i + 1]);
    var age :| Aged(f, age);
    if i + 1 < k {
      ClimbIsBelow(f, listing, root, x, k, i + 1);
    }
  }

  lemma {:induction false} SameWorkspaceUp(f: Forest, x: Id, i: nat)
    requires WellGrown(f) && x in f && i < |Chain(f, x)|
    ensures f[Chain(f, x)[i]].workspace == f[x].workspace
    decreases i
  {
    hide Chain;
    var age :| Aged(f, age);
    if i > 0 {
      ChainSteps(f, x);
      assert Up(f, Chain(f, x)[i - 1]) == Some(Chain(f, x)[i]);
      SameWorkspaceUp(f, x, i - 1);
    }
  }

  /** In every reachable table, the descendants of a root are the other conversations whose ancestor chain contains it. */
  lemma DescendantIffAncestor(f: Forest, listing: seq<Id>, root: Id, x: Id)
    requires WellGrown(f) && root in f && ListingOf(f, root, listing) && x in f
    ensures Descends(f, listing, root, x) <==> x != root && root in Chain(f, x)
  {
    hide Chain, WellGrown, UpBy;
    if Descends(f, listing, root, x) {
      var n: nat :| Below(f, listing, root, x, n);
      BelowClimbs(f, listing, root, x, n);
      AncestorsAreChain(f, x, root);
    }
    if x != root && root in Chain(f, x) {
      var k :| 0 <= k < |Chain(f, x)| && Chain(f, x)[k] == root;
      SameWorkspaceUp(f, x, k);
      ClimbIsBelow(f, listing, root, x, k, 0);
    }
  }
}
