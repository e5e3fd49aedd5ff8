/** The branch tree as the program builds it, and its totals against the flat family totals. */
module FamilyTotals {
  import opened Wrappers
  import opened StableSort
  import opened ConversationForest
  import opened BranchTree

  /** The counts loaded for a family. A conversation without rows has no entry. */
  datatype Stats = Stats(messages: map<Id, nat>, participants: map<Id, nat>, commits: map<Id, nat>,
                         activity: map<Id, int>)

  function CountOf(m: map<Id, nat>, id: Id): nat {
    if id in m then m[id] else 0
  }

  datatype Node = Node(id: Id, activity: int, totals: Totals, children: seq<Node>)

  datatype Totals = Totals(branches: nat, commits: nat, messages: nat, participants: nat)

  const NO_TOTALS := Totals(0, 0, 0, 0)

  function Plus(a: Totals, b: Totals): Totals {
    Totals(a.branches + b.branches, a.commits + b.commits, a.messages + b.messages, a.participants + b.participants)
  }

  function OwnTotals(stats: Stats, id: Id): Totals {
    Totals(1, CountOf(stats.commits, id), CountOf(stats.messages, id), CountOf(stats.participants, id))
  }

  function Leaf(stats: Stats, id: Id): Node {
    Node(id, if id in stats.activity then stats.activity[id] else 0, OwnTotals(stats, id), [])
  }

  /** Appends the leaf to the children of the node called `parent`. */
  function Attach(t: Node, parent: Id, leaf: Node): Node {
    if t.id == parent then t.(children := t.children + [leaf])
    else t.(children := AttachAll(t.children, parent, leaf))
  }

  function AttachAll(ts: seq<Node>, parent: Id, leaf: Node): seq<Node> {
    if ts == [] then [] else [Attach(ts[0], parent, leaf)] + AttachAll(ts[1..], parent, leaf)
  }

  /** The tree after attaching the first conversations of a parents-first order. */
  function Grown(f: Forest, stats: Stats, root: Id, order: seq<Id>): Node
    requires ParentsFirst(f, root, order)
    decreases |order|
  {
    if order == [] then Leaf(stats, root)
    else
      var n := |order| - 1;
      FirstParents(f, root, order);
      assert ParentBefore(f, root, order, n);
      Attach(Grown(f, stats, root, order[..n]), f[order[n]].parent.value, Leaf(stats, order[n]))
  }

  lemma FirstParents(f: Forest, root: Id, order: seq<Id>)
    requires ParentsFirst(f, root, order) && order != []
    ensures ParentsFirst(f, root, order[..|order| - 1])
  {
    var front := order[..|order| - 1];
    forall i | 0 <= i < |front| ensures ParentBefore(f, root, front, i) {
      assert ParentBefore(f, root, order, i);
      assert front[..i] == order[..i];
    }
  }

  const ACTIVITY_KEY: Node -> Rank := (t: Node) => (0 - t.activity, 0)

  /** Children sorted by latest activity, most recent first, at every level. */
  function SortTree(t: Node): Node {
    t.(children := SortBy(SortTrees(t.children), ACTIVITY_KEY))
  }

  function SortTrees(ts: seq<Node>): seq<Node> {
    if ts == [] then [] else [SortTree(ts[0])] + SortTrees(ts[1..])
  }

  /** `_summarize_tree`: a node's own counts and those of its children's trees. */
  function Summarize(t: Node): Totals {
    Plus(t.totals, SummarizeAll(t.children))
  }

  function SummarizeAll(ts: seq<Node>): Totals {
    if ts == [] then NO_TOTALS else Plus(Summarize(ts[0]), SummarizeAll(ts[1..]))
  }

  function FlatTotals(stats: Stats, ids: seq<Id>): Totals
    decreases |ids|
  {
    if ids == [] then NO_TOTALS
    else Plus(FlatTotals(stats, ids[..|ids| - 1]), OwnTotals(stats, ids[|ids| - 1]))
  }

  // ---------------------------------------------------------------- which nodes hang where

  /** A node: what it hangs under, and what it shows. */
  datatype Place = Place(under: Option<Id>, id: Id, activity: int, branches: nat, commits: nat, messages: nat,
                         participants: nat)

  /** Where a conversation belongs, with its own latest activity and its own counts. */
  function PlaceFor(stats: Stats, under: Option<Id>, id: Id): Place {
    Place(under, id, if id in stats.activity then stats.activity[id] else 0, 1,
          if id in stats.commits then stats.commits[id] else 0,
          if id in stats.messages then stats.messages[id] else 0,
          if id in stats.participants then stats.participants[id] else 0)
  }

  function PlaceOf(t: Node, under: Option<Id>): Place {
    Place(under, t.id, t.activity, t.totals.branches, t.totals.commits, t.totals.messages, t.totals.participants)
  }

  /** Every node of the tree. */
  ghost function Places(t: Node, under: Option<Id>): multiset<Place> {
    multiset{PlaceOf(t, under)} + PlacesAll(t.children, Some(t.id))
  }

  ghost function PlacesAll(ts: seq<Node>, under: Option<Id>): multiset<Place> {
    if ts == [] then multiset{} else Places(ts[0], under) + PlacesAll(ts[1..], under)
  }

  ghost function Times(t: Node, id: Id): nat {
    (if t.id == id then 1 else 0) + TimesAll(t.children, id)
  }

  ghost function TimesAll(ts: seq<Node>, id: Id): nat {
    if ts == [] then 0 else Times(ts[0], id) + TimesAll(ts[1..], id)
  }

  lemma LeafHolds(t: Node, under: Option<Id>, id: Id)
    requires t.children == []
    ensures Places(t, under) == multiset{PlaceOf(t, under)}
    ensures Summarize(t) == t.totals
    ensures Times(t, id) == if t.id == id then 1 else 0
  {
  }

  lemma {:induction false} PlacesAppend(ts: seq<Node>, t: Node, under: Option<Id>)
    ensures PlacesAll(ts + [t], under) == PlacesAll(ts, under) + Places(t, under)
    ensures SummarizeAll(ts + [t]) == Plus(SummarizeAll(ts), Summarize(t))
    decreases |ts|
  {
    hide Places, Summarize;
    if ts == [] {
      assert [] + [t] == [t];
      assert [t][1..] == [];
    } else {
      PlacesAppend(ts[1..], t, under);
      assert (ts + [t])[1..] == ts[1..] + [t];
    }
  }

  lemma {:induction false} TimesAppend(ts: seq<Node>, t: Node, id: Id)
    ensures TimesAll(ts + [t], id) == TimesAll(ts, id) + Times(t, id)
    decreases |ts|
  {
    hide Times;
    if ts == [] {
      assert [] + [t] == [t];
    } else {
      TimesAppend(ts[1..], t, id);
      assert (ts + [t])[1..] == ts[1..] + [t];
    }
  }

  /** Attaching under an id that does not occur changes nothing. */
  lemma {:induction false} AttachAbsent(t: Node, parent: Id, leaf: Node)
    requires Times(t, parent) == 0
    ensures Attach(t, parent, leaf) == t
    decreases t, 1
  {
    AttachAllAbsent(t.children, parent, leaf);
  }

  lemma {:induction false} AttachAllAbsent(ts: seq<Node>, parent: Id, leaf: Node)
    requires TimesAll(ts, parent) == 0
    ensures AttachAll(ts, parent, leaf) == ts
    decreases ts, 0
  {
    if ts != [] {
      AttachAbsent(ts[0], parent, leaf);
      AttachAllAbsent(ts[1..], parent, leaf);
    }
  }

  /** Attaching under an id that occurs once adds exactly that one place and the leaf's own counts. */
  lemma {:induction false} AttachOnce(t: Node, parent: Id, leaf: Node, under: Option<Id>)
    requires Times(t, parent) == 1 && leaf.children == []
    ensures Places(Attach(t, parent, leaf), under) == Places(t, under) + multiset{PlaceOf(leaf, Some(parent))}
    ensures Summarize(Attach(t, parent, leaf)) == Plus(Summarize(t), leaf.totals)
    decreases t, 1
  {
    hide PlacesAll, SummarizeAll, AttachAll;
    if t.id == parent {
      PlacesAppend(t.children, leaf, Some(t.id));
      LeafHolds(leaf, Some(t.id), leaf.id);
    } else {
      AttachAllOnce(t.children, parent, leaf, Some(t.id));
    }
  }

  lemma {:induction false} AttachAllOnce(ts: seq<Node>, parent: Id, leaf: Node, under: Option<Id>)
    requires TimesAll(ts, parent) == 1 && leaf.children == []
    ensures PlacesAll(AttachAll(ts, parent, leaf), under) == PlacesAll(ts, under) + multiset{PlaceOf(leaf, Some(parent))}
    ensures SummarizeAll(AttachAll(ts, parent, leaf)) == Plus(SummarizeAll(ts), leaf.totals)
    decreases ts, 0
  {
    hide Attach, Places, Summarize, Times, PlaceOf;
    if ts != [] {
      PlacesCons(Attach(ts[0], parent, leaf), AttachAll(ts[1..], parent, leaf), under);
      PlacesCons(ts[0], ts[1..], under);
      assert ts == [ts[0]] + ts[1..];
      PlusMoves(Summarize(ts[0]), SummarizeAll(ts[1..]), leaf.totals);
      hide PlacesAll, SummarizeAll, Plus;
      if Times(ts[0], parent) == 1 {
        AttachOnce(ts[0], parent, leaf, under);
        AttachAllAbsent(ts[1..], parent, leaf);
        assert AttachAll(ts, parent, leaf) == [Attach(ts[0], parent, leaf)] + ts[1..];
      } else {
        AttachAbsent(ts[0], parent, leaf);
        AttachAllOnce(ts[1..], parent, leaf, under);
        assert AttachAll(ts, parent, leaf) == [ts[0]] + AttachAll(ts[1..], parent, leaf);
      }
    }
  }

  lemma PlusMoves(a: Totals, b: Totals, c: Totals)
    ensures Plus(Plus(a, c), b) == Plus(Plus(a, b), c) == Plus(a, Plus(b, c))
  {
  }

  lemma PlacesCons(t: Node, ts: seq<Node>, under: Option<Id>)
    ensures PlacesAll([t] + ts, under) == Places(t, under) + PlacesAll(ts, under)
    ensures SummarizeAll([t] + ts) == Plus(Summarize(t), SummarizeAll(ts))
  {
    hide Places, Summarize;
    assert ([t] + ts)[1..] == ts;
  }

  lemma {:induction false} AttachTimes(t: Node, parent: Id, leaf: Node, id: Id)
    requires Times(t, parent) == 1 && leaf.children == []
    ensures Times(Attach(t, parent, leaf), id) == Times(t, id) + (if id == leaf.id then 1 else 0)
    decreases t, 1
  {
    hide TimesAll, AttachAll;
    if t.id == parent {
      TimesAppend(t.children, leaf, id);
      LeafHolds(leaf, None, id);
    } else {
      AttachAllTimes(t.children, parent, leaf, id);
    }
  }

  lemma {:induction false} AttachAllTimes(ts: seq<Node>, parent: Id, leaf: Node, id: Id)
    requires TimesAll(ts, parent) == 1 && leaf.children == []
    ensures TimesAll(AttachAll(ts, parent, leaf), id) == TimesAll(ts, id) + (if id == leaf.id then 1 else 0)
    decreases ts, 0
  {
    hide Attach, Times;
    if ts != [] {
      var attached := AttachAll(ts, parent, leaf);
      assert attached == [Attach(ts[0], parent, leaf)] + AttachAll(ts[1..], parent, leaf);
      assert attached[1..] == AttachAll(ts[1..], parent, leaf);
      hide AttachAll;
      if Times(ts[0], parent) == 1 {
        AttachTimes(ts[0], parent, leaf, id);
        AttachAllAbsent(ts[1..], parent, leaf);
      } else {
        AttachAbsent(ts[0], parent, leaf);
        AttachAllTimes(ts[1..], parent, leaf, id);
      }
    }
  }

  // ---------------------------------------------------------------- tree equals flat

  ghost function PlacesOf(f: Forest, stats: Stats, order: seq<Id>): multiset<Place>
    requires forall x :: x in order ==> x in f
    decreases |order|
  {
    if order == [] then multiset{}
    else
      var n := |order| - 1;
      PlacesOf(f, stats, order[..n]) + multiset{PlaceFor(stats, f[order[n]].parent, order[n])}
  }

  lemma LeafPlace(stats: Stats, under: Option<Id>, id: Id)
    ensures PlaceOf(Leaf(stats, id), under) == PlaceFor(stats, under, id)
    ensures Leaf(stats, id).id == id && Leaf(stats, id).children == [] && Leaf(stats, id).totals == OwnTotals(stats, id)
  {
  }

  lemma {:induction false} GrownTimes(f: Forest, stats: Stats, root: Id, order: seq<Id>, id: Id)
    requires ParentsFirst(f, root, order) && Distinct(order) && root !in order
    ensures Times(Grown(f, stats, root, order), id) == if id == root || id in order then 1 else 0
    decreases |order|
  {
    hide Attach, Times, OwnTotals;
    if order == [] {
      LeafHolds(Leaf(stats, root), None, id);
    } else {
      var n := |order| - 1;
      FirstParents(f, root, order);
      assert ParentBefore(f, root, order, n);
      var parent := f[order[n]].parent.value;
      GrownTimes(f, stats, root, order[..n], parent);
      GrownTimes(f, stats, root, order[..n], id);
      AttachTimes(Grown(f, stats, root, order[..n]), parent, Leaf(stats, order[n]), id);
      assert order == order[..n] + [order[n]];
      assert order[n] !in order[..n];
    }
  }

  /** The grown tree holds the root and every ordered conversation, each under its own parent, and sums to the flat totals. */
  lemma {:induction false} GrownHolds(f: Forest, stats: Stats, root: Id, order: seq<Id>)
    requires ParentsFirst(f, root, order) && Distinct(order) && root !in order
    requires forall x :: x in order ==> x in f
    ensures Places(Grown(f, stats, root, order), None) == multiset{PlaceFor(stats, None, root)} + PlacesOf(f, stats, order)
    ensures Summarize(Grown(f, stats, root, order)) == Plus(OwnTotals(stats, root), FlatTotals(stats, order))
    decreases |order|
  {
    hide Attach, Places, Summarize, Times, OwnTotals, Leaf, PlaceOf, PlaceFor;
    if order == [] {
      LeafPlace(stats, None, root);
      LeafHolds(Leaf(stats, root), None, root);
    } else {
      var n := |order| - 1;
      FirstParents(f, root, order);
      GrownHolds(f, stats, root, order[..n]);
      assert ParentBefore(f, root, order, n);
      var parent := f[order[n]].parent.value;
      GrownTimes(f, stats, root, order[..n], parent);
      LeafPlace(stats, Some(parent), order[n]);
      AttachOnce(Grown(f, stats, root, order[..n]), parent, Leaf(stats, order[n]), None);
    }
  }

  // ---------------------------------------------------------------- sorting keeps the family

  lemma {:induction false} PlacesRemove(ts: seq<Node>, k: nat, under: Option<Id>)
    requires k < |ts|
    ensures PlacesAll(ts, under) == Places(ts[k], under) + PlacesAll(Without(ts, k), under)
    ensures SummarizeAll(ts) == Plus(Summarize(ts[k]), SummarizeAll(Without(ts, k)))
    decreases k
  {
    hide Places, Summarize;
    if k == 0 {
      assert Without(ts, k) == ts[1..];
    } else {
      PlacesRemove(ts[1..], k - 1, under);
      assert Without(ts, k)[1..] == Without(ts[1..], k - 1);
    }
  }

  lemma {:induction false} PlacesPermute(ts: seq<Node>, us: seq<Node>, under: Option<Id>)
    requires multiset(ts) == multiset(us)
    ensures PlacesAll(ts, under) == PlacesAll(us, under)
    ensures SummarizeAll(ts) == SummarizeAll(us)
    decreases |ts|
  {
    hide Places, Summarize, Without, Plus;
    if ts == [] {
      SameLength(ts, us);
    } else {
      var k := MatchHead(ts, us);
      PlacesPermute(ts[1..], Without(us, k), under);
      PlacesRemove(us, k, under);
    }
  }

  function Without(us: seq<Node>, k: nat): seq<Node>
    requires k < |us|
  {
    us[..k] + us[k + 1..]
  }

  lemma SameLength(ts: seq<Node>, us: seq<Node>)
    requires multiset(ts) == multiset(us)
    ensures |ts| == |us|
  {
    assert |multiset(ts)| == |multiset(us)|;
  }

  lemma MatchHead(ts: seq<Node>, us: seq<Node>) returns (k: nat)
    requires multiset(ts) == multiset(us) && ts != []
    ensures k < |us| && us[k] == ts[0] && multiset(ts[1..]) == multiset(Without(us, k))
  {
    assert ts == [ts[0]] + ts[1..];
    k := Position(us, ts[0], multiset(ts));
    TakenOut(us, k);
    assert multiset(ts) == multiset{ts[0]} + multiset(ts[1..]);
    assert multiset(ts[1..]) == multiset(us) - multiset{us[k]};
  }

  lemma TakenOut(us: seq<Node>, k: nat)
    requires k < |us|
    ensures multiset(us) == multiset(Without(us, k)) + multiset{us[k]}
  {
    assert us == us[..k] + [us[k]] + us[k + 1..];
  }

  lemma Position(us: seq<Node>, t: Node, all: multiset<Node>) returns (k: nat)
    requires t in all && all == multiset(us)
    ensures k < |us| && us[k] == t
  {
    assert t in multiset(us);
    k :| 0 <= k < |us| && us[k] == t;
  }

  /** Sorting the children moves nobody to another parent and changes no total. */
  lemma {:induction false} SortKeeps(t: Node, under: Option<Id>)
    ensures Places(SortTree(t), under) == Places(t, under)
    ensures Summarize(SortTree(t)) == Summarize(t)
    decreases t, 1
  {
    hide SortBy, PlacesAll, SummarizeAll;
    var sorted := SortTrees(t.children);
    SortsKeep(t.children, Some(t.id));
    SortSorts(sorted, ACTIVITY_KEY);
    PlacesPermute(SortBy(sorted, ACTIVITY_KEY), sorted, Some(t.id));
  }

  lemma {:induction false} SortsKeep(ts: seq<Node>, under: Option<Id>)
    ensures PlacesAll(SortTrees(ts), under) == PlacesAll(ts, under)
    ensures SummarizeAll(SortTrees(ts)) == SummarizeAll(ts)
    decreases ts, 0
  {
    hide Places, Summarize, SortTree;
    if ts != [] {
      SortKeeps(ts[0], under);
      SortsKeep(ts[1..], under);
      assert SortTrees(ts)[1..] == SortTrees(ts[1..]);
    }
  }

  /** At the top of a sorted tree the most recently active child comes first. */
  lemma SortedByActivity(t: Node, i: nat, j: nat)
    requires i < j < |SortTree(t).children|
    ensures SortTree(t).children[i].activity >= SortTree(t).children[j].activity
  {
    hide SortBy;
    SortSorts(SortTrees(t.children), ACTIVITY_KEY);
    assert !Before(ACTIVITY_KEY(SortTree(t).children[j]), ACTIVITY_KEY(SortTree(t).children[i]));
  }

  /** Children in descending activity, at every node of the tree. */
  ghost predicate OrderedByActivity(t: Node) {
    Sorted(t.children, ACTIVITY_KEY) && forall c :: c in t.children ==> OrderedByActivity(c)
  }

  lemma {:induction false} SortedEverywhere(t: Node)
    ensures OrderedByActivity(SortTree(t))
    decreases t, 1
  {
    hide SortBy, Sorted, SortTrees;
    var sorted := SortTrees(t.children);
    SortSorts(sorted, ACTIVITY_KEY);
    forall c | c in SortTree(t).children ensures OrderedByActivity(c) {
      assert c in multiset(SortBy(sorted, ACTIVITY_KEY));
      AllSortedEverywhere(t.children, c);
    }
  }

  lemma {:induction false} AllSortedEverywhere(ts: seq<Node>, c: Node)
    requires c in SortTrees(ts)
    ensures OrderedByActivity(c)
    decreases ts, 0
  {
    hide SortTree, OrderedByActivity;
    if c == SortTree(ts[0]) {
      SortedEverywhere(ts[0]);
    } else {
      AllSortedEverywhere(ts[1..], c);
    }
  }

  // ---------------------------------------------------------------- the program

  /** `_build_branch_tree` after its queries: nodes, children lists, sorting. */
  method BuildBranchTree(f: Forest, stats: Stats, root: Id, descendants: seq<Id>) returns (tree: Node)
    requires root in f && ParentsFirst(f, root, descendants) && Distinct(descendants) && root !in descendants
    ensures tree == SortTree(Grown(f, stats, root, descendants))
  {
    var nodes := [root] + descendants;
    tree := Leaf(stats, root);
    assert descendants[..0] == [];
    for i := 0 to |nodes|
      invariant i > 0 ==> ParentsFirst(f, root, descendants[..i - 1]) && tree == Grown(f, stats, root, descendants[..i - 1])
      invariant i == 0 ==> tree == Leaf(stats, root)
    {
      if i > 0 {
        assert ParentBefore(f, root, descendants, i - 1);
        PrefixParentsFirst(f, root, descendants, i);
        assert descendants[..i][..i - 1] == descendants[..i - 1];
      }
      var node := nodes[i];
      var parent := f[node].parent;
      if parent.Some? && parent.value in nodes && node != root {
        tree := Attach(tree, parent.value, Leaf(stats, node));
      }
    }
    assert descendants[..|nodes| - 1] == descendants;
    tree := SortTree(tree);
  }

  lemma PrefixParentsFirst(f: Forest, root: Id, order: seq<Id>, n: nat)
    requires ParentsFirst(f, root, order) && n <= |order|
    ensures ParentsFirst(f, root, order[..n])
  {
    forall i | 0 <= i < n ensures ParentBefore(f, root, order[..n], i) {
      assert ParentBefore(f, root, order, i);
      assert order[..n][..i] == order[..i];
    }
  }

  method SummarizeTree(node: Node) returns (totals: Totals)
    ensures totals == Summarize(node)
    decreases node
  {
    totals := node.totals;
    for i := 0 to |node.children|
      invariant Plus(totals, SummarizeAll(node.children[i..])) == Summarize(node)
    {
      var childTotals := SummarizeTree(node.children[i]);
      assert node.children[i..][1..] == node.children[i + 1..];
      totals := Plus(totals, childTotals);
    }
  }

  /** The sum over a count table's values, in the order `keys` lists them. */
  function SumOfValues(m: map<Id, nat>, keys: seq<Id>): nat
    decreases |keys|
  {
    if keys == [] then 0
    else
      var last := keys[|keys| - 1];
      SumOfValues(m, keys[..|keys| - 1]) + (if last in m then m[last] else 0)
  }

  lemma {:induction false} SumRemove(m: map<Id, nat>, ids: seq<Id>, k: nat)
    requires k < |ids|
    ensures SumOfValues(m, ids) == CountOf(m, ids[k]) + SumOfValues(m, ids[..k] + ids[k + 1..])
    decreases |ids| - k
  {
    var n := |ids| - 1;
    var rest := ids[..k] + ids[k + 1..];
    if k < n {
      SumRemove(m, ids[..n], k);
      assert rest[..|rest| - 1] == ids[..n][..k] + ids[..n][k + 1..];
      assert rest[|rest| - 1] == ids[n];
    } else {
      assert rest == ids[..n];
    }
  }

  /** Conversations without an entry add nothing: summing the values is summing over all the conversations. */
  lemma {:induction false} ValuesAreNodes(m: map<Id, nat>, keys: seq<Id>, nodes: seq<Id>)
    requires Distinct(keys) && Distinct(nodes)
    requires forall k :: k in keys ==> k in nodes
    requires forall x :: x in nodes && x in m ==> x in keys
    ensures SumOfValues(m, keys) == SumOfValues(m, nodes)
    decreases |nodes|
  {
    if nodes == [] {
      HeadIn(keys);
    } else {
      var n := |nodes| - 1;
      var x := nodes[n];
      assert nodes == nodes[..n] + [x] && x !in nodes[..n];
      if x in keys {
        var k :| 0 <= k < |keys| && keys[k] == x;
        SumRemove(m, keys, k);
        DistinctWithout(keys, k);
        ValuesAreNodes(m, keys[..k] + keys[k + 1..], nodes[..n]);
      } else {
        ValuesAreNodes(m, keys, nodes[..n]);
      }
    }
  }

  lemma HeadIn(keys: seq<Id>)
    ensures keys != [] ==> keys[0] in keys
  {
  }

  lemma DistinctWithout(keys: seq<Id>, k: nat)
    requires Distinct(keys) && k < |keys|
    ensures var rest := keys[..k] + keys[k + 1..];
            Distinct(rest) && forall y :: y in rest <==> y in keys && y != keys[k]
  {
    var rest := keys[..k] + keys[k + 1..];
    forall i | 0 <= i < |rest| ensures rest[i] == keys[if i < k then i else i + 1] {
    }
    forall y | y in keys && y != keys[k] ensures y in rest {
      var i :| 0 <= i < |keys| && keys[i] == y;
      assert rest[if i < k then i else i - 1] == y;
    }
  }

  lemma {:induction false} FlatIsSums(stats: Stats, ids: seq<Id>)
    ensures FlatTotals(stats, ids) ==
            Totals(|ids|, SumOfValues(stats.commits, ids), SumOfValues(stats.messages, ids),
                   SumOfValues(stats.participants, ids))
    decreases |ids|
  {
    if ids != [] {
      FlatIsSums(stats, ids[..|ids| - 1]);
    }
  }

  lemma {:induction false} FlatFromRoot(stats: Stats, root: Id, order: seq<Id>)
    ensures FlatTotals(stats, [root] + order) == Plus(OwnTotals(stats, root), FlatTotals(stats, order))
    decreases |order|
  {
    if order == [] {
      assert [root] + order == [root];
      assert [root][..0] == [];
    } else {
      var n := |order| - 1;
      FlatFromRoot(stats, root, order[..n]);
      assert ([root] + order)[..|order|] == [root] + order[..n];
    }
  }

  /**
   Tree equals flat: the branch tree holds the root and each descendant exactly once, each under its own parent, and
   `_summarize_tree` returns the numbers `get_family_overview` computes from its count tables.
   */
  lemma TreeEqualsFlat(f: Forest, stats: Stats, root: Id, descendants: seq<Id>,
                       commitKeys: seq<Id>, messageKeys: seq<Id>, participantKeys: seq<Id>)
    requires root in f && ParentsFirst(f, root, descendants) && Distinct(descendants) && root !in descendants
    requires forall x :: x in descendants ==> x in f
    requires Enumerates(commitKeys, stats.commits, [root] + descendants)
    requires Enumerates(messageKeys, stats.messages, [root] + descendants)
    requires Enumerates(participantKeys, stats.participants, [root] + descendants)
    ensures var tree := SortTree(Grown(f, stats, root, descendants));
            && Places(tree, None) == multiset{PlaceFor(stats, None, root)} + PlacesOf(f, stats, descendants)
            && Summarize(tree) == Totals(1 + |descendants|, SumOfValues(stats.commits, commitKeys),
                                         SumOfValues(stats.messages, messageKeys),
                                         SumOfValues(stats.participants, participantKeys))
  {
    hide SortTree, Places, Summarize, Grown, SumOfValues, FlatTotals;
    var nodes := [root] + descendants;
    GrownHolds(f, stats, root, descendants);
    SortKeeps(Grown(f, stats, root, descendants), None);
    FlatFromRoot(stats, root, descendants);
    FlatIsSums(stats, nodes);
    assert Distinct(nodes);
    ValuesAreNodes(stats.commits, commitKeys, nodes);
    ValuesAreNodes(stats.messages, messageKeys, nodes);
    ValuesAreNodes(stats.participants, participantKeys, nodes);
  }

  /** The grouped count query over `nodes` lists each conversation that has rows, once. */
  ghost predicate Enumerates(keys: seq<Id>, m: map<Id, nat>, nodes: seq<Id>) {
    Distinct(keys) && forall k :: k in keys <==> k in m && k in nodes
  }
}
