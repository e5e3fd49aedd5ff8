/**
 Conversations and their parents: the four cycle-guarded walks to the root, the common ancestor
 of two conversations, and why every table the program can build is acyclic.
 */
module ConversationForest {
  import opened Wrappers

  type Id(!new, ==) = nat

  datatype Conversation = Conversation(parent: Option<Id>, workspace: nat)

  /** The conversation table by id. A parent id may name a row that no longer exists. */
  type Forest = map<Id, Conversation>

  /** The loaded parent: none when the column is null or the row is missing. */
  function Up(f: Forest, x: Id): (p: Option<Id>)
    requires x in f
    ensures p.Some? ==> p.value in f
  {
    if f[x].parent.Some? && f[x].parent.value in f then f[x].parent else None
  }

  /** n steps up. */
  function UpBy(f: Forest, x: Id, n: nat): (y: Option<Id>)
    requires x in f
    ensures y.Some? ==> y.value in f
    decreases n
  {
    if n == 0 then Some(x)
    else
      var p := Up(f, x);
      if p.None? then None else UpBy(f, p.value, n - 1)
  }

  /** From x up to the last conversation before a missing parent or a repetition. */
  function Walk(f: Forest, x: Id, seen: set<Id>): (chain: seq<Id>)
    requires x in f && x in seen && seen <= f.Keys
    ensures chain != [] && chain[0] == x
    ensures forall y :: y in chain ==> y in f
    decreases f.Keys - seen
  {
    var p := Up(f, x);
    if p.None? || p.value in seen then [x] else [x] + Walk(f, p.value, seen + {p.value})
  }

  function Chain(f: Forest, x: Id): (chain: seq<Id>)
    requires x in f
    ensures chain != [] && chain[0] == x
    ensures forall y :: y in chain ==> y in f
  {
    Walk(f, x, {x})
  }

  function Top(f: Forest, x: Id): (top: Id)
    requires x in f
    ensures top in f
  {
    var chain := Chain(f, x);
    chain[|chain| - 1]
  }

  /** The walk from x ends at a conversation without a loaded parent, not at a repetition. */
  predicate EndsAtRoot(f: Forest, x: Id)
    requires x in f
  {
    Up(f, Top(f, x)).None?
  }

  ghost predicate IsAncestorOrSelf(f: Forest, y: Id, x: Id)
    requires x in f
  {
    exists n: nat :: UpBy(f, x, n) == Some(y)
  }

  // ---------------------------------------------------------------- the chain

  lemma {:induction false} WalkSteps(f: Forest, x: Id, seen: set<Id>)
    requires x in f && x in seen && seen <= f.Keys
    ensures var c := Walk(f, x, seen);
            && Distinct(c)
            && (forall i :: 0 <= i < |c| - 1 ==> Up(f, c[i]) == Some(c[i + 1]))
            && (forall i :: 0 < i < |c| ==> c[i] !in seen)
            && (Up(f, c[|c| - 1]).Some? ==> Up(f, c[|c| - 1]).value in seen || Up(f, c[|c| - 1]).value in c)
    decreases f.Keys - seen
  {
    var p := Up(f, x);
    if p.Some? && p.value !in seen {
      WalkSteps(f, p.value, seen + {p.value});
      var rest := Walk(f, p.value, seen + {p.value});
      var c := [x] + rest;
      forall i | 0 <= i < |c| - 1 ensures Up(f, c[i]) == Some(c[i + 1]) {
        if i > 0 {
          assert Up(f, rest[i - 1]) == Some(rest[i]);
        }
      }
      forall i | 0 < i < |c| ensures c[i] !in seen {
        assert c[i] == rest[i - 1];
      }
    }
  }

  /** The chain climbs one parent at a time, never repeats, and stops only when it must. */
  lemma ChainSteps(f: Forest, x: Id)
    requires x in f
    ensures var c := Chain(f, x);
            && Distinct(c)
            && (forall i :: 0 <= i < |c| - 1 ==> Up(f, c[i]) == Some(c[i + 1]))
            && (Up(f, Top(f, x)).Some? ==> Up(f, Top(f, x)).value in c)
  {
    hide Walk;
    WalkSteps(f, x, {x});
  }

  lemma {:induction false} ChainIsUpBy(f: Forest, x: Id, i: nat)
    requires x in f && i < |Chain(f, x)|
    ensures UpBy(f, x, i) == Some(Chain(f, x)[i])
  {
    hide Chain, Up;
    if i > 0 {
      ChainIsUpBy(f, x, i - 1);
      ChainSteps(f, x);
      UpByLast(f, x, i - 1);
    }
  }

  lemma {:induction false} UpByLast(f: Forest, x: Id, n: nat)
    requires x in f && UpBy(f, x, n).Some?
    ensures UpBy(f, x, n + 1) == Up(f, UpBy(f, x, n).value)
    decreases n
  {
    if n > 0 {
      UpByLast(f, Up(f, x).value, n - 1);
    }
  }

  lemma {:induction false} UpByCompose(f: Forest, x: Id, m: nat, n: nat)
    requires x in f && UpBy(f, x, m).Some?
    ensures UpBy(f, x, m + n) == UpBy(f, UpBy(f, x, m).value, n)
    decreases m
  {
    if m > 0 {
      UpByCompose(f, Up(f, x).value, m - 1, n);
    }
  }

  /** The chain holds exactly the conversations reachable by following parents. */
  lemma {:induction false} ChainHoldsAncestors(f: Forest, x: Id, n: nat)
    requires x in f && UpBy(f, x, n).Some?
    ensures UpBy(f, x, n).value in Chain(f, x)
  {
    hide Chain, Up;
    if n > 0 {
      PrefixDefined(f, x, n);
      ChainHoldsAncestors(f, x, n - 1);
      UpByLast(f, x, n - 1);
      ChainSteps(f, x);
      var c := Chain(f, x);
      var i :| 0 <= i < |c| && c[i] == UpBy(f, x, n - 1).value;
      if i < |c| - 1 {
        assert c[i + 1] in c;
      }
    }
  }

  lemma {:induction false} PrefixDefined(f: Forest, x: Id, n: nat)
    requires x in f && n > 0 && UpBy(f, x, n).Some?
    ensures UpBy(f, x, n - 1).Some?
    decreases n
  {
    if n > 1 {
      PrefixDefined(f, Up(f, x).value, n - 1);
    }
  }

  lemma AncestorsAreChain(f: Forest, x: Id, y: Id)
    requires x in f
    ensures IsAncestorOrSelf(f, y, x) <==> y in Chain(f, x)
  {
    hide Chain, UpBy;
    if IsAncestorOrSelf(f, y, x) {
      var n: nat :| UpBy(f, x, n) == Some(y);
      ChainHoldsAncestors(f, x, n);
    }
    if y in Chain(f, x) {
      var i :| 0 <= i < |Chain(f, x)| && Chain(f, x)[i] == y;
      ChainIsUpBy(f, x, i);
    }
  }

  /** A walk that ends at a root runs out after the chain. */
  lemma PastTheRoot(f: Forest, x: Id, n: nat)
    requires x in f && EndsAtRoot(f, x) && |Chain(f, x)| <= n
    ensures UpBy(f, x, n).None?
    decreases n
  {
    hide Chain, Up;
    var last := |Chain(f, x)| - 1;
    ChainIsUpBy(f, x, last);
    UpByLast(f, x, last);
    if n > last + 1 {
      PastTheRoot(f, x, n - 1);
      if UpBy(f, x, n).Some? {
        PrefixDefined(f, x, n);
      }
    }
  }

  // ---------------------------------------------------------------- the walks of the program

  /** `_find_root`. */
  method FindRoot(f: Forest, x: Id) returns (root: Id)
    requires x in f
    ensures root == Top(f, x)
  {
    var cursor := x;
    var seen := {x};
    while f[cursor].parent.Some?
      invariant cursor in f && cursor in seen && seen <= f.Keys
      invariant Top(f, x) == Walk(f, cursor, seen)[|Walk(f, cursor, seen)| - 1]
      decreases f.Keys - seen
    {
      var parent := Up(f, cursor);
      if parent.None? || parent.value in seen {
        break;
      }
      seen := seen + {parent.value};
      cursor := parent.value;
    }
    return cursor;
  }

  /** `_ancestor_chain`. */
  method AncestorChain(f: Forest, x: Id) returns (chain: seq<Id>)
    requires x in f
    ensures chain == Chain(f, x)
  {
    chain := [x];
    var seen := {x};
    var cursor := x;
    while f[cursor].parent.Some?
      invariant cursor in f && cursor in seen && seen <= f.Keys
      invariant chain != [] && Chain(f, x) == chain[..|chain| - 1] + Walk(f, cursor, seen)
      invariant chain[|chain| - 1] == cursor
      decreases f.Keys - seen
    {
      var parent := Up(f, cursor);
      if parent.None? || parent.value in seen {
        break;
      }
      seen := seen + {parent.value};
      assert chain == chain[..|chain| - 1] + [cursor];
      chain := chain + [parent.value];
      cursor := parent.value;
    }
  }

  datatype Lineage = Lineage(root: Id, ancestors: seq<Id>, current: Id)

  /** `get_lineage`: the chain reversed, without its two ends. */
  method GetLineage(f: Forest, x: Id) returns (lineage: Lineage)
    requires x in f
    ensures lineage.root == Top(f, x) && lineage.current == x
    ensures |lineage.ancestors| == if |Chain(f, x)| > 2 then |Chain(f, x)| - 2 else 0
    ensures forall i :: 0 <= i < |lineage.ancestors| ==>
                          lineage.ancestors[i] == Chain(f, x)[|Chain(f, x)| - 2 - i]
  {
    var chain := AncestorChain(f, x);
    var reversed := Reversed(chain);
    forall i | 0 <= i < |chain| ensures reversed[|chain| - 1 - i] == chain[i] {
      ReversedAt(chain, i);
    }
    var ancestors := if |chain| > 2 then reversed[1..|reversed| - 1] else [];
    lineage := Lineage(reversed[0], ancestors, x);
    forall i | 0 <= i < |ancestors| ensures ancestors[i] == chain[|chain| - 2 - i] {
      ReversedAt(chain, |chain| - 2 - i);
    }
  }

  function Reversed(s: seq<Id>): (r: seq<Id>)
    ensures |r| == |s|
    decreases |s|
  {
    if s == [] then [] else [s[|s| - 1]] + Reversed(s[..|s| - 1])
  }

  lemma {:induction false} ReversedAt(s: seq<Id>, i: nat)
    requires i < |s|
    ensures Reversed(s)[|s| - 1 - i] == s[i]
    decreases |s|
  {
    if i < |s| - 1 {
      ReversedAt(s[..|s| - 1], i);
    }
  }

  /** Where `_resolve_root_conversation` stops: it checks for a repetition one step later than the other walks. */
  function Resolved(f: Forest, x: Id): Id
    requires x in f
  {
    var up := Up(f, Top(f, x));
    if up.None? then Top(f, x) else up.value
  }

  /** `_resolve_root_conversation`. */
  method ResolveRoot(f: Forest, x: Id) returns (root: Id)
    requires x in f
    ensures root == Resolved(f, x)
  {
    ChainSteps(f, x);
    var current := x;
    var seen: set<Id> := {};
    ghost var steps: nat := 0;
    while f[current].parent.Some? && current !in seen
      invariant current in f && seen <= f.Keys && steps <= |Chain(f, x)|
      invariant seen == set i | 0 <= i < steps :: Chain(f, x)[i]
      invariant steps < |Chain(f, x)| ==> current == Chain(f, x)[steps]
      invariant steps + 1 < |Chain(f, x)| ==> Up(f, current) == Some(Chain(f, x)[steps + 1])
      invariant steps == |Chain(f, x)| ==> Up(f, Top(f, x)) == Some(current) && current in seen
      decreases f.Keys - seen
    {
      seen := seen + {current};
      var parent := Up(f, current);
      if parent.None? {
        break;
      }
      current := parent.value;
      steps := steps + 1;
    }
    return current;
  }

  /**
   The four walks agree on the root unless the walk runs into a cycle of two or more conversations, in which case
   `_resolve_root_conversation` stops one step further than the others.
   */
  lemma WalksAgreeIff(f: Forest, x: Id)
    requires x in f
    ensures Resolved(f, x) == Top(f, x) <==> EndsAtRoot(f, x) || f[Top(f, x)].parent == Some(Top(f, x))
  {
  }

  // ---------------------------------------------------------------- common ancestor

  function FirstIn(chain: seq<Id>, others: seq<Id>): Option<Id>
    decreases |chain|
  {
    if chain == [] then None
    else if chain[0] in others then Some(chain[0])
    else FirstIn(chain[1..], others)
  }

  /** The first of the left chain that is also on the right chain. */
  function CommonAncestor(f: Forest, left: Id, right: Id): Option<Id>
    requires left in f && right in f
  {
    FirstIn(Chain(f, left), Chain(f, right))
  }

  /** The ancestor part of `compare`. */
  method CompareAncestors(f: Forest, left: Id, right: Id) returns (common: Option<Id>)
    requires left in f && right in f
    ensures common == CommonAncestor(f, left, right)
  {
    var leftAncestors := AncestorChain(f, left);
    var rightAncestors := AncestorChain(f, right);
    var rightIds := set y | y in rightAncestors;
    for i := 0 to |leftAncestors|
      invariant FirstIn(leftAncestors, rightAncestors) == FirstIn(leftAncestors[i..], rightAncestors)
    {
      if leftAncestors[i] in rightIds {
        return Some(leftAncestors[i]);
      }
    }
    return None;
  }

  lemma {:induction false} FirstInIs(chain: seq<Id>, others: seq<Id>)
    ensures FirstIn(chain, others).None? <==> forall y :: y in chain ==> y !in others
    ensures FirstIn(chain, others).Some? ==>
              exists i :: 0 <= i < |chain| && chain[i] == FirstIn(chain, others).value && chain[i] in others
                          && forall j :: 0 <= j < i ==> chain[j] !in others
    decreases |chain|
  {
    if chain == [] {
    } else if chain[0] in others {
      assert chain[0] == FirstIn(chain, others).value;
    } else {
      FirstInIs(chain[1..], others);
      if FirstIn(chain, others).Some? {
        var i :| 0 <= i < |chain[1..]| && chain[1..][i] == FirstIn(chain[1..], others).value && chain[1..][i] in others
                 && forall j :: 0 <= j < i ==> chain[1..][j] !in others;
        assert chain[i + 1] == FirstIn(chain, others).value;
        forall j | 0 <= j < i + 1 ensures chain[j] !in others {
          if j > 0 {
            assert chain[j] == chain[1..][j - 1];
          }
        }
      }
    }
  }

  /**
   On any table: none exactly when no conversation is above both; otherwise it is above both and every
   conversation above both is above it, so it is the deepest one.
   */
  lemma CommonAncestorIsDeepest(f: Forest, left: Id, right: Id)
    requires left in f && right in f
    ensures var a := CommonAncestor(f, left, right);
            && (a.None? <==> forall y :: !(IsAncestorOrSelf(f, y, left) && IsAncestorOrSelf(f, y, right)))
            && (a.Some? ==>
                  && a.value in f
                  && IsAncestorOrSelf(f, a.value, left) && IsAncestorOrSelf(f, a.value, right)
                  && forall y :: IsAncestorOrSelf(f, y, left) && IsAncestorOrSelf(f, y, right) ==>
                                   IsAncestorOrSelf(f, y, a.value))
  {
    hide Chain, IsAncestorOrSelf;
    var l, r := Chain(f, left), Chain(f, right);
    FirstInIs(l, r);
    forall y ensures IsAncestorOrSelf(f, y, left) <==> y in l {
      AncestorsAreChain(f, left, y);
    }
    forall y ensures IsAncestorOrSelf(f, y, right) <==> y in r {
      AncestorsAreChain(f, right, y);
    }
    var a := CommonAncestor(f, left, right);
    if a.Some? {
      var i :| 0 <= i < |l| && l[i] == a.value && l[i] in r && forall j :: 0 <= j < i ==> l[j] !in r;
      forall y | y in l && y in r ensures IsAncestorOrSelf(f, y, a.value) {
        var j :| 0 <= j < |l| && l[j] == y;
        LaterIsAbove(f, left, i, j);
      }
    } else {
      forall y ensures !(IsAncestorOrSelf(f, y, left) && IsAncestorOrSelf(f, y, right)) {
        if y in l {
          assert y !in r;
        }
      }
    }
  }

  lemma LaterIsAbove(f: Forest, x: Id, i: nat, j: nat)
    requires x in f && i <= j < |Chain(f, x)|
    ensures IsAncestorOrSelf(f, Chain(f, x)[j], Chain(f, x)[i])
  {
    hide Chain, UpBy;
    ChainIsUpBy(f, x, i);
    ChainIsUpBy(f, x, j);
    UpByCompose(f, x, i, j - i);
    assert UpBy(f, Chain(f, x)[i], j - i) == Some(Chain(f, x)[j]);
  }

  /** Two conversations above each other, on a walk that ends at a root, are one. */
  lemma AboveIsAntisymmetric(f: Forest, x: Id, a: Id, b: Id)
    requires x in f && EndsAtRoot(f, x) && a in Chain(f, x) && b in Chain(f, x)
    requires IsAncestorOrSelf(f, a, b) && IsAncestorOrSelf(f, b, a)
    ensures a == b
  {
    hide Chain, UpBy, Up;
    var c := Chain(f, x);
    ChainSteps(f, x);
    var i :| 0 <= i < |c| && c[i] == a;
    var j :| 0 <= j < |c| && c[j] == b;
    if i < j {
      AboveStaysAbove(f, x, j, i);
    } else if j < i {
      AboveStaysAbove(f, x, i, j);
    }
  }

  /** Nothing lower on a walk that ends at a root is above something higher on it. */
  lemma AboveStaysAbove(f: Forest, x: Id, high: nat, low: nat)
    requires x in f && EndsAtRoot(f, x) && low < high < |Chain(f, x)|
    ensures !IsAncestorOrSelf(f, Chain(f, x)[low], Chain(f, x)[high])
  {
    hide Chain, UpBy, Up, EndsAtRoot;
    var c := Chain(f, x);
    ChainSteps(f, x);
    if IsAncestorOrSelf(f, c[low], c[high]) {
      var n: nat :| UpBy(f, c[high], n) == Some(c[low]);
      ChainIsUpBy(f, x, high);
      UpByCompose(f, x, high, n);
      if high + n < |c| {
        ChainIsUpBy(f, x, high + n);
      } else {
        PastTheRoot(f, x, high + n);
      }
    }
  }

  /** Swapping the sides gives the same answer when either walk ends at a root. */
  lemma CommonAncestorSymmetric(f: Forest, left: Id, right: Id)
    requires left in f && right in f && (EndsAtRoot(f, left) || EndsAtRoot(f, right))
    ensures CommonAncestor(f, left, right) == CommonAncestor(f, right, left)
  {
    hide CommonAncestor, EndsAtRoot, IsAncestorOrSelf;
    CommonAncestorIsDeepest(f, left, right);
    CommonAncestorIsDeepest(f, right, left);
    var a, b := CommonAncestor(f, left, right), CommonAncestor(f, right, left);
    if a.Some? && b.Some? {
      var x := if EndsAtRoot(f, left) then left else right;
      AncestorsAreChain(f, x, a.value);
      AncestorsAreChain(f, x, b.value);
      AboveIsAntisymmetric(f, x, a.value, b.value);
    }
  }

  /** Without a root the answer can depend on the side: two conversations that are each other's parent. */
  lemma CommonAncestorOnACycle()
    ensures var f: Forest := map[1 := Conversation(Some(2), 0), 2 := Conversation(Some(1), 0)];
            CommonAncestor(f, 1, 2) == Some(1) && CommonAncestor(f, 2, 1) == Some(2)
            && Top(f, 1) == 2 && Resolved(f, 1) == 1
  {
    var f: Forest := map[1 := Conversation(Some(2), 0), 2 := Conversation(Some(1), 0)];
    assert Walk(f, 2, {1} + {2}) == [2];
    assert Chain(f, 1) == [1, 2];
    assert Walk(f, 1, {2} + {1}) == [1];
    assert Chain(f, 2) == [2, 1];
  }

  lemma TopOfAncestor(f: Forest, x: Id, y: Id)
    requires x in f && EndsAtRoot(f, x) && y in f && IsAncestorOrSelf(f, y, x)
    ensures EndsAtRoot(f, y) && Top(f, y) == Top(f, x)
  {
    hide Chain, UpBy, Up;
    AncestorsAreChain(f, x, y);
    var c, d := Chain(f, x), Chain(f, y);
    var i :| 0 <= i < |c| && c[i] == y;
    ChainIsUpBy(f, x, i);
    ChainIsUpBy(f, y, |d| - 1);
    UpByCompose(f, x, i, |d| - 1);
    if i + |d| - 1 < |c| - 1 {
      ChainIsUpBy(f, x, i + |d| - 1);
      ChainSteps(f, x);
      ChainSteps(f, y);
      var p := c[i + |d|];
      var k :| 0 <= k < |d| && d[k] == p;
      ChainIsUpBy(f, y, k);
      UpByCompose(f, x, i, k);
      ChainIsUpBy(f, x, i + k);
    } else if i + |d| - 1 >= |c| {
      PastTheRoot(f, x, i + |d| - 1);
    } else {
      ChainIsUpBy(f, x, |c| - 1);
    }
  }

  /** Where walks end at roots, two conversations have no common ancestor exactly when their roots differ. */
  lemma NoCommonAncestorIffRootsDiffer(f: Forest, left: Id, right: Id)
    requires left in f && right in f && EndsAtRoot(f, left) && EndsAtRoot(f, right)
    ensures CommonAncestor(f, left, right).None? <==> Top(f, left) != Top(f, right)
  {
    hide CommonAncestor, Top, EndsAtRoot, IsAncestorOrSelf;
    CommonAncestorIsDeepest(f, left, right);
    TopIsAncestor(f, left);
    TopIsAncestor(f, right);
    var a := CommonAncestor(f, left, right);
    if a.Some? {
      TopOfAncestor(f, left, a.value);
      TopOfAncestor(f, right, a.value);
    }
  }

  lemma TopIsAncestor(f: Forest, x: Id)
    requires x in f
    ensures IsAncestorOrSelf(f, Top(f, x), x)
  {
    hide Chain;
    AncestorsAreChain(f, x, Top(f, x));
  }

  // ---------------------------------------------------------------- reachable tables are acyclic

  datatype TableOp =
    | Create(id: Id, workspace: nat)            // a new or restored conversation
    | Branch(id: Id, parent: Id)                // create_branch: same workspace as its parent
    | Delete(id: Id)                            // children lose their parent

  function ApplyOp(f: Forest, op: TableOp): Forest {
    match op
    case Create(id, ws) => if id in f then f else f[id := Conversation(None, ws)]
    case Branch(id, p) => if id in f || p !in f then f else f[id := Conversation(Some(p), f[p].workspace)]
    case Delete(id) =>
      map x | x in f && x != id :: if f[x].parent == Some(id) then f[x].(parent := None) else f[x]
  }

  function ApplyOps(f: Forest, ops: seq<TableOp>): Forest
    decreases |ops|
  {
    if ops == [] then f else ApplyOps(ApplyOp(f, ops[0]), ops[1..])
  }

  /** Every parent is older than its child, and in the same workspace. */
  ghost predicate Aged(f: Forest, age: map<Id, nat>) {
    && f.Keys <= age.Keys
    && forall x :: x in f && f[x].parent.Some? ==>
                     && f[x].parent.value in f && age[f[x].parent.value] < age[x]
                     && f[f[x].parent.value].workspace == f[x].workspace
  }

  ghost predicate WellGrown(f: Forest) {
    exists age :: Aged(f, age)
  }

  lemma ApplyKeepsGrown(f: Forest, op: TableOp)
    requires WellGrown(f)
    ensures WellGrown(ApplyOp(f, op))
  {
    var age :| Aged(f, age);
    match op
    case Create(id, ws) =>
      assert Aged(ApplyOp(f, op), if id in f then age else age[id := 0]);
    case Branch(id, p) =>
      assert Aged(ApplyOp(f, op), if id in f || p !in f then age else age[id := age[p] + 1]);
    case Delete(id) =>
      assert Aged(ApplyOp(f, op), age);
  }

  lemma {:induction false} OpsKeepGrown(f: Forest, ops: seq<TableOp>)
    requires WellGrown(f)
    ensures WellGrown(ApplyOps(f, ops))
    decreases |ops|
  {
    hide ApplyOp, WellGrown;
    if ops != [] {
      ApplyKeepsGrown(f, ops[0]);
      OpsKeepGrown(ApplyOp(f, ops[0]), ops[1..]);
    }
  }

  lemma {:induction false} AgesFall(f: Forest, age: map<Id, nat>, x: Id, i: nat, j: nat)
    requires Aged(f, age) && x in f && i < j < |Chain(f, x)|
    ensures age[Chain(f, x)[j]] < age[Chain(f, x)[i]]
    decreases j
  {
    hide Chain;
    ChainSteps(f, x);
    assert Up(f, Chain(f, x)[j - 1]) == Some(Chain(f, x)[j]);
    if i < j - 1 {
      AgesFall(f, age, x, i, j - 1);
    }
  }

  lemma GrownEndsAtRoot(f: Forest, x: Id)
    requires WellGrown(f) && x in f
    ensures EndsAtRoot(f, x)
  {
    hide Chain;
    var age :| Aged(f, age);
    ChainSteps(f, x);
    var c := Chain(f, x);
    var last := |c| - 1;
    if !EndsAtRoot(f, x) {
      var i :| 0 <= i < |c| && c[i] == Up(f, c[last]).value;
      if i < last {
        AgesFall(f, age, x, i, last);
      }
    }
  }

  lemma {:induction false} ApplyOpsAppend(f: Forest, ops: seq<TableOp>, op: TableOp)
    ensures ApplyOps(f, ops + [op]) == ApplyOp(ApplyOps(f, ops), op)
    decreases |ops|
  {
    hide ApplyOp;
    if ops == [] {
      assert [] + [op] == [op] && [op][1..] == [];
    } else {
      ApplyOpsAppend(ApplyOp(f, ops[0]), ops[1..], op);
      assert (ops + [op])[1..] == ops[1..] + [op];
    }
  }

  lemma {:induction false} Youngest(ids: set<Id>, age: map<Id, nat>) returns (x: Id)
    requires ids != {} && ids <= age.Keys
    ensures x in ids && forall y :: y in ids ==> age[y] <= age[x]
    decreases ids
  {
    x :| x in ids;
    if ids != {x} {
      var other := Youngest(ids - {x}, age);
      if age[other] > age[x] {
        x := other;
      }
    }
  }

  /** Every table in which parents are older and share the workspace can be built, so those are exactly the reachable ones. */
  lemma {:induction false} GrownIsReachable(f: Forest) returns (ops: seq<TableOp>)
    requires WellGrown(f)
    ensures ApplyOps(map[], ops) == f
    decreases |f.Keys|
  {
    ops := [];
    if f != map[] {
      var age :| Aged(f, age);
      var x := Youngest(f.Keys, age);
      var g := f - {x};
      assert g.Keys == f.Keys - {x};
      assert Aged(g, age);
      var before := GrownIsReachable(g);
      var op := if f[x].parent.None? then Create(x, f[x].workspace) else Branch(x, f[x].parent.value);
      ApplyOpsAppend(map[], before, op);
      assert ApplyOp(g, op) == f;
      ops := before + [op];
    }
  }

  /** Deleting takes out that conversation only; its children become roots and all others keep their parents. */
  lemma DeleteOrphans(f: Forest, id: Id)
    ensures var t := ApplyOp(f, Delete(id));
            && t.Keys == f.Keys - {id}
            && forall x :: x in t ==>
                             && t[x].workspace == f[x].workspace
                             && (f[x].parent == Some(id) ==> t[x].parent.None?)
                             && (f[x].parent != Some(id) ==> t[x] == f[x])
  {
  }

  /**
   In every table the program can build, from an empty one, by creating, branching and deleting conversations: every
   walk ends at a root, the four walks agree, and the common ancestor is symmetric and missing exactly across roots.
   */
  lemma ReachableTables(ops: seq<TableOp>, x: Id, y: Id)
    requires x in ApplyOps(map[], ops) && y in ApplyOps(map[], ops)
    ensures var f := ApplyOps(map[], ops);
            && EndsAtRoot(f, x) && Resolved(f, x) == Top(f, x)
            && CommonAncestor(f, x, y) == CommonAncestor(f, y, x)
            && (CommonAncestor(f, x, y).None? <==> Top(f, x) != Top(f, y))
  {
    hide ApplyOps, CommonAncestor, Top;
    assert Aged(map[], map[]);
    OpsKeepGrown(map[], ops);
    var f := ApplyOps(map[], ops);
    GrownEndsAtRoot(f, x);
    GrownEndsAtRoot(f, y);
    WalksAgreeIff(f, x);
    CommonAncestorSymmetric(f, x, y);
    NoCommonAncestorIffRootsDiffer(f, x, y);
  }
}
