/**
 The append-only credit ledger and what it says a member's balance is.
 Two replays are given: the plain one, and the one in which returning borrowed credits
 cannot take a balance below zero. The difference between them is settled here.
 */
module CreditLedger {
  import opened Wrappers

  type User(!new, ==) = nat

  datatype Kind = Allocation | Usage | Borrow | Lend | Adjustment

  datatype Tx = Tx(kind: Kind, from: Option<User>, to: Option<User>, amount: int)

  type Ledger = seq<Tx>

  /** A return of borrowed credits: the only entry of its kind with both a payer and a payee. */
  predicate IsReturn(tx: Tx) {
    tx.kind == Adjustment && tx.from.Some? && tx.to.Some?
  }

  /** What the entry adds to or takes from u's balance, before any floor. */
  function Plain(balance: int, tx: Tx, u: User): int {
    match tx.kind
    case Allocation => if tx.to == Some(u) then tx.amount else balance
    case Usage => if tx.from == Some(u) then balance - tx.amount else balance
    case Lend => if tx.from == Some(u) then balance - tx.amount else balance
    case Borrow => if tx.to == Some(u) then balance + tx.amount else balance
    case Adjustment =>
      (if tx.from == Some(u) then balance - tx.amount else balance) + (if tx.to == Some(u) then tx.amount else 0)
  }

  function Floored(balance: int, tx: Tx, u: User): int {
    if IsReturn(tx) && tx.from == Some(u) && tx.to != Some(u) && Plain(balance, tx, u) < 0 then 0
    else Plain(balance, tx, u)
  }

  function PlainReplay(l: Ledger, u: User): int
    decreases |l|
  {
    if l == [] then 0 else Plain(PlainReplay(l[..|l| - 1], u), l[|l| - 1], u)
  }

  function Replay(l: Ledger, u: User): int
    decreases |l|
  {
    if l == [] then 0 else Floored(Replay(l[..|l| - 1], u), l[|l| - 1], u)
  }

  /** Since u's last allocation, some return asked u for more than u had. */
  predicate FloorHit(l: Ledger, u: User)
    decreases |l|
  {
    if l == [] then false
    else
      var front, last := l[..|l| - 1], l[|l| - 1];
      if last.kind == Allocation && last.to == Some(u) then false
      else FloorHit(front, u)
           || (IsReturn(last) && last.from == Some(u) && last.to != Some(u) && Replay(front, u) < last.amount)
  }

  lemma ReplayAppend(l: Ledger, tx: Tx, u: User)
    ensures Replay(l + [tx], u) == Floored(Replay(l, u), tx, u)
  {
    assert (l + [tx])[..|l|] == l;
  }

  /** Entries that do not name u leave u's balance alone. */
  lemma {:induction false} UntouchedReplay(l: Ledger, more: Ledger, u: User)
    requires forall i :: 0 <= i < |more| ==> more[i].from != Some(u) && more[i].to != Some(u)
    ensures Replay(l + more, u) == Replay(l, u)
    decreases |more|
  {
    if more == [] {
      assert l + more == l;
    } else {
      var n := |more| - 1;
      UntouchedReplay(l, more[..n], u);
      assert l + more == (l + more[..n]) + [more[n]];
      ReplayAppend(l + more[..n], more[n], u);
    }
  }

  /** The plain replay never exceeds the floored one, and equals it exactly when the floor was not hit. */
  lemma {:induction false} PlainReplayGap(l: Ledger, u: User)
    ensures PlainReplay(l, u) <= Replay(l, u)
    ensures PlainReplay(l, u) == Replay(l, u) <==> !FloorHit(l, u)
    decreases |l|
  {
    if l != [] {
      PlainReplayGap(l[..|l| - 1], u);
    }
  }
}
