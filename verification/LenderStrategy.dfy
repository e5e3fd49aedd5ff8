/** Which lender is asked first, and which one lends. */
module LenderStrategy {
  import opened Wrappers
  import opened StableSort
  import opened CreditLedger
  import opened BudgetService

  datatype Preference = Preference(user: User, autoShare: bool, shareLimit: int, reserve: int, priority: int)

  datatype Candidate = Candidate(user: User, preference: Preference, budget: Budget)

  function Capacity(c: Candidate): int {
    if c.preference.shareLimit <= 0 then 0 else c.preference.shareLimit - c.budget.lent
  }

  /** More capacity first, then the lower priority number. */
  const LENDER_KEY: Candidate -> Rank := (c: Candidate) => (0 - Capacity(c), c.preference.priority)

  /** Candidates with equal keys keep their order. */
  function OrderLenders(cs: seq<Candidate>): (ordered: seq<Candidate>)
    ensures |ordered| == |cs|
  {
    SortBy(cs, LENDER_KEY)
  }

  function CanCover(cs: seq<Candidate>, amount: int): seq<Candidate>
    decreases |cs|
  {
    if cs == [] then []
    else
      var front := CanCover(cs[..|cs| - 1], amount);
      if Capacity(cs[|cs| - 1]) >= amount then front + [cs[|cs| - 1]] else front
  }

  function SelectLender(cs: seq<Candidate>, amount: int): Option<Candidate> {
    var eligible := CanCover(cs, amount);
    if eligible == [] then None else Some(FirstLeast(eligible, LENDER_KEY))
  }

  // ---------------------------------------------------------------- the order

  /**
   The order is a rearrangement of the candidates in which nobody comes after someone with less capacity, nor
   after someone with equal capacity and a higher priority number, and equals keep their order.
   */
  lemma OrderIsStableAndDescending(cs: seq<Candidate>, capacity: int, priority: int)
    ensures multiset(OrderLenders(cs)) == multiset(cs)
    ensures forall i, j :: 0 <= i < j < |cs| ==>
              var a, b := OrderLenders(cs)[i], OrderLenders(cs)[j];
              Capacity(a) > Capacity(b) || (Capacity(a) == Capacity(b) && a.preference.priority <= b.preference.priority)
    ensures WithKey(OrderLenders(cs), LENDER_KEY, (0 - capacity, priority))
         == WithKey(cs, LENDER_KEY, (0 - capacity, priority))
  {
    hide SortBy, WithKey;
    SortSorts(cs, LENDER_KEY);
    SortIsStable(cs, LENDER_KEY, (0 - capacity, priority));
    var o := OrderLenders(cs);
    forall i, j | 0 <= i < j < |cs|
      ensures Capacity(o[i]) > Capacity(o[j])
              || (Capacity(o[i]) == Capacity(o[j]) && o[i].preference.priority <= o[j].preference.priority)
    {
      assert !Before(LENDER_KEY(o[j]), LENDER_KEY(o[i]));
    }
  }

  lemma {:induction false} CoveringHead(cs: seq<Candidate>, amount: int)
    requires cs != []
    ensures Capacity(FirstLeast(cs, LENDER_KEY)) < amount ==> CanCover(cs, amount) == []
    ensures Capacity(FirstLeast(cs, LENDER_KEY)) >= amount ==>
              CanCover(cs, amount) != [] && FirstLeast(CanCover(cs, amount), LENDER_KEY) == FirstLeast(cs, LENDER_KEY)
    decreases |cs|
  {
    var n := |cs| - 1;
    if n > 0 {
      CoveringHead(cs[..n], amount);
      var front := CanCover(cs[..n], amount);
      if Capacity(cs[n]) >= amount {
        assert (front + [cs[n]])[..|front|] == front;
      }
    }
  }

  /** The selected lender is the head of the routing order if that head can cover the amount, otherwise nobody. */
  lemma SelectedIsHeadOfOrder(cs: seq<Candidate>, amount: int)
    ensures SelectLender(cs, amount) ==
            if cs != [] && Capacity(OrderLenders(cs)[0]) >= amount
            then Some(OrderLenders(cs)[0]) else None
  {
    if cs != [] {
      SortHead(cs, LENDER_KEY);
      CoveringHead(cs, amount);
    }
  }

  lemma {:induction false} CanCoverKeeps(cs: seq<Candidate>, amount: int)
    ensures forall c :: c in CanCover(cs, amount) <==> c in cs && Capacity(c) >= amount
    decreases |cs|
  {
    if cs != [] {
      CanCoverKeeps(cs[..|cs| - 1], amount);
      assert cs == cs[..|cs| - 1] + [cs[|cs| - 1]];
    }
  }

  lemma SelectedIsCandidate(cs: seq<Candidate>, amount: int)
    requires SelectLender(cs, amount).Some?
    ensures SelectLender(cs, amount).value in cs && Capacity(SelectLender(cs, amount).value) >= amount
  {
    CanCoverKeeps(cs, amount);
    LeastIsLeast(CanCover(cs, amount), LENDER_KEY, 0);
  }
}
