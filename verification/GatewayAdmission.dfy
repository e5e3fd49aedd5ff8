/** When a request is served: which route it takes, who is admitted on it, and how it ends. */
module GatewayAdmission {
  import opened Wrappers
  import opened StableSort
  import opened CreditLedger
  import opened CreditPolicy
  import opened BudgetService
  import opened LenderStrategy
  import opened BorrowEngine
  import opened Gateway
  import opened GatewayTheorems

  // ---------------------------------------------------------------- the route

  /** A conversation's other member who may lend, has something left to lend, and has an account to route to. */
  ghost predicate RoutesTo(b: Books, c: Context, accounts: map<User, Account>, p: Preference) {
    && MayLend(b, c.sharing, c.request.sender, c.request.participants, p)
    && 0 < Unlent(b, p) && p.user in accounts
  }

  ghost predicate RoutesToFirst(b: Books, c: Context, accounts: map<User, Account>, p: Preference) {
    RoutesTo(b, c, accounts, p) && forall q :: RoutesTo(b, c, accounts, q) ==> GoesFirst(b, p, q)
  }

  lemma {:induction false} FirstRoutedIs(lenders: seq<Candidate>, accounts: map<User, Account>)
    ensures var r := FirstRouted(lenders, accounts);
            && (r.None? ==> forall x :: x in lenders ==> x.user !in accounts)
            && (r.Some? ==>
                  exists i :: 0 <= i < |lenders| && lenders[i].user in accounts && r.value == accounts[lenders[i].user]
                              && forall j :: 0 <= j < i ==> lenders[j].user !in accounts)
    decreases |lenders|
  {
    if lenders != [] && lenders[0].user !in accounts {
      FirstRoutedIs(lenders[1..], accounts);
      var r := FirstRouted(lenders[1..], accounts);
      if r.Some? {
        var i :| 0 <= i < |lenders[1..]| && lenders[1..][i].user in accounts && r.value == accounts[lenders[1..][i].user]
                 && forall j :: 0 <= j < i ==> lenders[1..][j].user !in accounts;
        assert forall j :: 0 < j <= i ==> lenders[j] == lenders[1..][j - 1];
      }
    }
  }

  /**
   On a day without a reset a request can be routed to a lender exactly when borrowing is allowed and somebody who may
   lend has something left and an account; it goes to the one of those with the most left to lend.
   */
  lemma BorrowedRouteIs(b: Books, c: Context, accounts: map<User, Account>)
    requires NoResetDue(b, c.request.today)
    ensures var (b', route) := ResolveBorrowed(b, c, accounts);
            && b' == b
            && (route.Some? <==> c.settings.allowBorrowing && exists p :: RoutesTo(b, c, accounts, p))
            && (route.Some? ==>
                  exists p :: RoutesToFirst(b, c, accounts, p) && route.value == Route(Some(accounts[p.user]), true))
  {
    hide FindLenders, SortBy, FirstRouted;
    var others := c.request.participants - {c.request.sender};
    LendersAre(b, c.sharing, c.request.sender, others, None, c.request.today);
    var found := FindLenders(b, c.sharing, c.request.sender, others, None, c.request.today).1;
    SortSorts(found, LENDER_KEY);
    var ordered := OrderLenders(found);
    assert forall x :: x in ordered <==> x in found by {
      assert forall x :: x in ordered <==> x in multiset(ordered);
      assert forall x :: x in found <==> x in multiset(found);
    }
    FirstRoutedIs(ordered, accounts);
    var account := FirstRouted(ordered, accounts);
    assert forall p :: RoutesTo(b, c, accounts, p) ==> Candidate(p.user, p, b.budgets[p.user]) in ordered;
    if account.Some? {
      var i :| 0 <= i < |ordered| && ordered[i].user in accounts && account.value == accounts[ordered[i].user]
               && forall j :: 0 <= j < i ==> ordered[j].user !in accounts;
      FirstInOrder(b, c, accounts, ordered, i);
      assert RoutesToFirst(b, c, accounts, ordered[i].preference);
    }
  }

  lemma FirstInOrder(b: Books, c: Context, accounts: map<User, Account>, ordered: seq<Candidate>, i: nat)
    requires Sorted(ordered, LENDER_KEY) && i < |ordered| && ordered[i].user in accounts
    requires forall j :: 0 <= j < i ==> ordered[j].user !in accounts
    requires forall x :: x in ordered <==>
                           && MayLend(b, c.sharing, c.request.sender, c.request.participants - {c.request.sender}, x.preference)
                           && x == Candidate(x.preference.user, x.preference, b.budgets[x.preference.user])
                           && 0 < Unlent(b, x.preference)
    ensures RoutesToFirst(b, c, accounts, ordered[i].preference)
  {
    assert ordered[i] in ordered;
    forall q | RoutesTo(b, c, accounts, q) ensures GoesFirst(b, ordered[i].preference, q) {
      assert Candidate(q.user, q, b.budgets[q.user]) in ordered;
      var j :| 0 <= j < |ordered| && ordered[j] == Candidate(q.user, q, b.budgets[q.user]);
    }
  }

  /** The first attempt uses the sender's account, or else a lender's, or else a free provider, or there is none. */
  lemma FirstRouteIs(b: Books, c: Context)
    requires NoResetDue(b, c.request.today)
    ensures var s, accounts, route := c.request.sender, c.outside.accounts, FirstRoute(b, c);
            if s in accounts then route == Some(Route(Some(accounts[s]), false))
            else if c.settings.allowBorrowing && exists p :: RoutesTo(b, c, accounts, p)
            then exists p :: RoutesToFirst(b, c, accounts, p) && route == Some(Route(Some(accounts[p.user]), true))
            else if c.outside.envProvider == "mock" || c.outside.envProvider == "ollama" then route == Some(Route(None, false))
            else route.None?
  {
    hide ResolveBorrowed, RoutesToFirst;
    if c.request.sender !in c.outside.accounts {
      BorrowedRouteIs(b, c, c.outside.accounts);
    }
  }

  /** A retry goes to a lender, after an attempt that was not borrowed. */
  lemma RetryRouteIs(b: Books, c: Context)
    requires NoResetDue(b, c.request.today)
    ensures var accounts, route := c.outside.retryAccounts, RetryRoute(b, c);
            if FirstRoute(b, c).Some? && !FirstRoute(b, c).value.borrowed && c.settings.allowBorrowing
               && exists p :: RoutesTo(b, c, accounts, p)
            then exists p :: RoutesToFirst(b, c, accounts, p) && route == Some(Route(Some(accounts[p.user]), true))
            else route.None?
  {
    hide ResolveBorrowed, RoutesToFirst, FirstRoute;
    BorrowedRouteIs(b, c, c.outside.retryAccounts);
  }

  // ---------------------------------------------------------------- who is admitted

  /**
   Local models are allowed if this is one, and the estimate is covered: it is zero; or the sender has a row and, with an
   account of its own, the balance covers the estimate or enforcement is soft; or, with a lender's, borrowing is allowed,
   the sender is not in debt, and somebody may and can lend the whole estimate. `extra` is what a failed first attempt has added to the balance.
   */
  ghost predicate Admits(b: Books, c: Context, route: Route, extra: int) {
    var s, provider := c.request.sender, ProviderOf(route, c);
    var estimate := EstimateRequestCost(c.outside.profile, provider, c.request.inputChars);
    && (provider == "ollama" ==> c.settings.allowLocalModels)
    && (0 < estimate ==>
          && s in b.budgets
          && if route.borrowed
             then c.settings.allowBorrowing && 0 <= b.budgets[s].remaining + extra
                  && exists p :: Lender(b, c.sharing, s, c.request.participants, estimate, p)
             else c.settings.hardEnforcement ==> estimate <= b.budgets[s].remaining + extra)
  }

  /** The outcome is undone: the provider is not called, or an error reaches the caller before anything is committed. */
  predicate Undone(result: ProviderResult) {
    result.NotStarted? || result.Aborted? || (result.Replied? && result.after.AbortedBeforeCommit?)
  }

  lemma ConsumeIff(b: Books, u: User, amount: nat, allow: bool, today: Date)
    requires NoResetDue(b, today) && 0 < amount
    ensures Consume(b, u, amount, allow, today).failure.None?
            <==> u in b.budgets && (allow || amount <= b.budgets[u].remaining)
  {
    hide ResetIfNeeded;
    ResetKeepsFailure(b, u, today);
    if u in b.budgets {
      WithoutDueResetIsNoOp(b, u, today);
    }
  }

  lemma OwnPrepared(b: Books, c: Context, route: Route)
    requires NoResetDue(b, c.request.today) && !route.borrowed
    ensures Admits(b, c, route, 0) <==> Prepare(b, c, route).Prepared? && ChargeUp(Prepare(b, c, route), c, route).failure.None?
  {
    hide ResetIfNeeded, EstimateRequestCost, Consume;
    var estimate := Estimate(route, c);
    ResetKeepsFailure(b, c.request.sender, c.request.today);
    if c.request.sender in b.budgets {
      WithoutDueResetIsNoOp(b, c.request.sender, c.request.today);
    }
    ConsumeUndue(b, c.request.sender, 0, MayOverdraw(c, route), c.request.today);
    if 0 < estimate {
      ConsumeIff(b, c.request.sender, estimate, MayOverdraw(c, route), c.request.today);
    }
  }

  lemma BorrowedPrepared(b: Books, c: Context, route: Route)
    requires SharingOk(b, c.sharing) && NoResetDue(b, c.request.today) && route.borrowed
    ensures Admits(b, c, route, 0) <==> Prepare(b, c, route).Prepared? && ChargeUp(Prepare(b, c, route), c, route).failure.None?
  {
    hide Reserve, EstimateRequestCost, Consume, SharingOk, Transfer, Lender, FirstLender;
    var s, estimate := c.request.sender, Estimate(route, c);
    ConsumeUndue(b, s, 0, false, c.request.today);
    if 0 < estimate {
      ReserveIff(b, c.sharing, s, estimate, c.request.participants, c.request.today);
      PrepareEffect(b, c, route);
      var p := Prepare(b, c, route);
      if p.Prepared? {
        BorrowerAfter(b, p.reservation.value);
        assert NoResetDue(p.books, c.request.today) by { TransferUndue(b, p.reservation.value, c.request.today); }
        ConsumeIff(p.books, s, estimate, false, c.request.today);
      }
    }
  }

  lemma BorrowerAfter(b: Books, r: Reservation)
    requires r.lender in b.budgets && r.borrower in b.budgets && r.lender != r.borrower
    ensures r.borrower in Transfer(b, r).budgets
    ensures Transfer(b, r).budgets[r.borrower].remaining == b.budgets[r.borrower].remaining + r.amount
  {
  }

  lemma TransferUndue(b: Books, r: Reservation, today: Date)
    requires NoResetDue(b, today) && r.lender in b.budgets && r.borrower in b.budgets
    ensures NoResetDue(Transfer(b, r), today)
  {
  }

  /** An attempt leaves no trace exactly when it is not admitted or its outcome is undone. */
  lemma AttemptRejectedIff(b: Books, c: Context, route: Route, result: ProviderResult)
    requires SharingOk(b, c.sharing) && NoResetDue(b, c.request.today)
    ensures var a := Attempt(b, c, route, result);
            && (a.Rejected? <==> !Admits(b, c, route, 0) || Undone(result))
            && (a.Broken? <==> Admits(b, c, route, 0) && Breaks(result))
  {
    hide Prepare, ChargeUp, Conclude, Admits, SharingOk;
    if route.borrowed {
      BorrowedPrepared(b, c, route);
    } else {
      OwnPrepared(b, c, route);
    }
    var p := Prepare(b, c, route);
    if p.Prepared? && ChargeUp(p, c, route).failure.None? && !result.NotStarted? {
      ConcludeIff(b, c, route, result);
    }
  }

  lemma ConcludeIff(b: Books, c: Context, route: Route, result: ProviderResult)
    requires SharingOk(b, c.sharing) && NoResetDue(b, c.request.today)
    requires Prepare(b, c, route).Prepared? && ChargeUp(Prepare(b, c, route), c, route).failure.None?
    requires !result.NotStarted?
    ensures var p := Prepare(b, c, route);
            var a := Conclude(ChargeUp(p, c, route).books, p, c, route, result);
            (a.Rejected? <==> Undone(result)) && (a.Broken? <==> Breaks(result))
  {
    hide Prepare, ChargeUp, Reconcile, Compensate, Estimate, SharingOk, ActualCost, DeliveredRows, FailedRows;
    assert RowsOk(b) by { BooksRows(b, c.sharing); }
    var p := Prepare(b, c, route);
    PrepareEffect(b, c, route);
    var charged := ChargeUp(p, c, route).books;
    ChargeEffect(b, c, route, p.reservation);
    match result
    case Replied(i, o, after) =>
      var charge := Charge(p.reserved, ActualCost(c, route, result), p.reservation);
      SettleEffect(b, charged, c, route, result, charge);
      var settled := Reconcile(charged, c, route, charge).books;
      CompensateEffect(b, settled, c, charge, None);
      CompensateEffect(b, settled, c, charge, Some(settled));
    case Failed =>
      CompensateEffect(b, charged, c, Charge(p.reserved, p.reserved, p.reservation), None);
    case Aborted =>
  }

  // ---------------------------------------------------------------- how a request ends

  lemma LenderElsewhere(b: Books, t: Books, c: Context, amount: int)
    requires t.budgets.Keys == b.budgets.Keys
    requires forall u :: u in b.budgets && u != c.request.sender ==> t.budgets[u] == b.budgets[u]
    ensures forall p :: Lender(t, c.sharing, c.request.sender, c.request.participants, amount, p)
                        <==> Lender(b, c.sharing, c.request.sender, c.request.participants, amount, p)
  {
  }

  /** After a failed first attempt that was not borrowed, the same admits as before, with what the failure has added. */
  lemma AdmitsAfterFailure(b: Books, t: Books, c: Context, route: Route, first: Charge)
    requires (0 < first.reserved ==> c.request.sender in b.budgets) && (first.reserved == 0 ==> first.paid == 0)
    requires t.budgets == FailedRows(b.budgets, c.request.sender, first) && first.lent.None?
    ensures Admits(t, c, route, 0) <==> Admits(b, c, route, first.reserved - first.paid)
  {
    hide EstimateRequestCost, Lender;
    FailedRowsKeepOthers(b.budgets, c.request.sender, first);
    LenderElsewhere(b, t, c, Estimate(route, c));
  }

  /** How a request ends, from the books before it, its routes, and what becomes of its attempts outside the accounting. */
  ghost predicate EndsAs(b: Books, c: Context, ending: Ending, attempts: nat) {
    var route, first, second := FirstRoute(b, c), c.outside.first, c.outside.second;
    if route.None? then ending == WasRejected(None) && attempts == 0
    else if !Admits(b, c, route.value, 0) || Undone(first) then ending == WasRejected(None) && attempts == 1
    else if !Breaks(first) then
      ending.WasDelivered? && ending.first.None? && (ending.answered <==> first.after.Completed?) && attempts == 1
    else if RetryRoute(b, c).None? then ending.AllFailed? && ending.first.None? && attempts == 1
    else if !Admits(b, c, RetryRoute(b, c).value, EarlierSurplus(b, c)) || Undone(second) then
      && ending.WasRejected? && attempts == 2
      && (ending.kept.Some? <==> first.Replied? && first.after.BrokeAfterCommit?)
    else if !Breaks(second) then
      ending.WasDelivered? && ending.first.Some? && (ending.answered <==> second.after.Completed?) && attempts == 2
    else ending.AllFailed? && ending.first.Some? && attempts == 2
  }

  lemma RetryEnds(b: Books, start: Books, t: Books, c: Context, first: Charge, saved: bool)
    requires SharingOk(t, c.sharing) && NoResetDue(t, c.request.today)
    requires FirstRoute(b, c).Some? && Admits(b, c, FirstRoute(b, c).value, 0) && RetryRoute(b, c).Some?
    requires Breaks(c.outside.first) && first.lent.None?
    requires ChargeFits(b, c, FirstRoute(b, c).value, c.outside.first, first)
    requires t.budgets == FailedRows(b.budgets, c.request.sender, first)
    requires saved <==> c.outside.first.Replied? && c.outside.first.after.BrokeAfterCommit?
    ensures var out := Serve(start, t, c, RetryRoute(b, c).value, Some(first), saved);
            EndsAs(b, c, out.ending, out.attempts)
  {
    hide Attempt, SharingOk, ResolveExecution, ResolveBorrowed, DeliveredRows, FailedRows, Estimate, PaidFor, FirstRoute, Admits;
    var route := RetryRoute(b, c).value;
    AttemptEffect(t, c, route, c.outside.second);
    AttemptRejectedIff(t, c, route, c.outside.second);
    AdmitsAfterFailure(b, t, c, route, first);
    assert EarlierSurplus(b, c) == first.reserved - first.paid;
  }

  /**
   The whole request, on a day without a reset: it is rejected, delivered or failed after so many attempts exactly as its
   routes, the admission of its sender on them and the results of the attempts say.
   */
  lemma RequestEnds(b: Books, c: Context)
    requires SharingOk(b, c.sharing) && NoResetDue(b, c.request.today)
    ensures EndsAs(b, c, Generate(b, c).ending, Generate(b, c).attempts)
  {
    hide Attempt, SharingOk, ResolveExecution, ResolveBorrowed, DeliveredRows, FailedRows, Estimate, PaidFor, Admits;
    ResolveExecutionKeeps(b, c);
    if FirstRoute(b, c).Some? {
      FirstEnds(b, c);
    }
  }

  lemma FirstEnds(b: Books, c: Context)
    requires SharingOk(b, c.sharing) && NoResetDue(b, c.request.today) && FirstRoute(b, c).Some?
    ensures var out := Serve(b, b, c, FirstRoute(b, c).value, None, false); EndsAs(b, c, out.ending, out.attempts)
  {
    hide Attempt, SharingOk, ResolveExecution, ResolveBorrowed, DeliveredRows, FailedRows, Breaks, Undone, Estimate, PaidFor,
         FirstRoute, Admits;
    var route := FirstRoute(b, c).value;
    AttemptEffect(b, c, route, c.outside.first);
    AttemptRejectedIff(b, c, route, c.outside.first);
    AttemptKeeps(b, c, route, c.outside.first);
    var a := Attempt(b, c, route, c.outside.first);
    if a.Broken? {
      FailedRowsKeepOthers(b.budgets, c.request.sender, a.charge);
      RetryAgrees(b, a.books, c);
      if !route.borrowed && c.settings.allowBorrowing {
        ResolveBorrowedKeeps(a.books, c, c.outside.retryAccounts);
        if RetryRoute(b, c).Some? {
          hide Serve, EndsAs, ChargeFits;
          assert a.charge.lent.None? by { NotLent(b, c, route, c.outside.first, a.charge); }
          RetryEnds(b, if a.saved.Some? then a.saved.value else b, a.books, c, a.charge, a.saved.Some?);
        }
      }
    }
  }

  /**
   With an account of its own a request that is answered in time is delivered exactly when the provider is not a local
   model that is disabled and the estimate is zero, or the sender has a row and the balance covers it or enforcement is
   soft. Otherwise nothing is left of it.
   */
  lemma OwnAccountServedIff(b: Books, c: Context)
    requires SharingOk(b, c.sharing) && NoResetDue(b, c.request.today)
    requires c.request.sender in c.outside.accounts && c.outside.first.Replied? && c.outside.first.after.Completed?
    ensures var s, provider := c.request.sender, c.outside.accounts[c.request.sender].provider;
            var estimate := EstimateRequestCost(c.outside.profile, provider, c.request.inputChars);
            var out := Generate(b, c);
            && (out.ending.WasDelivered? <==>
                  && (provider == "ollama" ==> c.settings.allowLocalModels)
                  && (estimate == 0
                      || (s in b.budgets && (!c.settings.hardEnforcement || estimate <= b.budgets[s].remaining))))
            && (!out.ending.WasDelivered? ==> out.books == b && out.ending == WasRejected(None))
  {
    hide Generate, EstimateRequestCost, SharingOk, RetryRoute, ResolveBorrowed;
    RequestEnds(b, c);
    WholeRequest(b, c);
  }

  /**
   Without an account, but with a lender's, a request that is answered in time is delivered exactly when the provider of
   the first lender in order is not a local model that is disabled and the estimate is zero, or the sender has a row, is
   not in debt, and somebody may and can lend all of the estimate.
   */
  lemma BorrowedServedIff(b: Books, c: Context)
    requires SharingOk(b, c.sharing) && NoResetDue(b, c.request.today)
    requires c.request.sender !in c.outside.accounts && c.settings.allowBorrowing
    requires exists p :: RoutesTo(b, c, c.outside.accounts, p)
    requires c.outside.first.Replied? && c.outside.first.after.Completed?
    ensures exists lender ::
              && RoutesToFirst(b, c, c.outside.accounts, lender)
              && var s, provider := c.request.sender, c.outside.accounts[lender.user].provider;
                 var estimate := EstimateRequestCost(c.outside.profile, provider, c.request.inputChars);
                 Generate(b, c).ending.WasDelivered? <==>
                 && (provider == "ollama" ==> c.settings.allowLocalModels)
                 && (estimate == 0
                     || (s in b.budgets && 0 <= b.budgets[s].remaining
                         && exists p :: Lender(b, c.sharing, s, c.request.participants, estimate, p)))
  {
    hide Generate, EstimateRequestCost, SharingOk, RetryRoute, FirstRoute, Lender, RoutesTo, RoutesToFirst;
    RequestEnds(b, c);
    FirstRouteIs(b, c);
  }
}
