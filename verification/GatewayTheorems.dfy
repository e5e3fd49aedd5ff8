/** What one request does to the books, and what every run of budget operations and requests keeps. */
module GatewayTheorems {
  import opened Wrappers
  import opened CreditLedger
  import opened CreditPolicy
  import opened BudgetService
  import opened LenderStrategy
  import opened BorrowEngine
  import opened Gateway

  type Rows = map<User, Budget>

  // ---------------------------------------------------------------- operations on a day without a reset

  lemma ConsumeUndue(b: Books, u: User, amount: nat, allow: bool, today: Date)
    requires NoResetDue(b, today)
    ensures var out := Consume(b, u, amount, allow, today);
            && (amount == 0 ==> out == Outcome(b, None))
            && (0 < amount && out.failure.None? ==>
                  && u in b.budgets && out.books == Posted(b, u, Charged(b.budgets[u], amount), Tx(Usage, Some(u), None, amount))
                  && (allow || amount <= b.budgets[u].remaining))
  {
    hide ResetIfNeeded;
    ResetKeepsFailure(b, u, today);
    if u in b.budgets {
      WithoutDueResetIsNoOp(b, u, today);
    }
  }

  lemma ResetKeepsFailure(b: Books, u: User, today: Date)
    ensures ResetIfNeeded(b, u, today).failure.None? <==> u in b.budgets
  {
  }

  lemma AdjustUndue(b: Books, u: User, amount: int, today: Date)
    requires NoResetDue(b, today) && u in b.budgets
    ensures amount == 0 ==> Adjust(b, u, amount, today) == Outcome(b, None)
    ensures amount != 0 ==>
              Adjust(b, u, amount, today) == Outcome(Posted(b, u, Adjusted(b.budgets[u], amount), AdjustmentTx(u, amount)), None)
  {
    hide ResetIfNeeded;
    WithoutDueResetIsNoOp(b, u, today);
  }

  // ---------------------------------------------------------------- one attempt

  /** A lender gives exactly the amount; the borrower gains it and pays the actual cost. */
  function DeliveredRows(rows: Rows, sender: User, charge: Charge): Rows
    requires 0 < charge.reserved ==> sender in rows
    requires charge.lent.Some? ==> charge.lent.value.lender in rows && sender in rows
  {
    if charge.reserved == 0 then rows
    else if charge.lent.None? then rows[sender := Charged(rows[sender], charge.paid)]
    else
      var r := charge.lent.value;
      rows[r.lender := Lends(rows[r.lender], r.amount)][sender := Charged(Borrows(rows[sender], r.amount), charge.paid)]
  }

  /** A sender after a failed attempt: the release stops at zero, and the refund is what was charged at first. */
  function Refunded(row: Budget, charge: Charge): Budget {
    var paid := row.remaining - charge.paid;
    row.(remaining := (if charge.lent.Some? then AtLeastZero(paid) else paid) + charge.reserved,
         used := AtLeastZero(row.used + charge.paid - charge.reserved))
  }

  /** A failed attempt leaves every row but the sender's as it was. */
  function FailedRows(rows: Rows, sender: User, charge: Charge): Rows
    requires 0 < charge.reserved ==> sender in rows
  {
    if charge.reserved == 0 then rows else rows[sender := Refunded(rows[sender], charge)]
  }

  ghost predicate ReservationFor(b: Books, sender: User, reserved: int, r: Reservation) {
    && r.borrower == sender && r.amount == reserved && 0 < reserved
    && r.lender in b.budgets && sender in b.budgets && r.lender != sender
  }

  /** What an attempt on this route with this result has to pay: the settled cost once there is a reply. */
  function PaidFor(c: Context, route: Route, result: ProviderResult): nat {
    if result.Replied? then ActualCost(c, route, result) else Estimate(route, c)
  }

  /** The charge is the one route and result determine; a borrowed route that is not free has a lender for all of it. */
  ghost predicate ChargeFits(b: Books, c: Context, route: Route, result: ProviderResult, charge: Charge) {
    && charge.reserved == Estimate(route, c) && charge.paid == PaidFor(c, route, result)
    && (charge.reserved == 0 ==> charge.paid == 0)
    && (0 < charge.reserved ==> c.request.sender in b.budgets)
    && (charge.lent.Some? <==> route.borrowed && 0 < charge.reserved)
    && (charge.lent.Some? ==> ReservationFor(b, c.request.sender, charge.reserved, charge.lent.value))
  }

  lemma PrepareEffect(b: Books, c: Context, route: Route)
    requires SharingOk(b, c.sharing) && NoResetDue(b, c.request.today)
    ensures var p := Prepare(b, c, route);
            p.Prepared? ==>
              && p.reserved == Estimate(route, c)
              && (0 < p.reserved ==> c.request.sender in b.budgets)
              && (p.reservation.Some? <==> route.borrowed && 0 < p.reserved)
              && (p.reservation.None? ==> p.books == b)
              && (p.reservation.Some? ==>
                    ReservationFor(b, c.request.sender, p.reserved, p.reservation.value)
                    && p.books == Transfer(b, p.reservation.value))
  {
    hide Reserve, ResetIfNeeded, Estimate, LedgerAgrees, LoansWithinLimits, OneRowPerUser, MovesAfterResets;
    ReserveMovesCredits(b, c.sharing, c.request.sender, Estimate(route, c), c.request.participants, c.request.today);
    ResetKeepsFailure(b, c.request.sender, c.request.today);
    if c.request.sender in b.budgets {
      WithoutDueResetIsNoOp(b, c.request.sender, c.request.today);
    }
  }

  /** Settling a charged attempt moves the sender from what was reserved to what is paid. */
  lemma ReconcileEffect(b: Books, c: Context, route: Route, charge: Charge)
    requires NoResetDue(b, c.request.today)
    requires charge.reserved == 0 ==> charge.paid == 0
    requires 0 < charge.reserved ==> c.request.sender in b.budgets && charge.reserved <= b.budgets[c.request.sender].used
    ensures var a := Reconcile(b, c, route, charge);
            && a.Delivered? && a.charge == charge && a.answered && NoResetDue(a.books, c.request.today)
            && a.books.budgets == (if charge.reserved == 0 then b.budgets else
                  var row := b.budgets[c.request.sender];
                  b.budgets[c.request.sender := row.(remaining := row.remaining + charge.reserved - charge.paid,
                                                     used := row.used - charge.reserved + charge.paid)])
  {
    hide Adjust, Consume;
    if 0 < charge.reserved {
      AdjustUndue(b, c.request.sender, charge.reserved - charge.paid, c.request.today);
      var row := b.budgets[c.request.sender];
      if charge.paid == charge.reserved {
        assert b.budgets == b.budgets[c.request.sender := row.(remaining := row.remaining + charge.reserved - charge.paid,
                                                               used := row.used - charge.reserved + charge.paid)];
      }
    }
  }

  lemma ChargeEffect(b: Books, c: Context, route: Route, lent: Option<Reservation>)
    requires SharingOk(b, c.sharing) && NoResetDue(b, c.request.today) && Prepare(b, c, route).Prepared?
    requires ChargeUp(Prepare(b, c, route), c, route).failure.None?
    requires lent == Prepare(b, c, route).reservation
    ensures var charged := ChargeUp(Prepare(b, c, route), c, route).books;
            var charge := Charge(Estimate(route, c), Estimate(route, c), lent);
            && NoResetDue(charged, c.request.today)
            && ChargeFits(b, c, route, Failed, charge)
            && (charge.reserved == 0 ==> charged == b)
            && charged.budgets == DeliveredRows(b.budgets, c.request.sender, charge)
  {
    hide Prepare, Consume, SharingOk, Estimate;
    PrepareEffect(b, c, route);
    var p := Prepare(b, c, route);
    ConsumeUndue(p.books, c.request.sender, p.reserved, MayOverdraw(c, route), c.request.today);
  }

  /** Release, then refund, from the rows of a delivered attempt. */
  lemma CompensateEffect(b: Books, charged: Books, c: Context, charge: Charge, saved: Option<Books>)
    requires RowsOk(b) && NoResetDue(charged, c.request.today)
    requires 0 < charge.reserved ==> c.request.sender in b.budgets
    requires charge.reserved == 0 ==> charge.lent.None?
    requires charge.lent.Some? ==> ReservationFor(b, c.request.sender, charge.reserved, charge.lent.value)
    requires charged.budgets == DeliveredRows(b.budgets, c.request.sender, charge)
    ensures var a := Compensate(charged, c, charge, saved);
            && a.Broken? && a.charge == charge && a.saved == saved
            && a.books.budgets == FailedRows(b.budgets, c.request.sender, charge) && NoResetDue(a.books, c.request.today)
  {
    hide Adjust;
    var s := c.request.sender;
    if charge.reserved == 0 {
      AdjustIsSkipped(charged, s, c.request.today);
    } else {
      var released := ReleaseIfAny(charged, charge.lent);
      assert NoneNegative(b.budgets[s]);
      if charge.lent.Some? {
        assert NoneNegative(b.budgets[charge.lent.value.lender]);
        ReturnEffect(b, charged, charge);
      }
      AdjustUndue(released.books, s, charge.reserved, c.request.today);
      assert Compensate(charged, c, charge, saved).books.budgets[s] == FailedRows(b.budgets, s, charge)[s];
      assert Compensate(charged, c, charge, saved).books.budgets == FailedRows(b.budgets, s, charge);
    }
  }

  lemma AdjustIsSkipped(b: Books, u: User, today: Date)
    ensures Adjust(b, u, 0, today) == Outcome(b, None)
  {
  }

  lemma ReturnEffect(b: Books, charged: Books, charge: Charge)
    requires charge.lent.Some?
    requires var r := charge.lent.value;
             && ReservationFor(b, r.borrower, charge.reserved, r)
             && NoneNegative(b.budgets[r.lender]) && NoneNegative(b.budgets[r.borrower])
             && charged.budgets == DeliveredRows(b.budgets, r.borrower, charge)
    ensures var r := charge.lent.value;
            var out := Release(charged, r);
            && out.failure.None?
            && out.books.budgets.Keys == b.budgets.Keys
            && out.books.budgets[r.lender] == b.budgets[r.lender]
            && (forall u :: u in b.budgets && u != r.borrower ==> out.books.budgets[u] == b.budgets[u])
            && (var row := b.budgets[r.borrower];
                out.books.budgets[r.borrower] == row.(remaining := AtLeastZero(row.remaining - charge.paid),
                                                      used := row.used + charge.paid))
  {
  }

  /** The result is one after which the request is still in the hands of the exception handler. */
  predicate Breaks(result: ProviderResult) {
    result.Failed? || (result.Replied? && (result.after.BrokeBeforeCommit? || result.after.BrokeAfterCommit?))
  }

  /** One attempt, on a day without a reset: rejected, delivered at the actual cost, or compensated. */
  lemma AttemptEffect(b: Books, c: Context, route: Route, result: ProviderResult)
    requires SharingOk(b, c.sharing) && NoResetDue(b, c.request.today)
    ensures var a := Attempt(b, c, route, result);
            && !a.Refused?
            && (a.Delivered? ==>
                  && result.Replied? && (if a.answered then result.after.Completed? else result.after.AbortedAfterCommit?)
                  && ChargeFits(b, c, route, result, a.charge)
                  && a.books.budgets == DeliveredRows(b.budgets, c.request.sender, a.charge))
            && (a.Broken? ==>
                  && Breaks(result) && ChargeFits(b, c, route, result, a.charge)
                  && a.books.budgets == FailedRows(b.budgets, c.request.sender, a.charge)
                  && NoResetDue(a.books, c.request.today)
                  && (a.saved.Some? <==> result.Replied? && result.after.BrokeAfterCommit?)
                  && (a.saved.Some? ==> a.saved.value.budgets == DeliveredRows(b.budgets, c.request.sender, a.charge)))
  {
    hide Prepare, ChargeUp, Reconcile, Compensate, Estimate, SharingOk, ActualCost, DeliveredRows, FailedRows;
    assert RowsOk(b) by { BooksRows(b, c.sharing); }
    var p := Prepare(b, c, route);
    PrepareEffect(b, c, route);
    if p.Prepared? && ChargeUp(p, c, route).failure.None? {
      var charged := ChargeUp(p, c, route).books;
      ChargeEffect(b, c, route, p.reservation);
      match result
      case Replied(i, o, after) =>
        var charge := Charge(p.reserved, ActualCost(c, route, result), p.reservation);
        SettleEffect(b, charged, c, route, result, charge);
        var settled := Reconcile(charged, c, route, charge).books;
        CompensateEffect(b, settled, c, charge, None);
        CompensateEffect(b, settled, c, charge, Some(settled));
      case Failed =>
        CompensateEffect(b, charged, c, Charge(p.reserved, p.reserved, p.reservation), None);
      case Aborted =>
      case NotStarted =>
    }
  }

  lemma BooksRows(b: Books, sharing: Sharing)
    requires SharingOk(b, sharing)
    ensures RowsOk(b)
  {
  }

  lemma SettleEffect(b: Books, charged: Books, c: Context, route: Route, result: ProviderResult, charge: Charge)
    requires RowsOk(b) && NoResetDue(charged, c.request.today) && result.Replied?
    requires charge.paid == ActualCost(c, route, result)
    requires ChargeFits(b, c, route, Failed, charge.(paid := charge.reserved))
    requires charged.budgets == DeliveredRows(b.budgets, c.request.sender, charge.(paid := charge.reserved))
    ensures ChargeFits(b, c, route, result, charge)
    ensures var a := Reconcile(charged, c, route, charge);
            && a.Delivered? && a.charge == charge && a.answered && NoResetDue(a.books, c.request.today)
            && a.books.budgets == DeliveredRows(b.budgets, c.request.sender, charge)
  {
    hide Reconcile, CalculateCost, EstimateRequestCost;
    if charge.reserved == 0 {
      ZeroEstimateIsFree(c.outside.profile, ProviderOf(route, c), c.request.inputChars, result.inputTokens, result.outputTokens);
    } else {
      assert NoneNegative(b.budgets[c.request.sender]);
    }
    ReconcileEffect(charged, c, route, charge);
    var a := Reconcile(charged, c, route, charge);
    assert a.books.budgets == DeliveredRows(b.budgets, c.request.sender, charge);
  }

  // ---------------------------------------------------------------- one request

  lemma ResolveBorrowedKeeps(b: Books, c: Context, accounts: map<User, Account>)
    requires SharingOk(b, c.sharing)
    ensures var (b', route) := ResolveBorrowed(b, c, accounts);
            && SharingOk(b', c.sharing) && (NoOverdraft(b) ==> NoOverdraft(b'))
            && b'.budgets.Keys == b.budgets.Keys
            && (NoResetDue(b, c.request.today) ==> b' == b)
            && (route.Some? ==> route.value.borrowed)
  {
    hide Scan, QueriedRows;
    var others := c.request.participants - {c.request.sender};
    ScanKeeps(QueriedRows(c.sharing.rows, c.sharing, b, c.request.sender), b, others, None, c.request.today, c.sharing);
  }

  lemma ResolveExecutionKeeps(b: Books, c: Context)
    requires SharingOk(b, c.sharing)
    ensures var (b', route) := ResolveExecution(b, c);
            && SharingOk(b', c.sharing) && (NoOverdraft(b) ==> NoOverdraft(b'))
            && b'.budgets.Keys == b.budgets.Keys
            && (NoResetDue(b, c.request.today) ==> b' == b)
  {
    hide ResolveBorrowed;
    ResolveBorrowedKeeps(b, c, c.outside.accounts);
  }

  lemma PrepareKeeps(b: Books, c: Context, route: Route)
    requires SharingOk(b, c.sharing)
    ensures var p := Prepare(b, c, route);
            p.Prepared? ==>
              && SharingOk(p.books, c.sharing) && p.books.budgets.Keys == b.budgets.Keys
              && (NoOverdraft(b) && ReservesOk(c.sharing) ==> NoOverdraft(p.books))
              && (p.reservation.Some? ==> p.reservation.value.lender != p.reservation.value.borrower)
              && p.reserved == Estimate(route, c)
  {
    hide Reserve, ResetIfNeeded, Estimate, LedgerAgrees, LoansWithinLimits;
    ReserveMovesCredits(b, c.sharing, c.request.sender, Estimate(route, c), c.request.participants, c.request.today);
    ResetKeepsBooks(b, c.request.sender, c.request.today);
    ResetKeepsLoans(b, c.sharing, c.request.sender, c.request.today);
  }

  lemma ConsumeKeepsSharing(b: Books, sharing: Sharing, u: User, amount: int, allow: bool, today: Date)
    requires SharingOk(b, sharing)
    ensures var out := Consume(b, u, amount, allow, today);
            && SharingOk(out.books, sharing) && out.books.budgets.Keys == b.budgets.Keys
            && (NoOverdraft(b) && !allow ==> NoOverdraft(out.books))
  {
    hide ResetIfNeeded, LedgerAgrees;
    ConsumeKeepsBooks(b, u, amount, allow, today);
    ResetKeepsLoans(b, sharing, u, today);
    ResetKeepsBooks(b, u, today);
    LoansFollow(ResetIfNeeded(b, u, today).books, Consume(b, u, amount, allow, today).books, sharing);
  }

  lemma AdjustKeepsSharing(b: Books, sharing: Sharing, u: User, amount: int, today: Date)
    requires SharingOk(b, sharing)
    ensures var out := Adjust(b, u, amount, today);
            && SharingOk(out.books, sharing) && out.books.budgets.Keys == b.budgets.Keys
            && (NoOverdraft(b) && 0 <= amount ==> NoOverdraft(out.books))
  {
    hide ResetIfNeeded, LedgerAgrees;
    AdjustKeepsBooks(b, u, amount, today);
    ResetKeepsLoans(b, sharing, u, today);
    ResetKeepsBooks(b, u, today);
    LoansFollow(ResetIfNeeded(b, u, today).books, Adjust(b, u, amount, today).books, sharing);
  }

  lemma LoansFollow(b: Books, b': Books, sharing: Sharing)
    requires LoansWithinLimits(b, sharing)
    ensures (forall u :: u in b'.budgets ==> u in b.budgets && b'.budgets[u].lent == b.budgets[u].lent) ==>
              LoansWithinLimits(b', sharing)
  {
    if forall u :: u in b'.budgets ==> u in b.budgets && b'.budgets[u].lent == b.budgets[u].lent {
      forall u | u in b'.budgets && 0 < b'.budgets[u].lent ensures WithinLimit(b'.budgets[u], u, sharing) {
        assert WithinLimit(b.budgets[u], u, sharing);
      }
    }
  }

  /** The provider used no more tokens than the estimate allowed for. */
  ghost predicate WithinTokens(c: Context, result: ProviderResult) {
    result.Replied? ==>
      AtLeastZero(result.inputTokens) + AtLeastZero(result.outputTokens)
      <= EstimatedInputTokens(c.request.inputChars) + ESTIMATED_MAX_OUTPUT_TOKENS
  }

  /** What an attempt may leave behind: sound books, and sound books at the commit it made, if it made one. */
  ghost predicate Leaves(b: Books, c: Context, a: Attempted) {
    !a.Rejected? ==>
      && SharingOk(a.books, c.sharing) && a.books.budgets.Keys == b.budgets.Keys
      && (a.Broken? && a.saved.Some? ==> SharingOk(a.saved.value, c.sharing) && a.saved.value.budgets.Keys == b.budgets.Keys)
  }

  ghost predicate LeavesNoOverdraft(a: Attempted) {
    !a.Rejected? ==> NoOverdraft(a.books) && (a.Broken? && a.saved.Some? ==> NoOverdraft(a.saved.value))
  }

  lemma CompensateKeeps(b: Books, c: Context, charge: Charge, saved: Option<Books>)
    requires SharingOk(b, c.sharing) && (charge.lent.Some? ==> charge.lent.value.lender != charge.lent.value.borrower)
    requires saved == None || saved == Some(b)
    ensures Leaves(b, c, Compensate(b, c, charge, saved))
    ensures NoOverdraft(b) ==> LeavesNoOverdraft(Compensate(b, c, charge, saved))
  {
    hide Adjust, Release, SharingOk, NoOverdraft;
    var released := ReleaseIfAny(b, charge.lent);
    if charge.lent.Some? {
      ReleaseKeepsBooks(b, c.sharing, charge.lent.value);
    }
    AdjustKeepsSharing(released.books, c.sharing, c.request.sender, charge.reserved, c.request.today);
  }

  lemma ReconcileKeeps(b: Books, c: Context, route: Route, result: ProviderResult, charge: Charge)
    requires SharingOk(b, c.sharing) && result.Replied?
    requires charge.reserved == Estimate(route, c) && charge.paid == ActualCost(c, route, result)
    ensures Leaves(b, c, Reconcile(b, c, route, charge))
    ensures NoOverdraft(b) && WithinTokens(c, result) ==> LeavesNoOverdraft(Reconcile(b, c, route, charge))
  {
    hide Consume, Adjust, Release, SharingOk, NoOverdraft, CalculateCost, EstimateRequestCost;
    var i, o := result.inputTokens, result.outputTokens;
    if charge.reserved == 0 {
      ZeroEstimateIsFree(c.outside.profile, ProviderOf(route, c), c.request.inputChars, i, o);
    }
    if WithinTokens(c, result) {
      WithinEstimate(c.outside.profile, ProviderOf(route, c), c.request.inputChars, i, o);
    }
    AdjustKeepsSharing(b, c.sharing, c.request.sender, charge.reserved - charge.paid, c.request.today);
  }

  lemma ConcludeKeeps(b: Books, p: Prepared, c: Context, route: Route, result: ProviderResult)
    requires SharingOk(b, c.sharing) && p.Prepared? && p.reserved == Estimate(route, c)
    requires p.reservation.Some? ==> p.reservation.value.lender != p.reservation.value.borrower
    ensures Leaves(b, c, Conclude(b, p, c, route, result))
    ensures NoOverdraft(b) && WithinTokens(c, result) ==> LeavesNoOverdraft(Conclude(b, p, c, route, result))
  {
    hide Reconcile, Compensate, SharingOk, NoOverdraft, ActualCost, Estimate;
    match result
    case Replied(i, o, after) =>
      var charge := Charge(p.reserved, ActualCost(c, route, result), p.reservation);
      ReconcileKeeps(b, c, route, result, charge);
      var settled := Reconcile(b, c, route, charge);
      if settled.Delivered? {
        CompensateKeeps(settled.books, c, charge, None);
        CompensateKeeps(settled.books, c, charge, Some(settled.books));
      }
    case Failed =>
      CompensateKeeps(b, c, Charge(p.reserved, p.reserved, p.reservation), None);
    case Aborted =>
    case NotStarted =>
  }

  /** Whatever an attempt commits keeps the books; under hard enforcement and within the estimate, nobody is overdrawn. */
  lemma AttemptKeeps(b: Books, c: Context, route: Route, result: ProviderResult)
    requires SharingOk(b, c.sharing)
    ensures Leaves(b, c, Attempt(b, c, route, result))
    ensures NoOverdraft(b) && ReservesOk(c.sharing) && c.settings.hardEnforcement && WithinTokens(c, result) ==>
              LeavesNoOverdraft(Attempt(b, c, route, result))
  {
    hide Prepare, Consume, Conclude, SharingOk, NoOverdraft, WithinTokens;
    PrepareKeeps(b, c, route);
    var p := Prepare(b, c, route);
    if p.Prepared? {
      ConsumeKeepsSharing(p.books, c.sharing, c.request.sender, p.reserved, MayOverdraw(c, route), c.request.today);
      ConcludeKeeps(ChargeUp(p, c, route).books, p, c, route, result);
    }
  }

  /** Hard enforcement is on, and both replies stay within the estimate. */
  ghost predicate StrictRequest(c: Context) {
    c.settings.hardEnforcement && WithinTokens(c, c.outside.first) && WithinTokens(c, c.outside.second)
  }

  lemma {:induction false} ServeKeeps(start: Books, b: Books, c: Context, route: Route, first: Option<Charge>, saved: bool)
    requires SharingOk(b, c.sharing) && SharingOk(start, c.sharing)
    ensures var out := Serve(start, b, c, route, first, saved);
            && SharingOk(out.books, c.sharing) && out.attempts <= 2
            && (NoOverdraft(b) && NoOverdraft(start) && ReservesOk(c.sharing) && StrictRequest(c) ==>
                  NoOverdraft(out.books))
    decreases first.None?
  {
    hide Attempt, ResolveBorrowed, SharingOk, NoOverdraft, WithinTokens;
    AttemptKeeps(b, c, route, if first.Some? then c.outside.second else c.outside.first);
    var a := Attempt(b, c, route, if first.Some? then c.outside.second else c.outside.first);
    if a.Broken? && first.None? && !route.borrowed && c.settings.allowBorrowing {
      ResolveBorrowedKeeps(a.books, c, c.outside.retryAccounts);
      var (b'', next) := ResolveBorrowed(a.books, c, c.outside.retryAccounts);
      if next.Some? {
        ServeKeeps(if a.saved.Some? then a.saved.value else start, b'', c, next.value, Some(a.charge), a.saved.Some?);
      }
    }
  }

  lemma GenerateKeeps(b: Books, c: Context)
    requires SharingOk(b, c.sharing)
    ensures var out := Generate(b, c);
            && SharingOk(out.books, c.sharing) && out.attempts <= 2
            && (NoOverdraft(b) && ReservesOk(c.sharing) && StrictRequest(c) ==>
                  NoOverdraft(out.books))
  {
    hide Serve, ResolveExecution, SharingOk, NoOverdraft, StrictRequest;
    ResolveExecutionKeeps(b, c);
    var (b', route) := ResolveExecution(b, c);
    if route.Some? {
      ServeKeeps(b, b', c, route.value, None, false);
    }
  }

  // ---------------------------------------------------------------- the routes, known beforehand

  /** The route of the first attempt, and the one of the retry if the first fails, as the books stand before the request. */
  function FirstRoute(b: Books, c: Context): Option<Route> {
    ResolveExecution(b, c).1
  }

  function RetryRoute(b: Books, c: Context): Option<Route> {
    if FirstRoute(b, c).None? || FirstRoute(b, c).value.borrowed || !c.settings.allowBorrowing then None
    else ResolveBorrowed(b, c, c.outside.retryAccounts).1
  }

  /** The lenders found are the same whatever has happened to the borrower. */
  lemma {:induction false} ScanAgrees(rows: seq<Preference>, b: Books, t: Books, eligible: set<User>, today: Date)
    requires NoResetDue(b, today) && NoResetDue(t, today)
    requires forall p :: p in rows ==> p.user in b.budgets && p.user in t.budgets && b.budgets[p.user] == t.budgets[p.user]
    ensures Scan(rows, b, eligible, None, today).1 == Scan(rows, t, eligible, None, today).1
    ensures Scan(rows, b, eligible, None, today).0 == b && Scan(rows, t, eligible, None, today).0 == t
    decreases |rows|
  {
    hide ResetIfNeeded;
    if rows != [] {
      var n := |rows| - 1;
      assert rows[n] in rows;
      ScanAgrees(rows[..n], b, t, eligible, today);
      WithoutDueResetIsNoOp(b, rows[n].user, today);
      WithoutDueResetIsNoOp(t, rows[n].user, today);
    }
  }

  lemma {:induction false} QueriedAgree(rows: seq<Preference>, sharing: Sharing, b: Books, t: Books, borrower: User)
    requires b.budgets.Keys == t.budgets.Keys
    ensures QueriedRows(rows, sharing, b, borrower) == QueriedRows(rows, sharing, t, borrower)
    decreases |rows|
  {
    if rows != [] {
      QueriedAgree(rows[..|rows| - 1], sharing, b, t, borrower);
    }
  }

  lemma RetryAgrees(b: Books, t: Books, c: Context)
    requires NoResetDue(b, c.request.today) && NoResetDue(t, c.request.today) && t.budgets.Keys == b.budgets.Keys
    requires forall u :: u in b.budgets && u != c.request.sender ==> t.budgets[u] == b.budgets[u]
    ensures ResolveBorrowed(t, c, c.outside.retryAccounts).1 == ResolveBorrowed(b, c, c.outside.retryAccounts).1
  {
    hide Scan, QueriedRows;
    var rows := QueriedRows(c.sharing.rows, c.sharing, b, c.request.sender);
    QueriedAgree(c.sharing.rows, c.sharing, b, t, c.request.sender);
    QueriedRowsAre(c.sharing.rows, c.sharing, b, c.request.sender);
    ScanAgrees(rows, b, t, c.request.participants - {c.request.sender}, c.request.today);
  }

  // ---------------------------------------------------------------- the whole request

  /** The rows the last attempt starts from: those a failed first attempt leaves, if it is the second. */
  function RowsBefore(rows: Rows, sender: User, first: Option<Charge>): Rows
    requires first.Some? && 0 < first.value.reserved ==> sender in rows
  {
    if first.None? then rows else FailedRows(rows, sender, first.value)
  }

  /** The charges are those that routes and results determine, in this order. */
  ghost predicate ChargesFit(b: Books, c: Context, first: Option<Charge>, last: Charge) {
    && FirstRoute(b, c).Some?
    && (first.None? ==> ChargeFits(b, c, FirstRoute(b, c).value, c.outside.first, last))
    && (first.Some? ==>
          && RetryRoute(b, c).Some? && Breaks(c.outside.first)
          && ChargeFits(b, c, FirstRoute(b, c).value, c.outside.first, first.value) && first.value.lent.None?
          && ChargeFits(b, c, RetryRoute(b, c).value, c.outside.second, last))
  }

  function Results(c: Context, first: Option<Charge>): ProviderResult {
    if first.None? then c.outside.first else c.outside.second
  }

  /** What a finished request has done to the rows it started from. */
  ghost predicate RequestEffect(b: Books, c: Context, out: Served) {
    var s := c.request.sender;
    match out.ending
    case WasRejected(None) => out.books == b
    case WasRejected(Some(kept)) =>
      && FirstRoute(b, c).Some? && c.outside.first.Replied? && c.outside.first.after.BrokeAfterCommit?
      && ChargeFits(b, c, FirstRoute(b, c).value, c.outside.first, kept)
      && out.books.budgets == DeliveredRows(b.budgets, s, kept)
    case WasRefused => false
    case AllFailed(first, last) =>
      && ChargesFit(b, c, first, last) && Breaks(Results(c, first)) && (first.None? ==> RetryRoute(b, c).None?)
      && out.books.budgets == FailedRows(RowsBefore(b.budgets, s, first), s, last)
    case WasDelivered(first, last, answered) =>
      && ChargesFit(b, c, first, last) && Results(c, first).Replied?
      && (if answered then Results(c, first).after.Completed? else Results(c, first).after.AbortedAfterCommit?)
      && out.books.budgets == DeliveredRows(RowsBefore(b.budgets, s, first), s, last)
  }

  lemma FailedRowsKeepOthers(rows: Rows, sender: User, charge: Charge)
    requires 0 < charge.reserved ==> sender in rows
    ensures FailedRows(rows, sender, charge).Keys == rows.Keys
    ensures forall u :: u in rows && u != sender ==> FailedRows(rows, sender, charge)[u] == rows[u]
  {
  }

  /** The second attempt of a request, from the rows the first one left. */
  lemma RetryEffect(b: Books, start: Books, b1: Books, c: Context, first: Charge, saved: bool)
    requires SharingOk(b1, c.sharing) && NoResetDue(b1, c.request.today)
    requires FirstRoute(b, c).Some? && RetryRoute(b, c).Some? && Breaks(c.outside.first) && first.lent.None?
    requires ChargeFits(b, c, FirstRoute(b, c).value, c.outside.first, first)
    requires b1.budgets == FailedRows(b.budgets, c.request.sender, first)
    requires saved ==> c.outside.first.Replied? && c.outside.first.after.BrokeAfterCommit?
                       && start.budgets == DeliveredRows(b.budgets, c.request.sender, first)
    requires !saved ==> start == b
    ensures RequestEffect(b, c, Serve(start, b1, c, RetryRoute(b, c).value, Some(first), saved))
  {
    hide Attempt, SharingOk, ResolveExecution, ResolveBorrowed, DeliveredRows, FailedRows, Breaks, Estimate, PaidFor, RetryRoute,
         FirstRoute;
    var route := RetryRoute(b, c).value;
    AttemptEffect(b1, c, route, c.outside.second);
    FailedRowsKeepOthers(b.budgets, c.request.sender, first);
    var a := Attempt(b1, c, route, c.outside.second);
    if a.Delivered? || a.Broken? {
      assert ChargeFits(b, c, route, c.outside.second, a.charge);
    }
  }

  lemma FirstEffect(b: Books, b0: Books, c: Context)
    requires SharingOk(b0, c.sharing) && NoResetDue(b0, c.request.today) && b0 == b
    requires FirstRoute(b, c).Some?
    ensures RequestEffect(b, c, Serve(b, b0, c, FirstRoute(b, c).value, None, false))
  {
    hide Attempt, SharingOk, ResolveExecution, ResolveBorrowed, DeliveredRows, FailedRows, Breaks, Estimate, PaidFor, FirstRoute;
    var route := FirstRoute(b, c).value;
    AttemptEffect(b0, c, route, c.outside.first);
    AttemptKeeps(b0, c, route, c.outside.first);
    var a := Attempt(b0, c, route, c.outside.first);
    if a.Broken? {
      FailedRowsKeepOthers(b.budgets, c.request.sender, a.charge);
      RetryAgrees(b, a.books, c);
      if !route.borrowed && c.settings.allowBorrowing {
        ResolveBorrowedKeeps(a.books, c, c.outside.retryAccounts);
        if RetryRoute(b, c).Some? {
          hide Serve, RequestEffect, ChargeFits;
          assert a.charge.lent.None? by { NotLent(b, c, route, c.outside.first, a.charge); }
          RetryEffect(b, if a.saved.Some? then a.saved.value else b, a.books, c, a.charge, a.saved.Some?);
        }
      }
    }
  }

  lemma NotLent(b: Books, c: Context, route: Route, result: ProviderResult, charge: Charge)
    requires ChargeFits(b, c, route, result, charge) && !route.borrowed
    ensures charge.lent.None?
  {
  }

  /**
   The whole-request law, on a day without a reset: at most two attempts, on routes known beforehand; a rejection leaves
   no trace of what was not committed; a delivered request charges exactly the actual cost, the lender of a borrowed one
   being down by the estimate; a failed one touches no row but the sender's, which ends as `Refunded` says.
   */
  lemma WholeRequest(b: Books, c: Context)
    requires SharingOk(b, c.sharing) && NoResetDue(b, c.request.today)
    ensures RequestEffect(b, c, Generate(b, c)) && Generate(b, c).attempts <= 2
  {
    hide Serve, SharingOk, RequestEffect, ResolveExecution;
    GenerateKeeps(b, c);
    ResolveExecutionKeeps(b, c);
    var (b', route) := ResolveExecution(b, c);
    if route.Some? {
      FirstEffect(b, b', c);
    } else {
      RejectionLeavesNoTrace(b, c);
    }
  }

  lemma RejectionLeavesNoTrace(b: Books, c: Context)
    ensures RequestEffect(b, c, Served(b, WasRejected(None), 0))
  {
  }

  // ---------------------------------------------------------------- when a failure restores everything

  /** What a failed attempt adds to its sender: all of it is refunded, though only the cost had been paid by then. */
  function Surplus(c: Context, route: Route, result: ProviderResult): int {
    Estimate(route, c) - PaidFor(c, route, result)
  }

  /** The last attempt of a request in which every attempt fails, and what the one before it added. */
  function LastRoute(b: Books, c: Context): Route
    requires FirstRoute(b, c).Some?
  {
    if RetryRoute(b, c).Some? then RetryRoute(b, c).value else FirstRoute(b, c).value
  }

  function LastResult(b: Books, c: Context): ProviderResult {
    if RetryRoute(b, c).Some? then c.outside.second else c.outside.first
  }

  function EarlierSurplus(b: Books, c: Context): int
    requires FirstRoute(b, c).Some?
  {
    if RetryRoute(b, c).Some? then Surplus(c, FirstRoute(b, c).value, c.outside.first) else 0
  }

  /**
   The surpluses cancel, the first one does not eat into the use recorded before it, and a borrower can pay the last
   attempt's cost from its own balance. It reads the books before the request and the costs of the replies, nothing else.
   */
  ghost predicate Restorable(b: Books, c: Context)
    requires FirstRoute(b, c).Some?
  {
    var s, route, earlier := c.request.sender, LastRoute(b, c), EarlierSurplus(b, c);
    && earlier + Surplus(c, route, LastResult(b, c)) == 0
    && (s in b.budgets ==> earlier <= b.budgets[s].used)
    && (route.borrowed && 0 < Estimate(route, c) && s in b.budgets ==>
          b.budgets[s].remaining + earlier >= PaidFor(c, route, LastResult(b, c)))
  }

  lemma RefundedIff(row: Budget, first: Option<Charge>, last: Charge)
    requires 0 <= row.used
    requires first.Some? ==> first.value.lent.None?
    ensures var before := if first.None? then row else Refunded(row, first.value);
            var earlier := if first.None? then 0 else first.value.reserved - first.value.paid;
            Refunded(before, last) == row <==>
            && earlier + last.reserved - last.paid == 0 && earlier <= row.used
            && (last.lent.Some? ==> row.remaining + earlier >= last.paid)
  {
  }

  /** A failed request restores every row exactly when the condition that can be read off beforehand holds. */
  lemma FailureRestoresIff(b: Books, c: Context)
    requires SharingOk(b, c.sharing) && NoResetDue(b, c.request.today) && Generate(b, c).ending.AllFailed?
    ensures FirstRoute(b, c).Some?
    ensures Generate(b, c).books.budgets == b.budgets <==> Restorable(b, c)
  {
    hide Generate, FirstRoute, RetryRoute, Estimate, PaidFor, Refunded;
    BooksRows(b, c.sharing);
    hide SharingOk;
    WholeRequest(b, c);
    var out := Generate(b, c);
    var s, first, last := c.request.sender, out.ending.first, out.ending.last;
    assert EarlierSurplus(b, c) == if first.None? then 0 else first.value.reserved - first.value.paid;
    if s in b.budgets {
      assert NoneNegative(b.budgets[s]);
      RefundedIff(b.budgets[s], first, last);
      RowsAfterFailures(b.budgets, s, first, last);
    }
  }

  /** The sender's row decides whether the rows are back; an attempt on a free provider refunds nothing. */
  lemma RowsAfterFailures(rows: Rows, s: User, first: Option<Charge>, last: Charge)
    requires s in rows && 0 <= rows[s].used
    requires first.Some? ==> first.value.lent.None? && (first.value.reserved == 0 ==> first.value.paid == 0)
    requires last.reserved == 0 ==> last.paid == 0 && last.lent.None?
    ensures var before := if first.None? then rows[s] else Refunded(rows[s], first.value);
            FailedRows(RowsBefore(rows, s, first), s, last) == rows[s := Refunded(before, last)]
  {
  }

  /** When nothing fails late, all is restored unless the last route borrows and the sender had less than the estimate. */
  lemma EarlyFailureRestoresIff(b: Books, c: Context)
    requires SharingOk(b, c.sharing) && NoResetDue(b, c.request.today) && Generate(b, c).ending.AllFailed?
    requires !c.outside.first.Replied? && !c.outside.second.Replied?
    ensures FirstRoute(b, c).Some?
    ensures var route := LastRoute(b, c);
            var costs := route.borrowed && MultiplierFor(c.outside.profile, ProviderOf(route, c)) != 0;
            Generate(b, c).books.budgets == b.budgets <==>
            !costs || c.request.sender !in b.budgets
            || b.budgets[c.request.sender].remaining >= FullEstimate(c.request.inputChars)
  {
    hide Generate, FirstRoute, RetryRoute, MultiplierFor, EstimateRequestCost, FullEstimate;
    BooksRows(b, c.sharing);
    hide SharingOk;
    FailureRestoresIff(b, c);
    var route := LastRoute(b, c);
    EstimateIsFull(c.outside.profile, ProviderOf(route, c), c.request.inputChars);
    if c.request.sender in b.budgets {
      assert NoneNegative(b.budgets[c.request.sender]);
    }
  }

  // ---------------------------------------------------------------- the workspace total

  function TotalRemaining(rows: Rows, users: seq<User>): int
    decreases |users|
  {
    if users == [] then 0
    else
      var last := users[|users| - 1];
      TotalRemaining(rows, users[..|users| - 1]) + (if last in rows then rows[last].remaining else 0)
  }

  lemma {:induction false} TotalAfterUpdate(rows: Rows, users: seq<User>, u: User, row: Budget)
    requires Distinct(users) && u in rows
    ensures TotalRemaining(rows[u := row], users) ==
            TotalRemaining(rows, users) + (if u in users then row.remaining - rows[u].remaining else 0)
    decreases |users|
  {
    if users != [] {
      var n := |users| - 1;
      TotalAfterUpdate(rows, users[..n], u, row);
      assert users == users[..n] + [users[n]];
      if users[n] == u {
        assert u !in users[..n];
      }
    }
  }

  function SurplusOf(charge: Option<Charge>): int {
    if charge.None? then 0 else charge.value.reserved - charge.value.paid
  }

  /** What a borrower is short of the cost when its release stops at zero. */
  function ShortfallOf(b: Books, sender: User, first: Option<Charge>, last: Charge): nat {
    if last.lent.Some? && sender in b.budgets
    then AtLeastZero(last.paid - (b.budgets[sender].remaining + SurplusOf(first))) else 0
  }

  /** What a request adds to the workspace's credits. */
  function NetGain(b: Books, sender: User, ending: Ending): int {
    match ending
    case WasRejected(None) => 0
    case WasRejected(Some(kept)) => 0 - kept.paid
    case WasRefused => 0
    case WasDelivered(first, last, _) => SurplusOf(first) - last.paid
    case AllFailed(first, last) => SurplusOf(first) + SurplusOf(Some(last)) + ShortfallOf(b, sender, first, last)
  }

  /**
   Conservation: a delivered request takes exactly its actual cost out of the workspace, whoever lent; a rejected one
   takes what it had committed; each attempt that fails after a reply adds what the estimate exceeded the cost by; and a
   failed borrowed one adds what its borrower was short of the cost.
   */
  lemma WorkspaceTotal(b: Books, c: Context, users: seq<User>)
    requires SharingOk(b, c.sharing) && NoResetDue(b, c.request.today)
    requires Distinct(users) && (forall u :: u in users <==> u in b.budgets)
    ensures var out := Generate(b, c);
            TotalRemaining(out.books.budgets, users)
            == TotalRemaining(b.budgets, users) + NetGain(b, c.request.sender, out.ending)
  {
    hide Generate, SharingOk, TotalRemaining, FirstRoute, RetryRoute, Estimate, PaidFor, DeliveredRows, FailedRows, Breaks;
    WholeRequest(b, c);
    var s := c.request.sender;
    match Generate(b, c).ending
    case WasRejected(None) =>
    case WasRejected(Some(kept)) =>
      DeliveredTotal(b.budgets, users, s, kept);
    case WasRefused =>
    case AllFailed(first, last) =>
      BeforeTotal(b.budgets, users, s, first);
      FailedTotal(RowsBefore(b.budgets, s, first), users, s, last);
    case WasDelivered(first, last, _) =>
      BeforeTotal(b.budgets, users, s, first);
      DeliveredTotal(RowsBefore(b.budgets, s, first), users, s, last);
  }

  lemma BeforeTotal(rows: Rows, users: seq<User>, s: User, first: Option<Charge>)
    requires Distinct(users) && (forall u :: u in users <==> u in rows)
    requires first.Some? ==> first.value.lent.None? && (0 < first.value.reserved ==> s in rows)
                             && (first.value.reserved == 0 ==> first.value.paid == 0)
    ensures RowsBefore(rows, s, first).Keys == rows.Keys
    ensures forall u :: u in users <==> u in RowsBefore(rows, s, first)
    ensures TotalRemaining(RowsBefore(rows, s, first), users) == TotalRemaining(rows, users) + SurplusOf(first)
    ensures s in rows ==> RowsBefore(rows, s, first)[s].remaining == rows[s].remaining + SurplusOf(first)
  {
    hide TotalRemaining;
    if first.Some? && 0 < first.value.reserved {
      TotalAfterUpdate(rows, users, s, Refunded(rows[s], first.value));
    }
  }

  lemma FailedTotal(rows: Rows, users: seq<User>, s: User, last: Charge)
    requires Distinct(users) && (forall u :: u in users <==> u in rows)
    requires 0 < last.reserved ==> s in rows
    requires last.reserved == 0 ==> last.paid == 0 && last.lent.None?
    ensures TotalRemaining(FailedRows(rows, s, last), users)
            == TotalRemaining(rows, users) + SurplusOf(Some(last))
               + (if last.lent.Some? then AtLeastZero(last.paid - rows[s].remaining) else 0)
  {
    hide TotalRemaining;
    if 0 < last.reserved {
      TotalAfterUpdate(rows, users, s, Refunded(rows[s], last));
    }
  }

  lemma DeliveredTotal(rows: Rows, users: seq<User>, s: User, charge: Charge)
    requires Distinct(users) && (forall u :: u in users <==> u in rows)
    requires 0 < charge.reserved ==> s in rows
    requires charge.reserved == 0 ==> charge.paid == 0
    requires charge.lent.Some? ==> charge.lent.value.lender in rows && s in rows && charge.lent.value.lender != s
    ensures TotalRemaining(DeliveredRows(rows, s, charge), users) == TotalRemaining(rows, users) - charge.paid
  {
    hide TotalRemaining;
    if charge.reserved == 0 {
    } else if charge.lent.None? {
      TotalAfterUpdate(rows, users, s, Charged(rows[s], charge.paid));
    } else {
      var r := charge.lent.value;
      var lent := rows[r.lender := Lends(rows[r.lender], r.amount)];
      TotalAfterUpdate(rows, users, r.lender, Lends(rows[r.lender], r.amount));
      TotalAfterUpdate(lent, users, s, Charged(Borrows(rows[s], r.amount), charge.paid));
    }
  }

  // ---------------------------------------------------------------- every run

  datatype Op =
    | Open(user: User, limit: int, today: Date)
    | Refresh(user: User, today: Date)
    | Reallocate(user: User, today: Date)
    | Spend(user: User, amount: int, allowInsufficient: bool, today: Date)
    | Correct(user: User, amount: int, today: Date)
    | Borrowing(user: User, amount: int, eligible: set<User>, today: Date)
    | Returning(reservation: Reservation)
    | Ask(context: Context)

  function Apply(b: Books, sharing: Sharing, op: Op): Books {
    match op
    case Open(u, limit, today) => CreateBudget(b, u, limit, today)
    case Refresh(u, today) => ResetIfNeeded(b, u, today).books
    case Reallocate(u, today) => Allocate(b, u, today).books
    case Spend(u, amount, allow, today) => Consume(b, u, amount, allow, today).books
    case Correct(u, amount, today) => Adjust(b, u, amount, today).books
    case Borrowing(u, amount, eligible, today) => Reserve(b, sharing, u, amount, eligible, today).books
    case Returning(r) => Release(b, r).books
    case Ask(c) => Generate(b, c.(sharing := sharing)).books
  }

  function ApplyAll(b: Books, sharing: Sharing, ops: seq<Op>): Books
    decreases |ops|
  {
    if ops == [] then b else ApplyAll(Apply(b, sharing, ops[0]), sharing, ops[1..])
  }

  const EMPTY_BOOKS := Books(map[], [])

  /** Limits are not negative, and nobody returns credits to themselves. */
  ghost predicate Sensible(op: Op) {
    match op
    case Open(_, limit, _) => 0 <= limit
    case Returning(r) => r.lender != r.borrower
    case _ => true
  }

  /** Operations under hard enforcement: nothing is spent beyond the balance or taken away by hand. */
  ghost predicate HardBudget(op: Op) {
    match op
    case Open(_, limit, _) => 0 <= limit
    case Refresh(_, _) => true
    case Reallocate(_, _) => true
    case Spend(_, _, allowInsufficient, _) => !allowInsufficient
    case Correct(_, amount, _) => 0 <= amount
    case Borrowing(_, _, _, _) => true
    case Returning(r) => r.lender != r.borrower
    case Ask(c) => StrictRequest(c)
  }

  lemma AllocateKeepsLoans(b: Books, sharing: Sharing, u: User, today: Date)
    requires LoansWithinLimits(b, sharing)
    ensures LoansWithinLimits(Allocate(b, u, today).books, sharing)
  {
    forall v | v in b.budgets && 0 < b.budgets[v].lent ensures WithinLimit(b.budgets[v], v, sharing) {
    }
  }

  lemma ApplyKeeps(b: Books, sharing: Sharing, op: Op)
    requires SharingOk(b, sharing) && Sensible(op)
    ensures SharingOk(Apply(b, sharing, op), sharing)
    ensures NoOverdraft(b) && ReservesOk(sharing) && HardBudget(op) ==> NoOverdraft(Apply(b, sharing, op))
  {
    hide Generate, Reserve, Release, Consume, Adjust, ResetIfNeeded, Allocate, LedgerAgrees, RowsOk;
    match op
    case Open(u, limit, today) =>
      CreateKeepsBooks(b, u, limit, today);
      LoansAfterOpening(b, sharing, u, limit, today);
    case Refresh(u, today) =>
      ResetKeepsBooks(b, u, today);
      ResetKeepsLoans(b, sharing, u, today);
    case Reallocate(u, today) =>
      AllocateKeepsBooks(b, u, today);
      AllocateKeepsLoans(b, sharing, u, today);
    case Spend(u, amount, allow, today) =>
      ConsumeKeepsSharing(b, sharing, u, amount, allow, today);
    case Correct(u, amount, today) =>
      AdjustKeepsSharing(b, sharing, u, amount, today);
    case Borrowing(u, amount, eligible, today) =>
      ReserveMovesCredits(b, sharing, u, amount, eligible, today);
    case Returning(r) =>
      ReleaseKeepsBooks(b, sharing, r);
    case Ask(c) =>
      GenerateKeeps(b, c.(sharing := sharing));
  }

  lemma LoansAfterOpening(b: Books, sharing: Sharing, u: User, limit: int, today: Date)
    requires LoansWithinLimits(b, sharing)
    ensures LoansWithinLimits(CreateBudget(b, u, limit, today), sharing)
  {
    forall v | v in b.budgets && 0 < b.budgets[v].lent ensures WithinLimit(b.budgets[v], v, sharing) {
    }
  }

  lemma {:induction false} RunsKeep(b: Books, sharing: Sharing, ops: seq<Op>)
    requires SharingOk(b, sharing) && forall i :: 0 <= i < |ops| ==> Sensible(ops[i])
    ensures SharingOk(ApplyAll(b, sharing, ops), sharing)
    ensures NoOverdraft(b) && ReservesOk(sharing) && (forall i :: 0 <= i < |ops| ==> HardBudget(ops[i])) ==>
              NoOverdraft(ApplyAll(b, sharing, ops))
    decreases |ops|
  {
    hide Apply, SharingOk, Sensible, HardBudget, NoOverdraft;
    if ops != [] {
      ApplyKeeps(b, sharing, ops[0]);
      assert forall i :: 0 <= i < |ops[1..]| ==> ops[1..][i] == ops[i + 1];
      RunsKeep(Apply(b, sharing, ops[0]), sharing, ops[1..]);
    }
  }

  /**
   Ledger refinement: after any run, each row's remaining credits are the replay of the ledger in which a return of
   borrowed credits stops at zero; they are at least the plain replay, and equal to it exactly when no return has
   asked for more than there was since the member's last allocation. Loans stay within their limits throughout.
   */
  lemma LedgerRefinement(sharing: Sharing, ops: seq<Op>, u: User)
    requires OneRowPerUser(sharing) && forall i :: 0 <= i < |ops| ==> Sensible(ops[i])
    requires u in ApplyAll(EMPTY_BOOKS, sharing, ops).budgets
    ensures var b := ApplyAll(EMPTY_BOOKS, sharing, ops);
            var row := b.budgets[u];
            && row.remaining == Replay(b.ledger, u)
            && row.remaining >= PlainReplay(b.ledger, u)
            && (row.remaining == PlainReplay(b.ledger, u) <==> !FloorHit(b.ledger, u))
            && 0 <= row.lent && (0 < row.lent ==> WithinLimit(row, u, sharing))
  {
    hide ApplyAll, Replay, PlainReplay, FloorHit;
    RunsKeep(EMPTY_BOOKS, sharing, ops);
    var b := ApplyAll(EMPTY_BOOKS, sharing, ops);
    assert NoneNegative(b.budgets[u]);
    PlainReplayGap(b.ledger, u);
  }

  /**
   Hard budget: in any run of operations under hard enforcement, late failures included, whose replies stay within their
   estimates, nobody's balance is negative.
   */
  lemma HardBudgetHolds(sharing: Sharing, ops: seq<Op>)
    requires OneRowPerUser(sharing) && ReservesOk(sharing) && forall i :: 0 <= i < |ops| ==> HardBudget(ops[i])
    ensures NoOverdraft(ApplyAll(EMPTY_BOOKS, sharing, ops))
  {
    assert forall i :: 0 <= i < |ops| ==> HardBudget(ops[i]) ==> Sensible(ops[i]);
    RunsKeep(EMPTY_BOOKS, sharing, ops);
  }
}
