/** Two requests after which a sender has more credits than before, from books opened that day. */
module GatewayRuns {
  import opened Wrappers
  import opened StableSort
  import opened CreditLedger
  import opened CreditPolicy
  import opened BudgetService
  import opened LenderStrategy
  import opened BorrowEngine
  import opened Gateway
  import opened GatewayTheorems

  const TODAY: Date := RawDate(2024, 1, 15)
  const SENDER: User := 1
  const LENDER: User := 2
  const PREFERENCE := Preference(LENDER, true, 1000, 0, 0)
  const SHARING := Sharing([PREFERENCE], {SENDER, LENDER})

  /** The estimate of a request with an empty prompt, in cents. */
  const ESTIMATE: nat := 103

  function Opened(senderLimit: int): Books {
    ApplyAll(EMPTY_BOOKS, SHARING, [Open(SENDER, senderLimit, TODAY), Open(LENDER, 1000, TODAY)])
  }

  function Asked(allowBorrowing: bool, accounts: map<User, Account>, first: ProviderResult): Context {
    Context(Request(SENDER, {SENDER, LENDER}, 0, TODAY), Settings(allowBorrowing, true, true),
            Outside(Demo, "openai", accounts, map[], first, Failed), SHARING)
  }

  /** The sender has no account and no credits; the provider called on the lender's account fails. */
  const BORROWING := Asked(true, map[LENDER := Account(LENDER, "openai")], Failed)

  /** The sender's own provider answers, and something raises between the settlement and the commit. */
  const LATE := Asked(false, map[SENDER := Account(SENDER, "openai")], Replied(0, 0, BrokeBeforeCommit))

  function NewRow(limit: int): Budget {
    Budget(limit, 0, 0, 0, limit, RawDate(2024, 2, 1))
  }

  lemma OpenedBooks(limit: int)
    ensures Opened(limit).budgets == map[SENDER := NewRow(limit), LENDER := NewRow(1000)]
    ensures Opened(limit).ledger == [AllocationTx(SENDER, limit), AllocationTx(LENDER, 1000)]
    ensures NoResetDue(Opened(limit), TODAY)
  {
    var first, second := Open(SENDER, limit, TODAY), Open(LENDER, 1000, TODAY);
    assert [first, second][1..] == [second];
    assert [second][1..] == [];
    assert ApplyAll(EMPTY_BOOKS, SHARING, [first, second])
           == ApplyAll(Apply(EMPTY_BOOKS, SHARING, first), SHARING, [second]);
    assert ApplyAll(Apply(EMPTY_BOOKS, SHARING, first), SHARING, [second])
           == Apply(Apply(EMPTY_BOOKS, SHARING, first), SHARING, second);
  }

  lemma OpenedIsSound(limit: int)
    requires 0 <= limit
    ensures SharingOk(Opened(limit), SHARING)
  {
    hide SharingOk, ApplyAll;
    assert SharingOk(EMPTY_BOOKS, SHARING) by { EmptyIsSound(); }
    RunsKeep(EMPTY_BOOKS, SHARING, [Open(SENDER, limit, TODAY), Open(LENDER, 1000, TODAY)]);
  }

  lemma EmptyIsSound()
    ensures SharingOk(EMPTY_BOOKS, SHARING)
  {
  }

  lemma EstimateIs(route: Route, c: Context)
    requires c.outside.profile == Demo && c.request.inputChars == 0
    ensures Estimate(route, c) == ESTIMATE
  {
  }

  lemma OneRowQueried(b: Books)
    requires b.budgets.Keys == {SENDER, LENDER}
    ensures QueriedRows([PREFERENCE], SHARING, b, SENDER) == [PREFERENCE]
  {
    var rows := [PREFERENCE];
    assert rows[..|rows| - 1] == [];
    assert QueriedRows([], SHARING, b, SENDER) == [];
    assert [] + [PREFERENCE] == rows;
  }

  lemma OneRowScanned(p: Preference, b: Books, eligible: set<User>, amount: Option<int>, today: Date)
    requires p.user in b.budgets && p.user in eligible && NoResetDue(b, today)
    requires Accepts(Candidate(p.user, p, b.budgets[p.user]), amount)
    ensures Scan([p], b, eligible, amount, today) == (b, [Candidate(p.user, p, b.budgets[p.user])])
  {
    hide ResetIfNeeded, Accepts;
    var rows, candidate := [p], Candidate(p.user, p, b.budgets[p.user]);
    assert rows[..|rows| - 1] == [];
    WithoutDueResetIsNoOp(b, p.user, today);
    assert Scan([], b, eligible, amount, today) == (b, []);
    assert [] + [candidate] == [candidate];
  }

  /** The one lender is found, selected and able to lend, whichever way the search is made. */
  lemma LenderIsFound(b: Books, eligible: set<User>, amount: Option<int>)
    requires b.budgets == map[SENDER := NewRow(0), LENDER := NewRow(1000)] && NoResetDue(b, TODAY)
    requires LENDER in eligible && (amount.Some? ==> amount.value == ESTIMATE)
    ensures FindLenders(b, SHARING, SENDER, eligible, amount, TODAY) == (b, [Candidate(LENDER, PREFERENCE, NewRow(1000))])
  {
    hide QueriedRows, Scan;
    OneRowQueried(b);
    OneRowScanned(PREFERENCE, b, eligible, amount, TODAY);
  }

  lemma OneCandidate(c: Candidate, amount: int)
    requires Capacity(c) >= amount
    ensures OrderLenders([c]) == [c] && SelectLender([c], amount) == Some(c)
  {
    SortedIsFixed([c], LENDER_KEY);
    assert [c][..0] == [];
    assert CanCover([c], amount) == [c];
  }

  lemma BorrowedRouteIs(b: Books)
    requires b.budgets == map[SENDER := NewRow(0), LENDER := NewRow(1000)] && NoResetDue(b, TODAY)
    ensures ResolveExecution(b, BORROWING) == (b, Some(Route(Some(Account(LENDER, "openai")), true)))
  {
    hide FindLenders, OrderLenders;
    var candidate := Candidate(LENDER, PREFERENCE, NewRow(1000));
    var others := {SENDER, LENDER} - {SENDER};
    LenderIsFound(b, others, None);
    OneCandidate(candidate, 1);
    assert FirstRouted([candidate], map[LENDER := Account(LENDER, "openai")]) == Some(Account(LENDER, "openai"));
  }

  lemma LenderReserves(b: Books)
    requires b.budgets == map[SENDER := NewRow(0), LENDER := NewRow(1000)] && NoResetDue(b, TODAY)
    ensures var r := Reservation(SENDER, LENDER, ESTIMATE);
            Reserve(b, SHARING, SENDER, ESTIMATE, {SENDER, LENDER}, TODAY) == Reserved(Transfer(b, r), None, Some(r))
  {
    hide FindLenders, SelectLender, ResetIfNeeded;
    var candidate := Candidate(LENDER, PREFERENCE, NewRow(1000));
    LenderIsFound(b, {SENDER, LENDER}, Some(ESTIMATE));
    OneCandidate(candidate, ESTIMATE);
    WithoutDueResetIsNoOp(b, LENDER, TODAY);
    WithoutDueResetIsNoOp(b, SENDER, TODAY);
  }

  /** The ledger of the failed borrowed attempt: lend, borrow, charge, return, refund. */
  function Entries(): Ledger {
    var r := Reservation(SENDER, LENDER, ESTIMATE);
    [LendTx(r), BorrowTx(r), Tx(Usage, Some(SENDER), None, ESTIMATE), ReturnTx(r), AdjustmentTx(SENDER, ESTIMATE)]
  }

  lemma BorrowedIsPrepared(b: Books, route: Route)
    requires b.budgets == map[SENDER := NewRow(0), LENDER := NewRow(1000)] && NoResetDue(b, TODAY)
    requires route == Route(Some(Account(LENDER, "openai")), true)
    ensures var r := Reservation(SENDER, LENDER, ESTIMATE);
            Prepare(b, BORROWING, route) == Prepared(Transfer(b, r), ESTIMATE, Some(r))
  {
    hide Reserve, Estimate, Transfer;
    EstimateIs(route, BORROWING);
    LenderReserves(b);
  }

  function ChargedBooks(b: Books): Books
    requires SENDER in b.budgets && LENDER in b.budgets
  {
    var lent := Transfer(b, Reservation(SENDER, LENDER, ESTIMATE));
    Posted(lent, SENDER, Charged(lent.budgets[SENDER], ESTIMATE), Tx(Usage, Some(SENDER), None, ESTIMATE))
  }

  lemma BorrowedIsCharged(b: Books)
    requires b.budgets == map[SENDER := NewRow(0), LENDER := NewRow(1000)] && NoResetDue(b, TODAY)
    ensures Consume(Transfer(b, Reservation(SENDER, LENDER, ESTIMATE)), SENDER, ESTIMATE, false, TODAY)
            == Outcome(ChargedBooks(b), None)
  {
    hide ResetIfNeeded;
    var lent := Transfer(b, Reservation(SENDER, LENDER, ESTIMATE));
    WithoutDueResetIsNoOp(lent, SENDER, TODAY);
  }

  lemma CompensationEntries(b: Books, c: Context, charge: Charge)
    requires NoResetDue(b, c.request.today) && charge.lent.Some? && 0 < charge.reserved == charge.lent.value.amount
    requires c.request.sender in b.budgets
    ensures var a := Compensate(b, c, charge, None);
            a.Broken? ==> a.books.ledger == b.ledger + [ReturnTx(charge.lent.value), AdjustmentTx(c.request.sender, charge.reserved)]
  {
    hide ResetIfNeeded;
    var released := Release(b, charge.lent.value);
    if released.failure.None? {
      assert NoResetDue(released.books, c.request.today);
      WithoutDueResetIsNoOp(released.books, c.request.sender, c.request.today);
    }
  }

  lemma ChargedAs(b: Books)
    requires SENDER in b.budgets && LENDER in b.budgets && NoResetDue(b, TODAY)
    ensures ChargedBooks(b).budgets
            == DeliveredRows(b.budgets, SENDER, Charge(ESTIMATE, ESTIMATE, Some(Reservation(SENDER, LENDER, ESTIMATE))))
    ensures ChargedBooks(b).ledger == b.ledger + Entries()[..3]
    ensures NoResetDue(ChargedBooks(b), TODAY) && ChargedBooks(b).budgets.Keys == b.budgets.Keys
  {
    hide OnOrBefore;
  }

  lemma BorrowedIsCompensated(b: Books)
    requires b.budgets == map[SENDER := NewRow(0), LENDER := NewRow(1000)] && NoResetDue(b, TODAY)
    ensures var a := Compensate(ChargedBooks(b), BORROWING, Charge(ESTIMATE, ESTIMATE, Some(Reservation(SENDER, LENDER, ESTIMATE))), None);
            && a.Broken? && a.saved == None && a.books.ledger == b.ledger + Entries()
            && a.books.budgets.Keys == b.budgets.Keys && a.books.budgets[LENDER] == b.budgets[LENDER]
            && a.books.budgets[SENDER] == NewRow(0).(remaining := ESTIMATE)
  {
    hide Compensate, DeliveredRows, ChargedBooks, NoResetDue;
    var charged := ChargedBooks(b);
    var charge := Charge(ESTIMATE, ESTIMATE, Some(Reservation(SENDER, LENDER, ESTIMATE)));
    ChargedAs(b);
    CompensationEntries(charged, BORROWING, charge);
    CompensateEffect(b, charged, BORROWING, charge, None);
    assert Entries() == Entries()[..3] + [ReturnTx(charge.lent.value), AdjustmentTx(SENDER, ESTIMATE)];
  }

  lemma BorrowedAttemptFails(b: Books, route: Route)
    requires b.budgets == map[SENDER := NewRow(0), LENDER := NewRow(1000)] && NoResetDue(b, TODAY)
    requires route == Route(Some(Account(LENDER, "openai")), true)
    ensures var a := Attempt(b, BORROWING, route, Failed);
            && a.Broken? && a.saved == None && a.books.ledger == b.ledger + Entries()
            && a.books.budgets.Keys == b.budgets.Keys && a.books.budgets[LENDER] == b.budgets[LENDER]
            && a.books.budgets[SENDER] == NewRow(0).(remaining := ESTIMATE)
  {
    hide Prepare, Consume, Compensate, Transfer, ChargedBooks;
    BorrowedIsPrepared(b, route);
    BorrowedIsCharged(b);
    BorrowedIsCompensated(b);
  }

  lemma PlainAppend(l: Ledger, tx: Tx, u: User)
    ensures PlainReplay(l + [tx], u) == Plain(PlainReplay(l, u), tx, u)
  {
    assert (l + [tx])[..|l|] == l;
  }

  lemma EntriesReplay(l: Ledger)
    ensures PlainReplay(l + Entries(), SENDER) == PlainReplay(l, SENDER)
  {
    hide PlainReplay;
    var e := Entries();
    var l1 := l + [e[0]];
    var l2 := l1 + [e[1]];
    var l3 := l2 + [e[2]];
    var l4 := l3 + [e[3]];
    PlainAppend(l, e[0], SENDER);
    PlainAppend(l1, e[1], SENDER);
    PlainAppend(l2, e[2], SENDER);
    PlainAppend(l3, e[3], SENDER);
    PlainAppend(l4, e[4], SENDER);
    assert l + e == l4 + [e[4]];
  }

  /**
   A sender without credits borrows, the provider fails, and the sender keeps the whole estimate: the rows are not
   restored, and its row exceeds the plain replay of the ledger, whose floor has been hit.
   */
  lemma FailedBorrowLeavesCredits()
    ensures var b := Opened(0);
            var out := Generate(b, BORROWING);
            && b.budgets.Keys == out.books.budgets.Keys == {SENDER, LENDER}
            && out.ending.AllFailed? && FirstRoute(b, BORROWING).Some? && !Restorable(b, BORROWING)
            && b.budgets[SENDER].remaining == 0 && out.books.budgets[SENDER].remaining == ESTIMATE
            && out.books.budgets[LENDER] == b.budgets[LENDER]
            && PlainReplay(out.books.ledger, SENDER) == 0 && FloorHit(out.books.ledger, SENDER)
  {
    hide ResolveExecution, Attempt, Opened, PlainReplay, Replay, FloorHit, Restorable, SharingOk, FirstRoute;
    var b := Opened(0);
    OpenedBooks(0);
    OpenedIsSound(0);
    BorrowedRouteIs(b);
    var route := Route(Some(Account(LENDER, "openai")), true);
    BorrowedAttemptFails(b, route);
    var out := Generate(b, BORROWING);
    assert out.books == Attempt(b, BORROWING, route, Failed).books;
    FailureRestoresIff(b, BORROWING);
    assert out.books.budgets[SENDER] != b.budgets[SENDER];
    EntriesReplay(b.ledger);
    OpeningReplay();
    GenerateKeeps(b, BORROWING);
    LedgerIsRow(out.books, SHARING, SENDER);
    PlainReplayGap(out.books.ledger, SENDER);
  }

  lemma OpeningReplay()
    ensures PlainReplay([AllocationTx(SENDER, 0), AllocationTx(LENDER, 1000)], SENDER) == 0
  {
    hide PlainReplay;
    PlainAppend([], AllocationTx(SENDER, 0), SENDER);
    PlainAppend([AllocationTx(SENDER, 0)], AllocationTx(LENDER, 1000), SENDER);
    assert [] + [AllocationTx(SENDER, 0)] == [AllocationTx(SENDER, 0)];
    assert [AllocationTx(SENDER, 0)] + [AllocationTx(LENDER, 1000)] == [AllocationTx(SENDER, 0), AllocationTx(LENDER, 1000)];
  }

  lemma LedgerIsRow(b: Books, sharing: Sharing, u: User)
    requires SharingOk(b, sharing) && u in b.budgets
    ensures b.budgets[u].remaining == Replay(b.ledger, u)
  {
  }

  /** A request on the sender's own provider that fails after its settlement leaves the sender with more than it had. */
  lemma LateFailureAddsCredits()
    ensures var b := Opened(200);
            var out := Generate(b, LATE);
            && b.budgets.Keys == out.books.budgets.Keys == {SENDER, LENDER}
            && out.ending.AllFailed? && FirstRoute(b, LATE).Some? && !Restorable(b, LATE)
            && b.budgets[SENDER].remaining == 200 && out.books.budgets[SENDER].remaining == 200 + ESTIMATE
  {
    hide Attempt, Opened, Restorable, SharingOk, RequestEffect, Estimate, Prepare, ChargeUp, Conclude, FailedRows, ChargeFits;
    var b := Opened(200);
    OpenedBooks(200);
    OpenedIsSound(200);
    var route := Route(Some(Account(SENDER, "openai")), false);
    assert FirstRoute(b, LATE) == Some(route);
    EstimateIs(route, LATE);
    LateAttempt(b, route);
    FailureRestoresIff(b, LATE);
    assert Generate(b, LATE).books.budgets[SENDER] != b.budgets[SENDER];
  }

  lemma LateAttempt(b: Books, route: Route)
    requires b.budgets == map[SENDER := NewRow(200), LENDER := NewRow(1000)] && NoResetDue(b, TODAY)
    requires route == Route(Some(Account(SENDER, "openai")), false)
    ensures var a := Attempt(b, LATE, route, LATE.outside.first);
            && a.Broken? && a.saved == None && a.books.budgets.Keys == b.budgets.Keys
            && a.books.budgets[SENDER].remaining == 200 + ESTIMATE
  {
    hide ResetIfNeeded, Estimate;
    EstimateIs(route, LATE);
    WithoutDueResetIsNoOp(b, SENDER, TODAY);
    var charged := Posted(b, SENDER, Charged(b.budgets[SENDER], ESTIMATE), Tx(Usage, Some(SENDER), None, ESTIMATE));
    assert Consume(b, SENDER, ESTIMATE, false, TODAY) == Outcome(charged, None);
    assert NoResetDue(charged, TODAY);
    WithoutDueResetIsNoOp(charged, SENDER, TODAY);
    var settled := Posted(charged, SENDER, Adjusted(charged.budgets[SENDER], ESTIMATE), AdjustmentTx(SENDER, ESTIMATE));
    assert ActualCost(LATE, route, LATE.outside.first) == 0;
    var charge := Charge(ESTIMATE, 0, None);
    assert Reconcile(charged, LATE, route, charge) == Delivered(settled, charge, true);
    assert NoResetDue(settled, TODAY);
    WithoutDueResetIsNoOp(settled, SENDER, TODAY);
    assert Attempt(b, LATE, route, LATE.outside.first) == Compensate(settled, LATE, charge, None);
  }
}
