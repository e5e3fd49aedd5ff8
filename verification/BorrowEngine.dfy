/** Borrowing: finding lenders, reserving shared credits and releasing a reservation. */
module BorrowEngine {
  import opened Wrappers
  import opened StableSort
  import opened CreditLedger
  import opened BudgetService
  import opened LenderStrategy

  /** The lending-preference rows in the order the query returns them, and the workspace's members. */
  datatype Sharing = Sharing(rows: seq<Preference>, members: set<User>)

  datatype Reservation = Reservation(borrower: User, lender: User, amount: int)

  datatype Reserved = Reserved(books: Books, failure: Option<Error>, reservation: Option<Reservation>)

  /** A workspace has one preference row for a user. */
  ghost predicate OneRowPerUser(sharing: Sharing) {
    forall i, j :: 0 <= i < j < |sharing.rows| ==> sharing.rows[i].user != sharing.rows[j].user
  }

  /** The query's conditions on a preference row. */
  predicate Queried(p: Preference, sharing: Sharing, b: Books, borrower: User) {
    p.user in b.budgets && p.user in sharing.members && p.user != borrower && p.autoShare && p.shareLimit > 0
  }

  function QueriedRows(rows: seq<Preference>, sharing: Sharing, b: Books, borrower: User): seq<Preference>
    decreases |rows|
  {
    if rows == [] then []
    else
      var front := QueriedRows(rows[..|rows| - 1], sharing, b, borrower);
      if Queried(rows[|rows| - 1], sharing, b, borrower) then front + [rows[|rows| - 1]] else front
  }

  function ValidateLender(p: Preference, row: Budget, amount: int): bool {
    && amount > 0
    && p.autoShare
    && p.shareLimit > 0
    && p.shareLimit - row.lent >= amount
    && row.remaining - amount >= p.reserve
  }

  /** With an amount, whether the lender can cover it; without one, whether it has any capacity left. */
  predicate Accepts(c: Candidate, amount: Option<int>) {
    if amount.Some? then ValidateLender(c.preference, c.budget, amount.value) else Capacity(c) > 0
  }

  /** Resets each eligible lender in turn and collects those that are accepted. */
  function Scan(rows: seq<Preference>, b: Books, eligible: set<User>, amount: Option<int>, today: Date)
    : (Books, seq<Candidate>)
    decreases |rows|
  {
    if rows == [] then (b, [])
    else
      var (b', found) := Scan(rows[..|rows| - 1], b, eligible, amount, today);
      var p := rows[|rows| - 1];
      if p.user !in eligible then (b', found)
      else
        var reset := ResetIfNeeded(b', p.user, today);
        if reset.failure.Some? then (b', found)
        else
          var c := Candidate(p.user, p, reset.books.budgets[p.user]);
          (reset.books, if Accepts(c, amount) then found + [c] else found)
  }

  function FindLenders(b: Books, sharing: Sharing, borrower: User, eligible: set<User>, amount: Option<int>, today: Date)
    : (Books, seq<Candidate>)
  {
    Scan(QueriedRows(sharing.rows, sharing, b, borrower), b, eligible, amount, today)
  }

  function Lends(row: Budget, amount: int): Budget {
    row.(remaining := row.remaining - amount, lent := row.lent + amount)
  }

  function Borrows(row: Budget, amount: int): Budget {
    row.(remaining := row.remaining + amount, borrowed := row.borrowed + amount)
  }

  function TakesBack(row: Budget, amount: int): Budget {
    row.(remaining := row.remaining + amount, lent := AtLeastZero(row.lent - amount))
  }

  function GivesBack(row: Budget, amount: int): Budget {
    row.(remaining := AtLeastZero(row.remaining - amount), borrowed := AtLeastZero(row.borrowed - amount))
  }

  function LendTx(r: Reservation): Tx {
    Tx(Lend, Some(r.lender), Some(r.borrower), r.amount)
  }

  function BorrowTx(r: Reservation): Tx {
    Tx(Borrow, Some(r.lender), Some(r.borrower), r.amount)
  }

  function ReturnTx(r: Reservation): Tx {
    Tx(Adjustment, Some(r.borrower), Some(r.lender), r.amount)
  }

  /** Moves r.amount from the lender to the borrower. */
  function Transfer(b: Books, r: Reservation): Books
    requires r.lender in b.budgets && r.borrower in b.budgets
  {
    var lent := Posted(b, r.lender, Lends(b.budgets[r.lender], r.amount), LendTx(r));
    Posted(lent, r.borrower, Borrows(lent.budgets[r.borrower], r.amount), BorrowTx(r))
  }

  /** The second half of a reservation, once a lender is chosen. */
  function ReserveWith(b1: Books, borrower: User, chosen: Candidate, amount: int, today: Date): Reserved {
    var r1 := ResetIfNeeded(b1, chosen.user, today);
    if r1.failure.Some? then Reserved(r1.books, r1.failure, None)
    else
      var r2 := ResetIfNeeded(r1.books, borrower, today);
      if r2.failure.Some? || chosen.user !in r2.books.budgets then Reserved(r2.books, Some(BudgetNotFound), None)
      else if !ValidateLender(chosen.preference, r2.books.budgets[chosen.user], amount)
      then Reserved(r2.books, None, None)
      else
        var r := Reservation(borrower, chosen.user, amount);
        Reserved(Transfer(r2.books, r), None, Some(r))
  }

  function Reserve(b: Books, sharing: Sharing, borrower: User, amount: int, eligible: set<User>, today: Date): Reserved {
    if amount <= 0 then Reserved(b, None, None)
    else
      var (b1, candidates) := FindLenders(b, sharing, borrower, eligible, Some(amount), today);
      var chosen := SelectLender(candidates, amount);
      if chosen.None? then Reserved(b1, None, None)
      else
        ReserveWith(b1, borrower, chosen.value, amount, today)
  }

  function Release(b: Books, r: Reservation): Outcome {
    if r.amount <= 0 then Outcome(b, None)
    else if r.lender !in b.budgets || r.borrower !in b.budgets then Outcome(b, Some(BudgetNotFound))
    else
      var back := b.budgets[r.lender := TakesBack(b.budgets[r.lender], r.amount)];
      Outcome(Books(back[r.borrower := GivesBack(back[r.borrower], r.amount)], b.ledger + [ReturnTx(r)]), None)
  }

  // ---------------------------------------------------------------- invariants

  /** A member with credits out on loan has a preference row whose monthly limit covers them. */
  ghost predicate LoansWithinLimits(b: Books, sharing: Sharing) {
    forall u :: u in b.budgets && 0 < b.budgets[u].lent ==> WithinLimit(b.budgets[u], u, sharing)
  }

  ghost predicate WithinLimit(row: Budget, u: User, sharing: Sharing) {
    RowOf(sharing.rows, u).Some? && row.lent <= RowOf(sharing.rows, u).value.shareLimit
  }

  /** The preference row of a user. */
  function RowOf(rows: seq<Preference>, u: User): Option<Preference> {
    FirstWhere(rows, OfUser(u))
  }

  function OfUser(u: User): Preference -> bool {
    (p: Preference) => p.user == u
  }

  lemma OwnRow(sharing: Sharing, p: Preference)
    requires OneRowPerUser(sharing) && p in sharing.rows
    ensures RowOf(sharing.rows, p.user) == Some(p)
  {
    var found := RowOf(sharing.rows, p.user).value;
    var i :| 0 <= i < |sharing.rows| && sharing.rows[i] == p;
    var j :| 0 <= j < |sharing.rows| && sharing.rows[j] == found;
    assert i == j;
  }

  /** Lenders never promise to keep a negative reserve. */
  ghost predicate ReservesOk(sharing: Sharing) {
    forall i :: 0 <= i < |sharing.rows| ==> 0 <= sharing.rows[i].reserve
  }

  ghost predicate SharingOk(b: Books, sharing: Sharing) {
    BooksOk(b) && LoansWithinLimits(b, sharing) && OneRowPerUser(sharing)
  }

  /** From `b` to `t` members were reset or left alone, and only allocations were written. */
  ghost predicate OnlyResets(b: Books, t: Books, today: Date) {
    && t.budgets.Keys == b.budgets.Keys
    && (forall u :: u in b.budgets ==> ResetOrSame(b, t, u, today))
    && b.ledger <= t.ledger
    && (forall i :: |b.ledger| <= i < |t.ledger| ==> t.ledger[i].kind == Allocation)
  }

  ghost predicate ResetOrSame(b: Books, t: Books, u: User, today: Date)
    requires u in b.budgets && u in t.budgets
  {
    t.budgets[u] == b.budgets[u] || t.budgets[u] == CatchUp(b.budgets[u], u, today).0
  }

  lemma ResetIsReset(b: Books, u: User, today: Date)
    ensures OnlyResets(b, ResetIfNeeded(b, u, today).books, today)
  {
    hide CatchUp;
    if u in b.budgets {
      ResetCatchesUp(b.budgets[u], u, today);
    }
  }

  lemma CaughtUpTwice(row: Budget, u: User, today: Date)
    ensures CatchUp(CatchUp(row, u, today).0, u, today).0 == CatchUp(row, u, today).0
  {
    ResetCatchesUp(row, u, today);
    ResetCatchesUp(CatchUp(row, u, today).0, u, today);
  }

  lemma OnlyResetsChain(b: Books, t: Books, v: Books, today: Date)
    requires OnlyResets(b, t, today) && OnlyResets(t, v, today)
    ensures OnlyResets(b, v, today)
  {
    hide CatchUp;
    forall u | u in b.budgets ensures ResetOrSame(b, v, u, today) {
      assert ResetOrSame(b, t, u, today) && ResetOrSame(t, v, u, today);
      CaughtUpTwice(b.budgets[u], u, today);
    }
    forall i | |b.ledger| <= i < |v.ledger| ensures v.ledger[i].kind == Allocation {
      assert i < |t.ledger| ==> v.ledger[i] == t.ledger[i];
    }
  }

  lemma ResetKeepsLoans(b: Books, sharing: Sharing, u: User, today: Date)
    requires BooksOk(b)
    ensures LoansWithinLimits(b, sharing) ==> LoansWithinLimits(ResetIfNeeded(b, u, today).books, sharing)
    ensures u in b.budgets ==> ResetIfNeeded(b, u, today).books.budgets[u].lent <= b.budgets[u].lent
  {
    if u in b.budgets {
      ResetCatchesUp(b.budgets[u], u, today);
    }
  }

  // ---------------------------------------------------------------- the scan

  lemma {:induction false} QueriedRowsAre(rows: seq<Preference>, sharing: Sharing, b: Books, borrower: User)
    ensures forall p :: p in QueriedRows(rows, sharing, b, borrower) <==> p in rows && Queried(p, sharing, b, borrower)
    decreases |rows|
  {
    if rows != [] {
      QueriedRowsAre(rows[..|rows| - 1], sharing, b, borrower);
      assert rows == rows[..|rows| - 1] + [rows[|rows| - 1]];
    }
  }

  lemma NothingReset(b: Books, today: Date)
    ensures OnlyResets(b, b, today)
  {
  }

  /** The scan resets members and nothing else; every candidate was accepted on its preference row. */
  lemma {:induction false} ScanKeeps(rows: seq<Preference>, b: Books, eligible: set<User>, amount: Option<int>,
                                     today: Date, sharing: Sharing)
    requires BooksOk(b)
    ensures var (b', found) := Scan(rows, b, eligible, amount, today);
            && BooksOk(b') && (NoOverdraft(b) ==> NoOverdraft(b'))
            && (LoansWithinLimits(b, sharing) ==> LoansWithinLimits(b', sharing))
            && b'.budgets.Keys == b.budgets.Keys && OnlyResets(b, b', today)
            && (NoResetDue(b, today) ==> b' == b)
            && (forall c :: c in found ==>
                  c.user in eligible && c.preference in rows && c.preference.user == c.user
                  && c.user in b.budgets && Accepts(c, amount))
            && (forall c :: c in found && NoResetDue(b, today) ==> c.budget == b.budgets[c.user])
    decreases |rows|
  {
    hide ResetIfNeeded, Accepts, BooksOk, LoansWithinLimits, OnlyResets;
    if rows == [] {
      NothingReset(b, today);
    } else {
      var n := |rows| - 1;
      ScanKeeps(rows[..n], b, eligible, amount, today, sharing);
      var (b', found) := Scan(rows[..n], b, eligible, amount, today);
      var u := rows[n].user;
      ResetKeepsBooks(b', u, today);
      ResetKeepsLoans(b', sharing, u, today);
      ResetIsReset(b', u, today);
      OnlyResetsChain(b, b', ResetIfNeeded(b', u, today).books, today);
      if NoResetDue(b, today) && u in b.budgets {
        WithoutDueResetIsNoOp(b, u, today);
      }
    }
  }

  // ---------------------------------------------------------------- reserving

  lemma TransferKeepsLedger(b: Books, r: Reservation)
    requires LedgerAgrees(b) && r.lender in b.budgets && r.borrower in b.budgets && r.lender != r.borrower
    ensures LedgerAgrees(Transfer(b, r))
  {
    hide Replay;
    var b' := Transfer(b, r);
    var l1 := b.ledger + [LendTx(r)];
    forall u | u in b'.budgets ensures b'.budgets[u].remaining == Replay(b'.ledger, u) {
      ReplayAppend(b.ledger, LendTx(r), u);
      ReplayAppend(l1, BorrowTx(r), u);
    }
  }

  /** Members are reset, and then the reservation, if there is one, is transferred and nothing else happens. */
  ghost predicate MovesAfterResets(b: Books, out: Reserved, today: Date) {
    exists settled :: OnlyResets(b, settled, today) && Moved(settled, out)
  }

  ghost predicate Moved(settled: Books, out: Reserved) {
    if out.reservation.None? then out.books == settled
    else
      var r := out.reservation.value;
      r.lender in settled.budgets && r.borrower in settled.budgets && out.books == Transfer(settled, r)
  }

  /** A reservation moves exactly `amount` from one willing lender, who stays at or above its reserve and limit. */
  lemma ReserveMovesCredits(b: Books, sharing: Sharing, borrower: User, amount: int, eligible: set<User>, today: Date)
    requires SharingOk(b, sharing)
    ensures var out := Reserve(b, sharing, borrower, amount, eligible, today);
            && SharingOk(out.books, sharing)
            && out.books.budgets.Keys == b.budgets.Keys
            && (NoOverdraft(b) && ReservesOk(sharing) ==> NoOverdraft(out.books))
            && (out.reservation.Some? ==>
                  var r := out.reservation.value;
                  && out.failure.None? && 0 < amount
                  && r == Reservation(borrower, r.lender, amount) && r.lender != borrower && r.lender in eligible
                  && r.lender in b.budgets && borrower in b.budgets
                  && LenderKeepsReserve(out.books.budgets[r.lender], r.lender, sharing))
            && MovesAfterResets(b, out, today)
            && (NoResetDue(b, today) ==>
                  && (out.reservation.None? ==> out.books == b)
                  && (out.reservation.Some? ==> out.books == Transfer(b, out.reservation.value)))
  {
    hide Scan, QueriedRows, ReserveWith, OnlyResets, SelectLender, LedgerAgrees, LoansWithinLimits, OneRowPerUser;
    var rows := QueriedRows(sharing.rows, sharing, b, borrower);
    QueriedRowsAre(sharing.rows, sharing, b, borrower);
    NothingReset(b, today);
    ScanKeeps(rows, b, eligible, Some(amount), today, sharing);
    var (b1, candidates) := FindLenders(b, sharing, borrower, eligible, Some(amount), today);
    var chosen := SelectLender(candidates, amount);
    if 0 < amount && chosen.Some? {
      SelectedIsCandidate(candidates, amount);
      ReserveFrom(b, b1, sharing, borrower, chosen.value, amount, today);
    } else {
      var out := Reserve(b, sharing, borrower, amount, eligible, today);
      assert OnlyResets(b, out.books, today) && Moved(out.books, out);
    }
  }

  ghost predicate LenderKeepsReserve(row: Budget, u: User, sharing: Sharing) {
    var own := RowOf(sharing.rows, u);
    own.Some? && own.value.autoShare && row.remaining >= own.value.reserve && 0 <= row.lent <= own.value.shareLimit
  }

  lemma ReserveFrom(b: Books, b1: Books, sharing: Sharing, borrower: User, chosen: Candidate, amount: int, today: Date)
    requires SharingOk(b1, sharing) && b1.budgets.Keys == b.budgets.Keys && 0 < amount && OnlyResets(b, b1, today)
    requires chosen.preference in sharing.rows && chosen.preference.user == chosen.user
    requires chosen.user != borrower && chosen.user in b1.budgets
    requires NoResetDue(b, today) ==> b1 == b && Accepts(chosen, Some(amount)) && chosen.budget == b.budgets[chosen.user]
    ensures var out := ReserveWith(b1, borrower, chosen, amount, today);
            && SharingOk(out.books, sharing)
            && out.books.budgets.Keys == b.budgets.Keys
            && (NoOverdraft(b1) && ReservesOk(sharing) ==> NoOverdraft(out.books))
            && (out.reservation.Some? ==>
                  && out.failure.None? && out.reservation.value == Reservation(borrower, chosen.user, amount)
                  && borrower in b.budgets
                  && LenderKeepsReserve(out.books.budgets[chosen.user], chosen.user, sharing))
            && MovesAfterResets(b, out, today)
            && (NoResetDue(b, today) ==>
                  && (out.reservation.None? ==> out.books == b)
                  && (out.reservation.Some? ==> out.books == Transfer(b, out.reservation.value)))
  {
    hide ResetIfNeeded, LedgerAgrees, LoansWithinLimits, OneRowPerUser, OnlyResets, Transfer, ValidateLender, NoneNegative;
    var r1 := ResetIfNeeded(b1, chosen.user, today);
    ResetKeepsBooks(b1, chosen.user, today);
    ResetKeepsLoans(b1, sharing, chosen.user, today);
    var r2 := ResetIfNeeded(r1.books, borrower, today);
    ResetKeepsBooks(r1.books, borrower, today);
    ResetKeepsLoans(r1.books, sharing, borrower, today);
    ResetIsReset(b1, chosen.user, today);
    OnlyResetsChain(b, b1, r1.books, today);
    ResetIsReset(r1.books, borrower, today);
    OnlyResetsChain(b, r1.books, r2.books, today);
    if NoResetDue(b, today) {
      WithoutDueResetIsNoOp(b1, chosen.user, today);
      if borrower in b1.budgets {
        WithoutDueResetIsNoOp(b1, borrower, today);
      }
    }
    var out := ReserveWith(b1, borrower, chosen, amount, today);
    assert OnlyResets(b, r1.books, today) && OnlyResets(b, r2.books, today);
    assert Moved(if r1.failure.Some? then r1.books else r2.books, out);
    if out.reservation.Some? {
      TransferKeepsSharing(r2.books, sharing, chosen.preference, out.reservation.value);
    }
  }

  lemma TransferKeepsSharing(b: Books, sharing: Sharing, p: Preference, r: Reservation)
    requires SharingOk(b, sharing) && r.lender in b.budgets && r.borrower in b.budgets && r.lender != r.borrower
    requires p in sharing.rows && p.user == r.lender && ValidateLender(p, b.budgets[r.lender], r.amount)
    ensures var b' := Transfer(b, r);
            && SharingOk(b', sharing) && b'.budgets.Keys == b.budgets.Keys
            && (NoOverdraft(b) && ReservesOk(sharing) ==> NoOverdraft(b'))
            && LenderKeepsReserve(b'.budgets[r.lender], r.lender, sharing)
  {
    TransferKeepsLedger(b, r);
    var b' := Transfer(b, r);
    hide LedgerAgrees;
    OwnRow(sharing, p);
    hide OneRowPerUser, RowOf;
    assert LenderKeepsReserve(b'.budgets[r.lender], r.lender, sharing);
    forall u | u in b'.budgets && 0 < b'.budgets[u].lent ensures WithinLimit(b'.budgets[u], u, sharing) {
      if u != r.lender {
        assert WithinLimit(b.budgets[u], u, sharing);
      }
    }
  }

  // ---------------------------------------------------------------- who lends

  /** A member other than the borrower who shares, and whom the request may borrow from. */
  ghost predicate MayLend(b: Books, sharing: Sharing, borrower: User, eligible: set<User>, p: Preference) {
    && p in sharing.rows && p.user in sharing.members && p.user in eligible && p.user in b.budgets && p.user != borrower
    && p.autoShare && 0 < p.shareLimit
  }

  /** What is left of a member's monthly sharing limit. */
  function Unlent(b: Books, p: Preference): int {
    if p.user in b.budgets then p.shareLimit - b.budgets[p.user].lent else 0
  }

  /** The amount fits in the sharing limit, and leaves the lender its reserve. */
  ghost predicate CanLend(b: Books, p: Preference, amount: int) {
    p.user in b.budgets && amount <= Unlent(b, p) && p.reserve + amount <= b.budgets[p.user].remaining
  }

  /** More is left to lend, or as much and the priority number is no higher. */
  ghost predicate GoesFirst(b: Books, p: Preference, q: Preference) {
    Unlent(b, p) > Unlent(b, q) || (Unlent(b, p) == Unlent(b, q) && p.priority <= q.priority)
  }

  lemma {:induction false} ScanFinds(rows: seq<Preference>, b: Books, eligible: set<User>, amount: Option<int>, today: Date)
    requires NoResetDue(b, today) && forall p :: p in rows ==> p.user in b.budgets
    ensures Scan(rows, b, eligible, amount, today).0 == b
    ensures forall c :: c in Scan(rows, b, eligible, amount, today).1 <==>
                          && c.preference in rows && c.user == c.preference.user && c.user in eligible
                          && c.user in b.budgets && c.budget == b.budgets[c.user] && Accepts(c, amount)
    decreases |rows|
  {
    hide ResetIfNeeded, Accepts;
    if rows != [] {
      var n := |rows| - 1;
      assert rows[n] in rows && rows == rows[..n] + [rows[n]];
      ScanFinds(rows[..n], b, eligible, amount, today);
      WithoutDueResetIsNoOp(b, rows[n].user, today);
    }
  }

  /** On a day without a reset the candidates are exactly the members who may lend and can. */
  lemma LendersAre(b: Books, sharing: Sharing, borrower: User, eligible: set<User>, amount: Option<int>, today: Date)
    requires NoResetDue(b, today) && (amount.Some? ==> 0 < amount.value)
    ensures var (b', found) := FindLenders(b, sharing, borrower, eligible, amount, today);
            && b' == b
            && forall c :: c in found <==>
                             && MayLend(b, sharing, borrower, eligible, c.preference)
                             && c == Candidate(c.preference.user, c.preference, b.budgets[c.preference.user])
                             && (if amount.Some? then CanLend(b, c.preference, amount.value) else 0 < Unlent(b, c.preference))
  {
    hide Scan, QueriedRows;
    QueriedRowsAre(sharing.rows, sharing, b, borrower);
    ScanFinds(QueriedRows(sharing.rows, sharing, b, borrower), b, eligible, amount, today);
  }

  ghost predicate Lender(b: Books, sharing: Sharing, borrower: User, eligible: set<User>, amount: int, p: Preference) {
    MayLend(b, sharing, borrower, eligible, p) && CanLend(b, p, amount)
  }

  ghost predicate FirstLender(b: Books, sharing: Sharing, borrower: User, eligible: set<User>, amount: int, p: Preference) {
    && Lender(b, sharing, borrower, eligible, amount, p)
    && forall q :: Lender(b, sharing, borrower, eligible, amount, q) ==> GoesFirst(b, p, q)
  }

  /**
   On a day without a reset credits are reserved exactly when the borrower has a row and somebody may and can lend them
   all, and the lender is the one of those with the most left to lend, the lowest priority number deciding among equals.
   */
  lemma ReserveIff(b: Books, sharing: Sharing, borrower: User, amount: int, eligible: set<User>, today: Date)
    requires NoResetDue(b, today) && 0 < amount
    ensures var out := Reserve(b, sharing, borrower, amount, eligible, today);
            && (out.failure.None? && out.reservation.Some? <==>
                  borrower in b.budgets && exists p :: Lender(b, sharing, borrower, eligible, amount, p))
            && (out.reservation.Some? ==>
                  exists p :: FirstLender(b, sharing, borrower, eligible, amount, p)
                              && out.reservation.value == Reservation(borrower, p.user, amount))
  {
    hide FindLenders, Transfer, ResetIfNeeded;
    LendersAre(b, sharing, borrower, eligible, Some(amount), today);
    var found := FindLenders(b, sharing, borrower, eligible, Some(amount), today).1;
    assert forall p :: Lender(b, sharing, borrower, eligible, amount, p) ==> Candidate(p.user, p, b.budgets[p.user]) in found;
    if found != [] {
      ChosenGoesFirst(b, sharing, borrower, eligible, amount, found);
      ReserveWithIff(b, borrower, SelectLender(found, amount).value, amount, today);
    }
  }

  lemma ChosenGoesFirst(b: Books, sharing: Sharing, borrower: User, eligible: set<User>, amount: int, found: seq<Candidate>)
    requires found != [] && 0 < amount
    requires forall c :: c in found <==>
                           && MayLend(b, sharing, borrower, eligible, c.preference)
                           && c == Candidate(c.preference.user, c.preference, b.budgets[c.preference.user])
                           && CanLend(b, c.preference, amount)
    ensures SelectLender(found, amount).Some? && SelectLender(found, amount).value in found
    ensures FirstLender(b, sharing, borrower, eligible, amount, SelectLender(found, amount).value.preference)
  {
    hide CanCover, FirstLeast;
    CanCoverKeeps(found, amount);
    var able := CanCover(found, amount);
    assert found[0] in found && found[0] in able;
    LeastIsLeast(able, LENDER_KEY, 0);
    var chosen := FirstLeast(able, LENDER_KEY);
    forall q | Lender(b, sharing, borrower, eligible, amount, q)
      ensures GoesFirst(b, chosen.preference, q)
    {
      var c := Candidate(q.user, q, b.budgets[q.user]);
      assert c in found && c in able;
      var i :| 0 <= i < |able| && able[i] == c;
      LeastIsLeast(able, LENDER_KEY, i);
    }
  }

  lemma ReserveWithIff(b: Books, borrower: User, chosen: Candidate, amount: int, today: Date)
    requires NoResetDue(b, today) && 0 < amount && chosen.user == chosen.preference.user && CanLend(b, chosen.preference, amount)
    requires chosen.preference.autoShare && 0 < chosen.preference.shareLimit
    ensures var out := ReserveWith(b, borrower, chosen, amount, today);
            if borrower in b.budgets
            then out.failure.None? && out.reservation == Some(Reservation(borrower, chosen.user, amount))
            else out.failure.Some? && out.reservation.None?
  {
    hide Transfer;
    WithoutDueResetIsNoOp(b, chosen.user, today);
    if borrower in b.budgets {
      WithoutDueResetIsNoOp(b, borrower, today);
    }
  }

  // ---------------------------------------------------------------- releasing

  lemma ReleaseKeepsLedger(b: Books, r: Reservation)
    requires LedgerAgrees(b) && r.lender != r.borrower
    ensures LedgerAgrees(Release(b, r).books)
  {
    hide Replay;
    var b' := Release(b, r).books;
    if Release(b, r).failure.None? && 0 < r.amount {
      forall u | u in b'.budgets ensures b'.budgets[u].remaining == Replay(b'.ledger, u) {
        ReplayAppend(b.ledger, ReturnTx(r), u);
      }
    }
  }

  /** What a release does to one row. */
  lemma ReleasedRow(b: Books, r: Reservation, u: User)
    requires r.lender != r.borrower && u in b.budgets && NoneNegative(b.budgets[u])
    ensures var b' := Release(b, r).books;
            && b'.budgets.Keys == b.budgets.Keys
            && NoneNegative(b'.budgets[u])
            && b'.budgets[u].lent <= b.budgets[u].lent
            && (0 <= b.budgets[u].remaining ==> 0 <= b'.budgets[u].remaining)
  {
  }

  /** Releasing any reservation keeps the books, the loan limits, and everyone out of overdraft. */
  lemma ReleaseKeepsBooks(b: Books, sharing: Sharing, r: Reservation)
    requires SharingOk(b, sharing) && r.lender != r.borrower
    ensures var out := Release(b, r);
            && SharingOk(out.books, sharing) && out.books.budgets.Keys == b.budgets.Keys
            && (NoOverdraft(b) ==> NoOverdraft(out.books))
  {
    ReleaseKeepsLedger(b, r);
    var b' := Release(b, r).books;
    assert b'.budgets.Keys == b.budgets.Keys;
    hide LedgerAgrees, Release, NoneNegative;
    forall u | u in b.budgets
      ensures NoneNegative(b'.budgets[u]) && b'.budgets[u].lent <= b.budgets[u].lent
      ensures 0 <= b.budgets[u].remaining ==> 0 <= b'.budgets[u].remaining
    {
      ReleasedRow(b, r, u);
    }
    forall u | u in b'.budgets && 0 < b'.budgets[u].lent ensures WithinLimit(b'.budgets[u], u, sharing) {
      assert WithinLimit(b.budgets[u], u, sharing);
    }
  }

  // ---------------------------------------------------------------- the engine

  class BorrowDesk {
    const store: BudgetStore
    const sharing: Sharing

    constructor (store: BudgetStore, sharing: Sharing)
      ensures this.store == store && this.sharing == sharing
    {
      this.store, this.sharing := store, sharing;
    }

    /** Both lender searches of the source: with an amount to cover, or for any remaining capacity. */
    method Search(borrower: User, eligible: set<User>, amount: Option<int>, today: Date)
      returns (candidates: seq<Candidate>)
      modifies store
      ensures (store.Value(), candidates) == FindLenders(old(store.Value()), sharing, borrower, eligible, amount, today)
    {
      var rows := QueriedRows(sharing.rows, sharing, store.Value(), borrower);
      candidates := [];
      for i := 0 to |rows|
        invariant (store.Value(), candidates) == Scan(rows[..i], old(store.Value()), eligible, amount, today)
      {
        var p := rows[i];
        assert rows[..i + 1][..i] == rows[..i];
        if p.user in eligible {
          var failure := store.Reset(p.user, today);
          if failure.None? {
            var c := Candidate(p.user, p, store.budgets[p.user]);
            if Accepts(c, amount) {
              candidates := candidates + [c];
            }
          }
        }
      }
      assert rows[..|rows|] == rows;
    }

    method ReserveShared(borrower: User, amount: int, eligible: set<User>, today: Date)
      returns (failure: Option<Error>, reservation: Option<Reservation>)
      modifies store
      ensures Reserved(store.Value(), failure, reservation)
           == Reserve(old(store.Value()), sharing, borrower, amount, eligible, today)
    {
      if amount <= 0 {
        return None, None;
      }
      var candidates := Search(borrower, eligible, Some(amount), today);
      var chosen := SelectLender(candidates, amount);
      if chosen.None? {
        return None, None;
      }
      failure, reservation := ReserveChosen(borrower, chosen.value, amount, today);
    }

    method ReserveChosen(borrower: User, lender: Candidate, amount: int, today: Date)
      returns (failure: Option<Error>, reservation: Option<Reservation>)
      modifies store
      ensures Reserved(store.Value(), failure, reservation)
           == ReserveWith(old(store.Value()), borrower, lender, amount, today)
    {
      failure := store.Reset(lender.user, today);
      if failure.Some? {
        return failure, None;
      }
      failure := store.Reset(borrower, today);
      if failure.Some? || lender.user !in store.budgets {
        return Some(BudgetNotFound), None;
      }
      if !ValidateLender(lender.preference, store.budgets[lender.user], amount) {
        return None, None;
      }
      var r := Reservation(borrower, lender.user, amount);
      store.ledger := store.ledger + [LendTx(r)];
      var row := store.budgets[lender.user];
      store.budgets := store.budgets[lender.user := row.(remaining := row.remaining - amount, lent := row.lent + amount)];
      store.ledger := store.ledger + [BorrowTx(r)];
      row := store.budgets[borrower];
      store.budgets := store.budgets[borrower := row.(remaining := row.remaining + amount,
                                                      borrowed := row.borrowed + amount)];
      return None, Some(r);
    }

    method ReleaseBorrow(r: Reservation) returns (failure: Option<Error>)
      modifies store
      ensures Outcome(store.Value(), failure) == Release(old(store.Value()), r)
    {
      if r.amount <= 0 {
        return None;
      }
      if r.lender !in store.budgets || r.borrower !in store.budgets {
        return Some(BudgetNotFound);
      }
      store.ledger := store.ledger + [ReturnTx(r)];
      var row := store.budgets[r.lender];
      row := row.(remaining := row.remaining + r.amount);
      row := row.(lent := AtLeastZero(row.lent - r.amount));
      store.budgets := store.budgets[r.lender := row];
      row := store.budgets[r.borrower];
      row := row.(remaining := AtLeastZero(row.remaining - r.amount));
      row := row.(borrowed := AtLeastZero(row.borrowed - r.amount));
      store.budgets := store.budgets[r.borrower := row];
      return None;
    }
  }
}
