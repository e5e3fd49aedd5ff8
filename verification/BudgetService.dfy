/** Budget rows: creation, monthly reset, allocation, consumption and adjustment, each with its ledger entries. */
module BudgetService {
  import opened Wrappers
  import opened CreditLedger

  datatype RawDate = RawDate(year: int, month: int, day: int)

  type Date = d: RawDate | 1 <= d.month <= 12 && 1 <= d.day <= 31 witness RawDate(2000, 1, 1)

  datatype Budget = Budget(limit: int, used: int, borrowed: int, lent: int, remaining: int, resetDate: Date)

  /** One workspace's budget rows and its ledger. */
  datatype Books = Books(budgets: map<User, Budget>, ledger: Ledger)

  datatype Error = BudgetNotFound | InsufficientCredits

  /** The books after a call; `failure` is the exception it raised, if any. */
  datatype Outcome = Outcome(books: Books, failure: Option<Error>)

  // ---------------------------------------------------------------- dates

  predicate OnOrBefore(a: Date, b: Date) {
    a.year < b.year || (a.year == b.year && (a.month < b.month || (a.month == b.month && a.day <= b.day)))
  }

  function MonthIndex(d: Date): int {
    d.year * 12 + d.month - 1
  }

  /** First day of the month after d. */
  function NextReset(d: Date): Date {
    if d.month == 12 then RawDate(d.year + 1, 1, 1) else RawDate(d.year, d.month + 1, 1)
  }

  // ---------------------------------------------------------------- rows

  function AllocationTx(u: User, amount: int): Tx {
    Tx(Allocation, None, Some(u), amount)
  }

  function Refilled(row: Budget, resetDate: Date): Budget {
    row.(used := 0, borrowed := 0, lent := 0, remaining := row.limit, resetDate := resetDate)
  }

  /** The row after catching up with today, and one allocation per month entered. */
  function CatchUp(row: Budget, u: User, today: Date): (Budget, Ledger)
    decreases if OnOrBefore(row.resetDate, today) then MonthIndex(today) - MonthIndex(row.resetDate) + 1 else 0
  {
    if !OnOrBefore(row.resetDate, today) then (row, [])
    else
      var (final, rest) := CatchUp(Refilled(row, NextReset(row.resetDate)), u, today);
      (final, [AllocationTx(u, row.limit)] + rest)
  }

  function CreateBudget(b: Books, u: User, limit: int, today: Date): Books {
    if u in b.budgets then b
    else Books(b.budgets[u := Budget(limit, 0, 0, 0, limit, NextReset(today))], b.ledger + [AllocationTx(u, limit)])
  }

  function ResetIfNeeded(b: Books, u: User, today: Date): Outcome {
    if u !in b.budgets then Outcome(b, Some(BudgetNotFound))
    else
      var (row, txs) := CatchUp(b.budgets[u], u, today);
      Outcome(Books(b.budgets[u := row], b.ledger + txs), None)
  }

  /** One row changed and one entry written. */
  function Posted(b: Books, u: User, row: Budget, tx: Tx): Books {
    Books(b.budgets[u := row], b.ledger + [tx])
  }

  function Charged(row: Budget, amount: int): Budget {
    row.(used := row.used + amount, remaining := row.remaining - amount)
  }

  function Adjusted(row: Budget, amount: int): Budget {
    row.(remaining := row.remaining + amount,
         used := if amount > 0 then AtLeastZero(row.used - amount) else row.used - amount)
  }

  function Consume(b: Books, u: User, amount: int, allowInsufficient: bool, today: Date): Outcome {
    if amount <= 0 then Outcome(b, None)
    else
      var reset := ResetIfNeeded(b, u, today);
      if reset.failure.Some? then reset
      else
        var row := reset.books.budgets[u];
        if row.remaining < amount && !allowInsufficient then Outcome(reset.books, Some(InsufficientCredits))
        else
          Outcome(Posted(reset.books, u, Charged(row, amount), Tx(Usage, Some(u), None, amount)), None)
  }

  function Allocate(b: Books, u: User, today: Date): Outcome {
    if u !in b.budgets then Outcome(b, Some(BudgetNotFound))
    else
      Outcome(Books(b.budgets[u := Refilled(b.budgets[u], NextReset(today))],
                    b.ledger + [AllocationTx(u, b.budgets[u].limit)]), None)
  }

  function AdjustmentTx(u: User, amount: int): Tx {
    Tx(Adjustment, if amount < 0 then Some(u) else None, if amount > 0 then Some(u) else None,
       if amount < 0 then -amount else amount)
  }

  function Adjust(b: Books, u: User, amount: int, today: Date): Outcome {
    if amount == 0 then Outcome(b, None)
    else
      var reset := ResetIfNeeded(b, u, today);
      if reset.failure.Some? then reset
      else
        var row := reset.books.budgets[u];
        Outcome(Posted(reset.books, u, Adjusted(row, amount), AdjustmentTx(u, amount)), None)
  }

  // ---------------------------------------------------------------- the monthly reset

  /** Dates are compared by month first, and within a month by day. */
  lemma OnOrBeforeIs(a: Date, b: Date)
    ensures var m, n := 12 * a.year + a.month, 12 * b.year + b.month;
            OnOrBefore(a, b) <==> m < n || (m == n && a.day <= b.day)
  {
  }

  lemma NextResetIndex(d: Date)
    ensures MonthIndex(NextReset(d)) == MonthIndex(d) + 1 && NextReset(d).day == 1
  {
  }

  lemma DueIffMonthReached(d: Date, today: Date)
    requires d.day == 1
    ensures OnOrBefore(d, today) <==> MonthIndex(d) <= MonthIndex(today)
  {
  }

  lemma SameMonth(a: Date, b: Date)
    requires a.day == b.day && MonthIndex(a) == MonthIndex(b)
    ensures a == b
  {
  }

  /**
   The reset loop, for any reset date at all: when it is due it writes one allocation for every month from the
   reset month to today's, ends on the first of next month with a full row, and then is no longer due.
   */
  lemma {:induction false} ResetCatchesUp(row: Budget, u: User, today: Date)
    ensures var (final, txs) := CatchUp(row, u, today);
            && (!OnOrBefore(row.resetDate, today) ==> final == row && txs == [])
            && (OnOrBefore(row.resetDate, today) ==>
                  && |txs| == MonthIndex(today) - MonthIndex(row.resetDate) + 1
                  && final == Budget(row.limit, 0, 0, 0, row.limit, NextReset(today)))
            && (forall i :: 0 <= i < |txs| ==> txs[i] == AllocationTx(u, row.limit))
            && !OnOrBefore(final.resetDate, today)
            && final.limit == row.limit
    decreases if OnOrBefore(row.resetDate, today) then MonthIndex(today) - MonthIndex(row.resetDate) + 1 else 0
  {
    if OnOrBefore(row.resetDate, today) {
      var next := Refilled(row, NextReset(row.resetDate));
      NextResetIndex(row.resetDate);
      ResetCatchesUp(next, u, today);
      DueIffMonthReached(next.resetDate, today);
      if !OnOrBefore(next.resetDate, today) {
        NextResetIndex(today);
        SameMonth(next.resetDate, NextReset(today));
      }
    }
  }

  /** Resetting twice on one day is resetting once. */
  lemma ResetIdempotent(b: Books, u: User, today: Date)
    requires u in b.budgets
    ensures var once := ResetIfNeeded(b, u, today).books; ResetIfNeeded(once, u, today).books == once
  {
    ResetCatchesUp(b.budgets[u], u, today);
    var once := ResetIfNeeded(b, u, today).books;
    ResetCatchesUp(once.budgets[u], u, today);
    assert once.ledger + [] == once.ledger;
    assert once.budgets[u := once.budgets[u]] == once.budgets;
  }

  // ---------------------------------------------------------------- invariants

  ghost predicate NoneNegative(row: Budget) {
    0 <= row.limit && 0 <= row.used && 0 <= row.borrowed && 0 <= row.lent
  }

  /** Each row is a cache of the ledger: its remaining credits are the ledger's balance. */
  ghost predicate LedgerAgrees(b: Books) {
    forall u :: u in b.budgets ==> b.budgets[u].remaining == Replay(b.ledger, u)
  }

  ghost predicate RowsOk(b: Books) {
    forall u :: u in b.budgets ==> NoneNegative(b.budgets[u])
  }

  ghost predicate BooksOk(b: Books) {
    LedgerAgrees(b) && RowsOk(b)
  }

  ghost predicate NoOverdraft(b: Books) {
    forall u :: u in b.budgets ==> 0 <= b.budgets[u].remaining
  }

  /** No member is due a reset today. */
  ghost predicate NoResetDue(b: Books, today: Date) {
    forall u :: u in b.budgets ==> !OnOrBefore(b.budgets[u].resetDate, today)
  }

  lemma WithoutDueResetIsNoOp(b: Books, u: User, today: Date)
    requires u in b.budgets && !OnOrBefore(b.budgets[u].resetDate, today)
    ensures ResetIfNeeded(b, u, today) == Outcome(b, None)
  {
    assert b.ledger + [] == b.ledger;
    assert b.budgets[u := b.budgets[u]] == b.budgets;
  }

  /** Writing one entry and one row keeps the books in agreement, if the row moves as the entry says. */
  lemma EntryKeepsLedger(b: Books, u: User, row: Budget, tx: Tx)
    requires LedgerAgrees(b)
    requires forall v :: v != u ==> tx.from != Some(v) && tx.to != Some(v)
    requires row.remaining == Floored(Replay(b.ledger, u), tx, u)
    ensures LedgerAgrees(Posted(b, u, row, tx))
  {
    hide Replay;
    forall v | v in b.budgets[u := row] ensures b.budgets[u := row][v].remaining == Replay(b.ledger + [tx], v) {
      ReplayAppend(b.ledger, tx, v);
    }
  }

  lemma {:induction false} AllocationsReplay(l: Ledger, u: User, limit: int, txs: Ledger)
    requires txs != [] && forall i :: 0 <= i < |txs| ==> txs[i] == AllocationTx(u, limit)
    ensures Replay(l + txs, u) == limit
  {
    var n := |txs| - 1;
    assert l + txs == (l + txs[..n]) + [txs[n]];
    ReplayAppend(l + txs[..n], txs[n], u);
  }

  lemma ResetKeepsBooks(b: Books, u: User, today: Date)
    requires BooksOk(b)
    ensures var out := ResetIfNeeded(b, u, today);
            && BooksOk(out.books) && (NoOverdraft(b) ==> NoOverdraft(out.books))
            && out.books.budgets.Keys == b.budgets.Keys
            && (out.failure.None? <==> u in b.budgets)
            && (u !in b.budgets ==> out.books == b)
            && (u in b.budgets ==> !OnOrBefore(out.books.budgets[u].resetDate, today))
            && (forall v :: v in b.budgets && v != u ==> out.books.budgets[v] == b.budgets[v])
  {
    hide CatchUp;
    if u in b.budgets {
      ResetCatchesUp(b.budgets[u], u, today);
      var (row, txs) := CatchUp(b.budgets[u], u, today);
      var b' := Books(b.budgets[u := row], b.ledger + txs);
      forall v | v in b'.budgets ensures b'.budgets[v].remaining == Replay(b'.ledger, v) {
        if v != u {
          UntouchedReplay(b.ledger, txs, v);
        } else if txs != [] {
          AllocationsReplay(b.ledger, u, b.budgets[u].limit, txs);
        } else {
          assert b.ledger + txs == b.ledger;
        }
      }
    }
  }

  lemma CreateKeepsBooks(b: Books, u: User, limit: int, today: Date)
    requires BooksOk(b) && 0 <= limit
    ensures BooksOk(CreateBudget(b, u, limit, today))
    ensures NoOverdraft(b) ==> NoOverdraft(CreateBudget(b, u, limit, today))
    ensures forall again, later :: CreateBudget(CreateBudget(b, u, limit, today), u, again, later) == CreateBudget(b, u, limit, today)
    ensures forall v :: v in b.budgets ==> CreateBudget(b, u, limit, today).budgets[v] == b.budgets[v]
    ensures u !in b.budgets ==>
              && CreateBudget(b, u, limit, today).budgets[u] == Budget(limit, 0, 0, 0, limit, NextReset(today))
              && CreateBudget(b, u, limit, today).ledger == b.ledger + [Tx(Allocation, None, Some(u), limit)]
  {
    if u !in b.budgets {
      EntryKeepsLedger(b, u, Budget(limit, 0, 0, 0, limit, NextReset(today)), AllocationTx(u, limit));
    }
  }

  lemma AllocateKeepsBooks(b: Books, u: User, today: Date)
    requires BooksOk(b)
    ensures BooksOk(Allocate(b, u, today).books)
    ensures Allocate(b, u, today).failure.None? <==> u in b.budgets
    ensures u in b.budgets ==>
              var limit := b.budgets[u].limit;
              && Allocate(b, u, today).books.budgets == b.budgets[u := Budget(limit, 0, 0, 0, limit, NextReset(today))]
              && Allocate(b, u, today).books.ledger == b.ledger + [Tx(Allocation, None, Some(u), limit)]
    ensures NoOverdraft(b) ==> NoOverdraft(Allocate(b, u, today).books)
  {
    if u in b.budgets {
      EntryKeepsLedger(b, u, Refilled(b.budgets[u], NextReset(today)), AllocationTx(u, b.budgets[u].limit));
    }
  }

  lemma ConsumeKeepsBooks(b: Books, u: User, amount: int, allowInsufficient: bool, today: Date)
    requires BooksOk(b)
    ensures var out := Consume(b, u, amount, allowInsufficient, today);
            && BooksOk(out.books)
            && out.books.budgets.Keys == b.budgets.Keys
            && (NoOverdraft(b) && !allowInsufficient ==> NoOverdraft(out.books))
            && (out.failure.None? && 0 < amount && !allowInsufficient ==>
                  u in out.books.budgets && 0 <= out.books.budgets[u].remaining)
            && (forall v :: v in b.budgets && v != u ==> out.books.budgets[v] == b.budgets[v])
  {
    ResetKeepsBooks(b, u, today);
    hide ResetIfNeeded, BooksOk;
    var reset := ResetIfNeeded(b, u, today);
    if 0 < amount && reset.failure.None? {
      UsageKeepsBooks(reset.books, u, amount);
    }
  }

  lemma UsageKeepsBooks(b: Books, u: User, amount: int)
    requires BooksOk(b) && u in b.budgets && 0 < amount
    ensures BooksOk(Posted(b, u, Charged(b.budgets[u], amount), Tx(Usage, Some(u), None, amount)))
  {
    EntryKeepsLedger(b, u, Charged(b.budgets[u], amount), Tx(Usage, Some(u), None, amount));
  }

  lemma AdjustKeepsBooks(b: Books, u: User, amount: int, today: Date)
    requires BooksOk(b)
    ensures var out := Adjust(b, u, amount, today);
            && BooksOk(out.books)
            && out.books.budgets.Keys == b.budgets.Keys
            && (NoOverdraft(b) && 0 <= amount ==> NoOverdraft(out.books))
            && (forall v :: v in b.budgets && v != u ==> out.books.budgets[v] == b.budgets[v])
  {
    ResetKeepsBooks(b, u, today);
    hide ResetIfNeeded, BooksOk, AdjustmentTx, Adjusted, NoOverdraft;
    var reset := ResetIfNeeded(b, u, today);
    if amount != 0 && reset.failure.None? {
      AdjustmentKeepsBooks(reset.books, u, amount);
    }
  }

  lemma AdjustmentKeepsBooks(b: Books, u: User, amount: int)
    requires BooksOk(b) && u in b.budgets && amount != 0
    ensures BooksOk(Posted(b, u, Adjusted(b.budgets[u], amount), AdjustmentTx(u, amount)))
    ensures NoOverdraft(b) && 0 < amount ==> NoOverdraft(Posted(b, u, Adjusted(b.budgets[u], amount), AdjustmentTx(u, amount)))
  {
    EntryKeepsLedger(b, u, Adjusted(b.budgets[u], amount), AdjustmentTx(u, amount));
  }

  // ---------------------------------------------------------------- the service

  class BudgetStore {
    var budgets: map<User, Budget>
    var ledger: Ledger

    constructor ()
      ensures Value() == Books(map[], [])
    {
      budgets, ledger := map[], [];
    }

    function Value(): Books
      reads this
    {
      Books(budgets, ledger)
    }

    method CreateRow(u: User, limit: int, today: Date)
      modifies this
      ensures Value() == CreateBudget(old(Value()), u, limit, today)
    {
      if u in budgets {
        return;
      }
      budgets := budgets[u := Budget(limit, 0, 0, 0, limit, NextReset(today))];
      ledger := ledger + [AllocationTx(u, limit)];
    }

    method Reset(u: User, today: Date) returns (failure: Option<Error>)
      modifies this
      ensures Outcome(Value(), failure) == ResetIfNeeded(old(Value()), u, today)
    {
      if u !in budgets {
        return Some(BudgetNotFound);
      }
      ghost var start := budgets[u];
      ghost var written: Ledger := [];
      assert written + CatchUp(start, u, today).1 == CatchUp(start, u, today).1;
      while OnOrBefore(budgets[u].resetDate, today)
        invariant u in budgets && budgets == old(budgets)[u := budgets[u]]
        invariant ledger == old(ledger) + written
        invariant CatchUp(start, u, today) ==
                  (CatchUp(budgets[u], u, today).0, written + CatchUp(budgets[u], u, today).1)
        decreases MonthIndex(today) - MonthIndex(budgets[u].resetDate)
      {
        var row := budgets[u];
        var allocation := row.limit;
        ghost var rest := CatchUp(Refilled(row, NextReset(row.resetDate)), u, today).1;
        assert written + ([AllocationTx(u, allocation)] + rest) == (written + [AllocationTx(u, allocation)]) + rest;
        row := row.(used := 0, borrowed := 0, lent := 0, remaining := allocation);
        row := row.(resetDate := NextReset(row.resetDate));
        budgets := budgets[u := row];
        ledger := ledger + [AllocationTx(u, allocation)];
        written := written + [AllocationTx(u, allocation)];
      }
      assert written + [] == written;
      return None;
    }

    method HasAvailable(u: User, amount: int, today: Date) returns (failure: Option<Error>, available: bool)
      modifies this
      ensures amount <= 0 ==> Value() == old(Value()) && failure.None? && available
      ensures 0 < amount ==> Outcome(Value(), failure) == ResetIfNeeded(old(Value()), u, today)
      ensures 0 < amount && failure.None? ==> available == (budgets[u].remaining >= amount)
    {
      if amount <= 0 {
        return None, true;
      }
      failure := Reset(u, today);
      if failure.Some? {
        return failure, false;
      }
      return None, budgets[u].remaining >= amount;
    }

    method ConsumeCredits(u: User, amount: int, allowInsufficient: bool, today: Date) returns (failure: Option<Error>)
      modifies this
      ensures Outcome(Value(), failure) == Consume(old(Value()), u, amount, allowInsufficient, today)
    {
      if amount <= 0 {
        return None;
      }
      failure := Reset(u, today);
      if failure.Some? {
        return;
      }
      if budgets[u].remaining < amount && !allowInsufficient {
        return Some(InsufficientCredits);
      }
      ledger := ledger + [Tx(Usage, Some(u), None, amount)];
      budgets := budgets[u := budgets[u].(used := budgets[u].used + amount)];
      budgets := budgets[u := budgets[u].(remaining := budgets[u].remaining - amount)];
    }

    method AllocateMonthly(u: User, today: Date) returns (failure: Option<Error>)
      modifies this
      ensures Outcome(Value(), failure) == Allocate(old(Value()), u, today)
    {
      if u !in budgets {
        return Some(BudgetNotFound);
      }
      var row := budgets[u];
      var allocation := row.limit;
      budgets := budgets[u := row.(used := 0, borrowed := 0, lent := 0, remaining := allocation,
                                   resetDate := NextReset(today))];
      ledger := ledger + [AllocationTx(u, allocation)];
      return None;
    }

    method AdjustCredits(u: User, amount: int, today: Date) returns (failure: Option<Error>)
      modifies this
      ensures Outcome(Value(), failure) == Adjust(old(Value()), u, amount, today)
    {
      if amount == 0 {
        return None;
      }
      failure := Reset(u, today);
      if failure.Some? {
        return;
      }
      ledger := ledger + [AdjustmentTx(u, amount)];
      var row := budgets[u];
      row := row.(remaining := row.remaining + amount);
      if 0 < amount {
        row := row.(used := AtLeastZero(row.used - amount));
      } else {
        row := row.(used := row.used - amount);
      }
      budgets := budgets[u := row];
    }
  }
}
