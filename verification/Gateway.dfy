/**
 The AI gateway's accounting: one request reserves, charges, reconciles or refunds credits over at
 most two attempts. Providers and routing are foreign and appear as arbitrary answers.
 */
module Gateway {
  import opened Wrappers
  import opened CreditLedger
  import opened CreditPolicy
  import opened BudgetService
  import opened LenderStrategy
  import opened BorrowEngine

  datatype Settings = Settings(allowBorrowing: bool, hardEnforcement: bool, allowLocalModels: bool)

  datatype Account = Account(owner: User, provider: string)

  /** What becomes of one attempt outside the credit accounting. */
  datatype ProviderResult =
    | Replied(inputTokens: int, outputTokens: int, after: After)  // the reply was stored; its cost is settled next
    | Failed      // the provider call, or storing its reply, raised
    | Aborted     // an HTTP error there, or an error while compensating
    | NotStarted  // something raised before the provider was called

  /** What happens between settling the cost and answering: broadcasts, the borrow record, the commit, more broadcasts. */
  datatype After =
    | Completed
    | BrokeBeforeCommit    // something raised, and the credits are compensated
    | BrokeAfterCommit     // the same, with the reply and its settlement already committed
    | AbortedBeforeCommit  // an HTTP error, or an error while compensating: the transaction is rolled back
    | AbortedAfterCommit   // the same, and the rollback only reaches back to the commit

  datatype Request = Request(sender: User, participants: set<User>, inputChars: nat, today: Date)

  /** The answers of routing and of the providers, for the first attempt and for the retry. */
  datatype Outside = Outside(profile: Profile, envProvider: string,
                             accounts: map<User, Account>, retryAccounts: map<User, Account>,
                             first: ProviderResult, second: ProviderResult)

  datatype Route = Route(account: Option<Account>, borrowed: bool)

  datatype Prepared =
    | Prepared(books: Books, reserved: nat, reservation: Option<Reservation>)
    | Unprepared

  /** What an attempt estimated and charged, and what it had really cost by the time it ended. */
  datatype Charge = Charge(reserved: nat, paid: nat, lent: Option<Reservation>)

  datatype Attempted =
    | Rejected                                                      // raised: rolled back to the last commit
    | Refused(books: Books)                                         // insufficient credits, committed
    | Broken(books: Books, charge: Charge, saved: Option<Books>)    // compensated; `saved` was committed before that
    | Delivered(books: Books, charge: Charge, answered: bool)       // committed, even when the answer is then an error

  datatype Context = Context(request: Request, settings: Settings, outside: Outside, sharing: Sharing)

  // ---------------------------------------------------------------- routing

  function FirstRouted(lenders: seq<Candidate>, accounts: map<User, Account>): Option<Account> {
    if lenders == [] then None
    else if lenders[0].user in accounts then Some(accounts[lenders[0].user])
    else FirstRouted(lenders[1..], accounts)
  }

  function ResolveBorrowed(b: Books, c: Context, accounts: map<User, Account>): (Books, Option<Route>) {
    if !c.settings.allowBorrowing then (b, None)
    else
      var (b', lenders) := FindLenders(b, c.sharing, c.request.sender, c.request.participants - {c.request.sender},
                                       None, c.request.today);
      var account := FirstRouted(OrderLenders(lenders), accounts);
      (b', if account.Some? then Some(Route(account, true)) else None)
  }

  /** Own account first, then a lender's, then a free configured provider; otherwise the request is rejected. */
  function ResolveExecution(b: Books, c: Context): (Books, Option<Route>) {
    if c.request.sender in c.outside.accounts
    then (b, Some(Route(Some(c.outside.accounts[c.request.sender]), false)))
    else
      var (b', borrowed) := ResolveBorrowed(b, c, c.outside.accounts);
      if borrowed.Some? then (b', borrowed)
      else if c.outside.envProvider == "mock" || c.outside.envProvider == "ollama" then (b', Some(Route(None, false)))
      else (b', None)
  }

  function ProviderOf(route: Route, c: Context): string {
    if route.account.Some? then route.account.value.provider else c.outside.envProvider
  }

  function Estimate(route: Route, c: Context): nat {
    EstimateRequestCost(c.outside.profile, ProviderOf(route, c), c.request.inputChars)
  }

  // ---------------------------------------------------------------- one attempt

  function Prepare(b: Books, c: Context, route: Route): Prepared {
    var estimate := Estimate(route, c);
    if ProviderOf(route, c) == "ollama" && !c.settings.allowLocalModels then Unprepared
    else if estimate == 0 then Prepared(b, 0, None)
    else if route.borrowed then
      if !c.settings.allowBorrowing then Unprepared
      else
        var r := Reserve(b, c.sharing, c.request.sender, estimate, c.request.participants, c.request.today);
        if r.failure.Some? || r.reservation.None? then Unprepared
        else Prepared(r.books, estimate, r.reservation)
    else
      var r := ResetIfNeeded(b, c.request.sender, c.request.today);
      if r.failure.Some? then Unprepared
      else if c.settings.hardEnforcement && r.books.budgets[c.request.sender].remaining < estimate then Unprepared
      else Prepared(r.books, estimate, None)
  }

  predicate MayOverdraw(c: Context, route: Route) {
    !c.settings.hardEnforcement && !route.borrowed
  }

  function ReleaseIfAny(b: Books, reservation: Option<Reservation>): Outcome {
    if reservation.Some? then Release(b, reservation.value) else Outcome(b, None)
  }

  /** What a rollback leaves of an attempt: what it had committed, if anything. */
  function RolledBack(charge: Charge, saved: Option<Books>): Attempted {
    if saved.Some? then Delivered(saved.value, charge, false) else Rejected
  }

  /** Compensation: return what was borrowed, then refund all that was charged, whatever has been settled meanwhile. */
  function Compensate(b: Books, c: Context, charge: Charge, saved: Option<Books>): Attempted {
    var released := ReleaseIfAny(b, charge.lent);
    if released.failure.Some? then RolledBack(charge, saved)
    else
      var refunded := Adjust(released.books, c.request.sender, charge.reserved, c.request.today);
      if refunded.failure.Some? then RolledBack(charge, saved) else Broken(refunded.books, charge, saved)
  }

  /** After a reply: charge late if nothing was reserved, otherwise settle the difference to the actual cost. */
  function Reconcile(b: Books, c: Context, route: Route, charge: Charge): Attempted {
    if charge.reserved == 0 && charge.paid > 0 then
      var late := Consume(b, c.request.sender, charge.paid, MayOverdraw(c, route), c.request.today);
      if late.failure == Some(InsufficientCredits) then
        var released := ReleaseIfAny(late.books, charge.lent);
        if released.failure.Some? then Rejected else Refused(released.books)
      else if late.failure.Some? then Rejected
      else Delivered(late.books, charge, true)
    else if charge.reserved > 0 && charge.paid != charge.reserved then
      var adjusted := Adjust(b, c.request.sender, charge.reserved - charge.paid, c.request.today);
      if adjusted.failure.Some? then Rejected else Delivered(adjusted.books, charge, true)
    else Delivered(b, charge, true)
  }

  /** From the settlement on: the commit falls somewhere in between, and the handlers are the same on both sides of it. */
  function Finish(b: Books, c: Context, charge: Charge, after: After): Attempted {
    match after
    case Completed => Delivered(b, charge, true)
    case BrokeBeforeCommit => Compensate(b, c, charge, None)
    case BrokeAfterCommit => Compensate(b, c, charge, Some(b))
    case AbortedBeforeCommit => Rejected
    case AbortedAfterCommit => RolledBack(charge, Some(b))
  }

  function ActualCost(c: Context, route: Route, result: ProviderResult): nat
    requires result.Replied?
  {
    CalculateCost(c.outside.profile, ProviderOf(route, c), result.inputTokens, result.outputTokens)
  }

  function ChargeUp(p: Prepared, c: Context, route: Route): Outcome
    requires p.Prepared?
  {
    Consume(p.books, c.request.sender, p.reserved, MayOverdraw(c, route), c.request.today)
  }

  function Conclude(b: Books, p: Prepared, c: Context, route: Route, result: ProviderResult): Attempted
    requires p.Prepared?
  {
    match result
    case Replied(_, _, after) =>
      var charge := Charge(p.reserved, ActualCost(c, route, result), p.reservation);
      var settled := Reconcile(b, c, route, charge);
      if settled.Delivered? then Finish(settled.books, c, charge, after) else settled
    case Failed => Compensate(b, c, Charge(p.reserved, p.reserved, p.reservation), None)
    case Aborted => Rejected
    case NotStarted => Rejected
  }

  function Attempt(b: Books, c: Context, route: Route, result: ProviderResult): Attempted {
    var p := Prepare(b, c, route);
    if p.Unprepared? || result.NotStarted? then Rejected
    else
      var charged := ChargeUp(p, c, route);
      if charged.failure.Some? then Rejected else Conclude(charged.books, p, c, route, result)
  }

  // ---------------------------------------------------------------- the request

  /** `first` is the charge of a failed first attempt that was retried. */
  datatype Ending =
    | WasRejected(kept: Option<Charge>)  // `kept` had been committed by the first attempt
    | WasRefused
    | AllFailed(first: Option<Charge>, last: Charge)
    | WasDelivered(first: Option<Charge>, last: Charge, answered: bool)

  datatype Served = Served(books: Books, ending: Ending, attempts: nat)

  /** `start` is what a rollback restores, `saved` whether the first attempt had committed it. */
  function Serve(start: Books, b: Books, c: Context, route: Route, first: Option<Charge>, saved: bool): Served
    decreases first.None?
  {
    var n := if first.Some? then 2 else 1;
    match Attempt(b, c, route, if first.Some? then c.outside.second else c.outside.first)
    case Rejected => Served(start, WasRejected(if saved then first else None), n)
    case Refused(b') => Served(b', WasRefused, n)
    case Delivered(b', charge, answered) => Served(b', WasDelivered(first, charge, answered), n)
    case Broken(b', charge, committed) =>
      if first.None? && !route.borrowed && c.settings.allowBorrowing then
        var (b'', next) := ResolveBorrowed(b', c, c.outside.retryAccounts);
        if next.Some?
        then Serve(if committed.Some? then committed.value else start, b'', c, next.value, Some(charge), committed.Some?)
        else Served(b'', AllFailed(first, charge), n)
      else Served(b', AllFailed(first, charge), n)
  }

  function Generate(b: Books, c: Context): Served {
    var (b', route) := ResolveExecution(b, c);
    if route.None? then Served(b, WasRejected(None), 0) else Serve(b, b', c, route.value, None, false)
  }

  // ---------------------------------------------------------------- the gateway

  class AIGateway {
    const store: BudgetStore
    const desk: BorrowDesk

    constructor (desk: BorrowDesk)
      ensures this.desk == desk && store == desk.store
    {
      this.desk := desk;
      this.store := desk.store;
    }

    method ResolveBorrowedRouting(c: Context, accounts: map<User, Account>) returns (route: Option<Route>)
      requires desk.store == store && desk.sharing == c.sharing
      modifies store
      ensures (store.Value(), route) == ResolveBorrowed(old(store.Value()), c, accounts)
    {
      if !c.settings.allowBorrowing {
        return None;
      }
      var lenders := desk.Search(c.request.sender, c.request.participants - {c.request.sender}, None, c.request.today);
      var ordered := OrderLenders(lenders);
      for i := 0 to |ordered|
        invariant FirstRouted(ordered, accounts) == FirstRouted(ordered[i..], accounts)
      {
        if ordered[i].user in accounts {
          return Some(Route(Some(accounts[ordered[i].user]), true));
        }
      }
      return None;
    }

    method ResolveExecutionRouting(c: Context) returns (route: Option<Route>)
      requires desk.store == store && desk.sharing == c.sharing
      modifies store
      ensures (store.Value(), route) == ResolveExecution(old(store.Value()), c)
    {
      if c.request.sender in c.outside.accounts {
        return Some(Route(Some(c.outside.accounts[c.request.sender]), false));
      }
      route := ResolveBorrowedRouting(c, c.outside.accounts);
      if route.None? && (c.outside.envProvider == "mock" || c.outside.envProvider == "ollama") {
        return Some(Route(None, false));
      }
    }

    method PrepareAttempt(c: Context, route: Route) returns (ok: bool, reserved: nat, reservation: Option<Reservation>)
      requires desk.store == store && desk.sharing == c.sharing
      modifies store
      ensures !ok <==> Prepare(old(store.Value()), c, route).Unprepared?
      ensures ok ==> Prepared(store.Value(), reserved, reservation) == Prepare(old(store.Value()), c, route)
    {
      hide Reserve, ResetIfNeeded, Estimate;
      reserved, reservation := 0, None;
      if ProviderOf(route, c) == "ollama" && !c.settings.allowLocalModels {
        return false, 0, None;
      }
      var estimate := Estimate(route, c);
      if estimate > 0 {
        if route.borrowed {
          if !c.settings.allowBorrowing {
            return false, 0, None;
          }
          var failure;
          failure, reservation := desk.ReserveShared(c.request.sender, estimate, c.request.participants, c.request.today);
          if failure.Some? || reservation.None? {
            return false, 0, None;
          }
        } else {
          var failure, available := store.HasAvailable(c.request.sender, estimate, c.request.today);
          if failure.Some? || (c.settings.hardEnforcement && !available) {
            return false, 0, None;
          }
        }
        reserved := estimate;
      }
      return true, reserved, reservation;
    }

    /** The exception handler: release, refund, or a rollback to what was committed when one of them raises. */
    method CompensateFailure(c: Context, charge: Charge, saved: Option<Books>) returns (outcome: Attempted)
      requires desk.store == store
      modifies store
      ensures outcome == Compensate(old(store.Value()), c, charge, saved)
      ensures !outcome.Rejected? ==> outcome.books == store.Value()
    {
      hide Release, Adjust;
      if charge.lent.Some? {
        var failure := desk.ReleaseBorrow(charge.lent.value);
        if failure.Some? {
          outcome := RollbackTo(charge, saved);
          return;
        }
      }
      var failure := store.AdjustCredits(c.request.sender, charge.reserved, c.request.today);
      if failure.Some? {
        outcome := RollbackTo(charge, saved);
        return;
      }
      return Broken(store.Value(), charge, saved);
    }

    method RollbackTo(charge: Charge, saved: Option<Books>) returns (outcome: Attempted)
      modifies store
      ensures outcome == RolledBack(charge, saved)
      ensures !outcome.Rejected? ==> outcome.books == store.Value()
    {
      if saved.None? {
        return Rejected;
      }
      Rollback(saved.value);
      return Delivered(saved.value, charge, false);
    }

    method ReconcileCharge(c: Context, route: Route, charge: Charge) returns (outcome: Attempted)
      requires desk.store == store
      modifies store
      ensures outcome == Reconcile(old(store.Value()), c, route, charge)
      ensures !outcome.Rejected? ==> outcome.books == store.Value()
    {
      hide Release, Adjust, Consume;
      if charge.reserved == 0 && charge.paid > 0 {
        var failure := store.ConsumeCredits(c.request.sender, charge.paid, MayOverdraw(c, route), c.request.today);
        if failure == Some(InsufficientCredits) {
          if charge.lent.Some? {
            var unreleased := desk.ReleaseBorrow(charge.lent.value);
            if unreleased.Some? {
              return Rejected;
            }
          }
          return Refused(store.Value());
        }
        if failure.Some? {
          return Rejected;
        }
      } else if charge.reserved > 0 && charge.paid != charge.reserved {
        var failure := store.AdjustCredits(c.request.sender, charge.reserved - charge.paid, c.request.today);
        if failure.Some? {
          return Rejected;
        }
      }
      return Delivered(store.Value(), charge, true);
    }

    /** The rest of the `try` block after the settlement, and the handlers for what it raises. */
    method FinishAttempt(c: Context, charge: Charge, after: After) returns (outcome: Attempted)
      requires desk.store == store
      modifies store
      ensures outcome == Finish(old(store.Value()), c, charge, after)
      ensures !outcome.Rejected? ==> outcome.books == store.Value()
    {
      hide Compensate;
      match after
      case Completed =>
        return Delivered(store.Value(), charge, true);
      case BrokeBeforeCommit =>
        outcome := CompensateFailure(c, charge, None);
      case BrokeAfterCommit =>
        outcome := CompensateFailure(c, charge, Some(store.Value()));
      case AbortedBeforeCommit =>
        return Rejected;
      case AbortedAfterCommit =>
        outcome := RollbackTo(charge, Some(store.Value()));
    }

    method RunAttempt(c: Context, route: Route, result: ProviderResult) returns (outcome: Attempted)
      requires desk.store == store && desk.sharing == c.sharing
      modifies store
      ensures outcome == Attempt(old(store.Value()), c, route, result)
      ensures !outcome.Rejected? ==> outcome.books == store.Value()
    {
      hide Prepare, Consume, Reconcile, Compensate, Finish;
      var ok, reserved, reservation := PrepareAttempt(c, route);
      if !ok || result.NotStarted? {
        return Rejected;
      }
      ghost var p := Prepared(store.Value(), reserved, reservation);
      var failure := store.ConsumeCredits(c.request.sender, reserved, MayOverdraw(c, route), c.request.today);
      if failure.Some? {
        return Rejected;
      }
      match result
      case Replied(_, _, after) =>
        var charge := Charge(reserved, ActualCost(c, route, result), reservation);
        outcome := ReconcileCharge(c, route, charge);
        if outcome.Delivered? {
          outcome := FinishAttempt(c, charge, after);
        }
      case Failed =>
        outcome := CompensateFailure(c, Charge(reserved, reserved, reservation), None);
      case Aborted =>
        return Rejected;
    }

    method Rollback(start: Books)
      modifies store
      ensures store.Value() == start
    {
      store.budgets, store.ledger := start.budgets, start.ledger;
    }

    method GenerateResponse(c: Context) returns (ending: Ending, attempts: nat)
      requires desk.store == store && desk.sharing == c.sharing
      modifies store
      ensures Served(store.Value(), ending, attempts) == Generate(old(store.Value()), c)
    {
      hide Attempt, ResolveBorrowed, ResolveExecution;
      var start := store.Value();
      var resolved := ResolveExecutionRouting(c);
      if resolved.None? {
        Rollback(start);
        return WasRejected(None), 0;
      }
      var route := resolved.value;
      var first: Option<Charge> := None;
      var lastCommit, saved := start, false;
      attempts := 0;
      while true
        invariant desk.store == store
        invariant attempts == if first.Some? then 1 else 0
        invariant first.None? ==> !saved
        invariant Generate(start, c) == Serve(lastCommit, store.Value(), c, route, first, saved)
        decreases first.None?
      {
        attempts := attempts + 1;
        var outcome := RunAttempt(c, route, if first.Some? then c.outside.second else c.outside.first);
        match outcome
        case Rejected =>
          Rollback(lastCommit);
          return WasRejected(if saved then first else None), attempts;
        case Refused(_) =>
          return WasRefused, attempts;
        case Delivered(_, charge, answered) =>
          return WasDelivered(first, charge, answered), attempts;
        case Broken(_, charge, committed) =>
          if first.None? && !route.borrowed && c.settings.allowBorrowing {
            var next := ResolveBorrowedRouting(c, c.outside.retryAccounts);
            if next.Some? {
              first := Some(charge);
              if committed.Some? {
                lastCommit, saved := committed.value, true;
              }
              route := next.value;
              continue;
            }
          }
          return AllFailed(first, charge), attempts;
      }
    }
  }
}
