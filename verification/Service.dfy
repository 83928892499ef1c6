/** The services over the tables they update: each statement of a transaction
    written out in the source's order, with rollback to the state at its start
    when one of them fails. Every public method is proved to be exactly the
    atomic step of the same name. */
module Service {
  import opened Outcomes
  import opened Calendar
  import opened Database
  import opened Steps
  import opened Laws
  import opened LawsKept
  import opened StepsKept
  import opened PurchasesKept
  import opened LockOrder
  import opened Runs
  import opened Worker
  import DrawDays
  import Fees
  import Tickets

  /** A whole call: the step's effect and answer, or its error and nothing done. */
  ghost predicate Answers<T>(before: Db, step: Outcome<T>, r: Result<T, Error>, after: Db) {
    match step
    case Done(db, v) => r == Success(v) && after == db
    case Refused(e) => r == Failure(e) && after == before
  }

  /** The body of a transaction: as above, but an error leaves partial writes
      for the caller to roll back. */
  ghost predicate Attempts<T>(step: Outcome<T>, r: Result<T, Error>, after: Db) {
    match step
    case Done(db, v) => r == Success(v) && after == db
    case Refused(e) => r == Failure(e)
  }

  ghost predicate LawfulGoals(goals: seq<Goal>) {
    forall g :: 0 <= g < |goals| ==> GoalLaw(goals[g])
  }

  lemma {:induction false} InvIsLawful(db: Db)
    requires Inv(db)
    ensures LawfulGoals(db.goals) && AccountsLaw(db.books.accounts)
  {}

  function MovedAccounts(accounts: seq<Account>, from: nat, out: int, to: nat, into: int): seq<Account>
    requires from < |accounts| && to < |accounts|
  {
    accounts[from := accounts[from].(balance := accounts[from].balance - out)]
            [to := accounts[to].(balance := accounts[to].balance + into)]
  }

  lemma {:induction false} TransferShape(b: Books, from: nat, to: nat, out: int, into: int, refType: RefType, ref: nat,
                                         holding: Option<nat>, now: Stamp)
    requires from < |b.accounts| && to < |b.accounts| && from != to
    ensures Transfer(b, from, to, out, into, refType, ref, holding, now) ==
            Books(MovedAccounts(b.accounts, from, out, to, into),
                  b.ledger + [Entry(from, true, out, b.accounts[from].balance - out, refType, ref, holding, now),
                              Entry(to, false, into, b.accounts[to].balance + into, refType, ref, holding, now)])
  {}

  lemma {:induction false} GoalThenKapook(goals: seq<Goal>, g: nat, kapook: nat)
    requires ActiveGoal(goals, kapook) == Some(g)
    ensures var goal, both := [GoalLock(g)], [GoalLock(g), AccountLock(Kapook, kapook)];
            && CustomerPlan([], goals) && CustomerPlan(goal, goals) && CustomerPlan(both, goals)
            && With([], GoalLock(g)) == goal && With(goal, AccountLock(Kapook, kapook)) == both
            && With(both, AccountLock(Kapook, kapook)) == both
  {
    hide With, CustomerPlan;
    CustomerEmpty(goals);
    CustomerWith([], GoalLock(g), goals);
    assert [] + [GoalLock(g)] == [GoalLock(g)];
    CustomerWith([GoalLock(g)], AccountLock(Kapook, kapook), goals);
    assert [GoalLock(g)] + [AccountLock(Kapook, kapook)] == [GoalLock(g), AccountLock(Kapook, kapook)];
  }

  lemma {:induction false} ThenSavings(goals: seq<Goal>, g: nat, kapook: nat, savings: nat)
    requires CustomerPlan([GoalLock(g), AccountLock(Kapook, kapook)], goals)
    ensures var both := [GoalLock(g), AccountLock(Kapook, kapook)];
            var all := both + [AccountLock(Savings, savings)];
            && CustomerPlan(all, goals) && With(both, AccountLock(Savings, savings)) == all
            && With(all, AccountLock(Kapook, kapook)) == all
  {
    hide With, CustomerPlan;
    var both := [GoalLock(g), AccountLock(Kapook, kapook)];
    CustomerWith(both, AccountLock(Savings, savings), goals);
    HeldAlready(both + [AccountLock(Savings, savings)], AccountLock(Kapook, kapook), 1);
  }

  /** The locks of a deposit and of a withdrawal, whichever leg comes first. */
  lemma {:induction false} LocksRise(goals: seq<Goal>, g: nat, kapook: nat, savings: nat)
    requires ActiveGoal(goals, kapook) == Some(g)
    ensures var goal := With([], GoalLock(g));
            var first := With(goal, AccountLock(Kapook, kapook));
            var both := With(first, AccountLock(Savings, savings));
            && CustomerPlan([], goals) && CustomerPlan(goal, goals) && CustomerPlan(both, goals)
            && CustomerPlan(With(first, AccountLock(Kapook, kapook)), goals)
            && CustomerPlan(With(both, AccountLock(Kapook, kapook)), goals)
            && CustomerPlan(With(With(first, AccountLock(Kapook, kapook)), AccountLock(Savings, savings)), goals)
  {
    hide With, CustomerPlan;
    GoalThenKapook(goals, g, kapook);
    ThenSavings(goals, g, kapook, savings);
  }

  function Debited(accounts: seq<Account>, a: nat, amount: int): seq<Account>
    requires a < |accounts|
    ensures SameHolders(accounts, Debited(accounts, a, amount))
  {
    accounts[a := accounts[a].(balance := accounts[a].balance - amount)]
  }

  lemma {:induction false} MintIgnoresBalances(db: Db, books: Books, salak: nat, product: nat, amount: int, now: Stamp)
    requires product < |db.products| && product < |db.cursors| && ProductTerms(db.products[product])
    ensures Mint(db.(books := books), salak, product, amount, now) == Mint(db, salak, product, amount, now)
  {}

  lemma {:induction false} NetIsPositive(amount: int, charged: bool)
    requires amount > 0
    ensures Fees.ComputeWithdrawalFee(amount, charged).1 > 0
  {}

  lemma {:induction false} PurchaseWrites(db: Db, funding: nat, salak: nat, product: nat, amount: int, now: Stamp)
    requires Tables(db) && product < |db.products|
    requires funding < |db.books.accounts| && salak < |db.books.accounts| && funding != salak
    ensures Purchase(db, funding, salak, product, amount, now) ==
            if db.books.accounts[funding].balance < amount then Refused(InsufficientFunds)
            else
              match Mint(db, salak, product, amount, now)
              case Failure(e) => Refused(e)
              case Success((holding, next)) =>
                var paid := Debited(db.books.accounts, funding, amount);
                var funded, credited := paid[funding].balance, paid[salak].balance + amount;
                var h := |db.holdings|;
                Done(Db(Books(paid[salak := paid[salak].(balance := credited)],
                              db.books.ledger + [Entry(funding, true, amount, funded, BuySalakRef, db.nextId, Some(h),
                                  now),
                                                 Entry(salak, false, amount, credited, BuySalakRef, db.nextId,
                                                     Some(h), now)]),
                        db.goals, db.holdings + [holding], db.rows, db.products, db.cursors[product := next],
                        db.accepted, db.nextId + 1, now), h)
  {}

  /** The locks of a purchase, from savings or from a goal. */
  lemma {:induction false} PurchaseLocksRise(goals: seq<Goal>, before: seq<Lock>, funding: Lock, product: nat,
          salak: nat)
    requires CustomerPlan(before, goals) && (before == [] || (|before| == 1 && Rank(before[0]) == 0))
    requires 0 < Rank(funding) < 3 && GoalBefore(before, funding, goals)
    ensures var first := With(before, funding);
            var cursor := With(first, CursorLock(product));
            && CustomerPlan(first, goals) && CustomerPlan(cursor, goals)
            && CustomerPlan(With(cursor, AccountLock(Salak, salak)), goals)
  {
    hide With, CustomerPlan;
    var first := before + [funding];
    CustomerWith(before, funding, goals);
    CustomerWith(first, CursorLock(product), goals);
    CustomerWith(first + [CursorLock(product)], AccountLock(Salak, salak), goals);
  }

  lemma {:induction false} InvHasHoldings(db: Db)
    requires Inv(db)
    ensures HoldingsLaw(db.holdings, db.books.accounts, db.products, db.cursors)
  {}

  /** BuySalakForKapook as one step. */
  function KapookPurchase(db: Db, user: nat, kapook: nat, salak: nat, product: nat, amount: int,
          now: Stamp): Outcome<nat>
    requires Tables(db)
  {
    if kapook == salak then Refused(SameAccount)
    else
      match CheckAccount(db, user, kapook, Kapook)
      case Some(e) => Refused(e)
      case None =>
        match CheckAccount(db, user, salak, Salak)
        case Some(e) => Refused(e)
        case None =>
          match CheckPurchase(db, product, amount, now)
          case Some(e) => Refused(e)
          case None => Purchase(db, kapook, salak, product, amount, now)
  }

  predicate KapookPurchaseLocks(before: seq<Lock>, kapook: nat, product: nat, salak: nat, after: seq<Lock>) {
    var first := With(before, AccountLock(Kapook, kapook));
    var cursor := With(first, CursorLock(product));
    after == before || after == first || after == cursor || after == With(cursor, AccountLock(Salak, salak))
  }

  lemma {:induction false} BuyLocksRise(goals: seq<Goal>, g: nat, kapook: nat, product: nat, salak: nat)
    requires ActiveGoal(goals, kapook) == Some(g)
    ensures var goal := With([], GoalLock(g));
            && CustomerPlan([], goals) && CustomerPlan(goal, goals)
            && forall after :: KapookPurchaseLocks(goal, kapook, product, salak, after) ==> CustomerPlan(after, goals)
  {
    hide CustomerPlan;
    CustomerEmpty(goals);
    CustomerWith([], GoalLock(g), goals);
    PurchaseLocksRise(goals, With([], GoalLock(g)), AccountLock(Kapook, kapook), product, salak);
  }

  lemma {:induction false} PurchaseKeepsGoals(db: Db, funding: nat, salak: nat, product: nat, amount: int, now: Stamp)
    requires Tables(db) && product < |db.products|
    requires funding < |db.books.accounts| && salak < |db.books.accounts|
    ensures Purchase(db, funding, salak, product, amount, now).Done? ==>
              Purchase(db, funding, salak, product, amount, now).db.goals == db.goals
  {}

  // ---- settlements

  function PaidAccounts(accounts: seq<Account>, salak: nat, primary: nat, principal: int, interest: int): seq<Account>
    requires salak < |accounts| && primary < |accounts|
  {
    var paid := MovedAccounts(accounts, salak, principal, primary, principal);
    paid[primary := paid[primary].(balance := paid[primary].balance + interest)]
  }

  lemma {:induction false} PaidWrites(db: Db, h: nat, primary: nat, interest: int, now: Stamp)
    requires h < |db.holdings| && db.holdings[h].account < |db.books.accounts| && primary < |db.books.accounts|
    requires db.holdings[h].account != primary
    ensures var holding := db.holdings[h];
            var salak, principal := holding.account, holding.amount;
            var credited := db.books.accounts[primary].balance + principal;
            Paid(db, h, primary, interest, now) ==
            Db(Books(PaidAccounts(db.books.accounts, salak, primary, principal, interest),
                     db.books.ledger + [
                       Entry(salak, true, principal, db.books.accounts[salak].balance - principal, SalakMaturity,
                           db.nextId, Some(h), now),
                       Entry(primary, false, principal, credited, SalakMaturity, db.nextId, Some(h), now),
                       Entry(primary, false, interest, credited + interest, SalakMaturityInterest, db.nextId, Some(h),
                           now)]),
               db.goals, db.holdings[h := holding.(settledAt := Some(now))], db.rows, db.products, db.cursors,
               db.accepted, db.nextId + 1, now)
  {}

  /** A settlement finds its principal in the salak account and in its goal,
      and keeps every law. */
  lemma {:induction false} SettlementIsSafe(db: Db, h: nat, now: Stamp)
    requires Inv(db) && Ready(db) && Later(db, now)
    ensures Settle(db, h, now).Done? ==> Inv(Settle(db, h, now).db)
    ensures h < |db.holdings| && db.holdings[h].settledAt.None? ==>
              && db.books.accounts[db.holdings[h].account].kind == Salak
              && 0 < db.holdings[h].amount <= db.books.accounts[db.holdings[h].account].balance
              && (BuyRow(db.rows, h).Some? ==>
                 db.holdings[h].amount <= db.goals[db.rows[BuyRow(db.rows, h).value].goal].salak)
  {
    hide BooksLaw, AccountsLaw, ReferenceLaw, GoalsLaw, RowsLaw, CashLaw, SalakLaw, PaidOnceLaw, HoldingsLaw, FeeLaw;
    if Settle(db, h, now).Done? {
      SettleKeepsInv(db, h, now);
    }
    if h < |db.holdings| && db.holdings[h].settledAt.None? {
      SettlementIsCovered(db, h);
    }
  }

  /** The payout moves no goal and adds no kapook row. */
  lemma {:induction false} PaidTouches(db: Db, h: nat, primary: nat, interest: int, now: Stamp)
    requires Ready(db) && h < |db.holdings| && primary < |db.books.accounts| && db.holdings[h].account != primary
    ensures var paid := Paid(db, h, primary, interest, now);
            && paid.goals == db.goals && paid.rows == db.rows && |paid.holdings| == |db.holdings|
            && paid.holdings[h].amount == db.holdings[h].amount && Ready(paid)
            && (&& Settle(db, h, now).Done?
                && Settle(db, h, now).value == Settlement(db.holdings[h].amount, interest, primary) ==>
                  Settle(db, h, now).db == Expired(paid, h, now))
            && (BuyRow(db.rows, h).None? ==> Expired(paid, h, now) == paid)
  {}

  // ---- the worker

  /** A claim so far: the longest-waiting of the goals to choose from, in order. */
  ghost predicate IsBatch(goals: seq<Goal>, due: set<int>, claim: seq<int>) {
    && Distinct(claim) && Members(claim) <= due
    && (forall i, j :: 0 <= i < j < |claim| ==> ReachedBy(goals, claim[i], claim[j]))
    && (forall i, g :: 0 <= i < |claim| && g in due - Members(claim) ==> ReachedBy(goals, claim[i], g))
  }

  predicate NonNegative(claim: seq<int>) {
    forall i :: 0 <= i < |claim| ==> 0 <= claim[i]
  }

  function ClaimLocks(claim: seq<int>): seq<Lock>
    requires NonNegative(claim)
  {
    seq(|claim|, i requires 0 <= i < |claim| => GoalLock(claim[i]))
  }

  lemma {:induction false} BatchSnoc(goals: seq<Goal>, due: set<int>, claim: seq<int>, next: int)
    requires IsBatch(goals, due, claim) && next in due - Members(claim)
    requires forall g :: g in due - Members(claim) ==> ReachedBy(goals, next, g)
    ensures IsBatch(goals, due, claim + [next])
  {
    MembersSnoc(claim, next);
    var longer := claim + [next];
    forall i, j | 0 <= i < j < |longer| ensures longer[i] != longer[j] && ReachedBy(goals, longer[i], longer[j]) {
      assert longer[i] == claim[i] && claim[i] in Members(claim);
    }
    forall i, g | 0 <= i < |longer| && g in due - Members(longer) ensures ReachedBy(goals, longer[i], g) {
      assert g in due - Members(claim);
    }
  }

  lemma {:induction false} PassOfNone(db: Db, now: Stamp)
    requires Tables(db)
    ensures Pass(db, [], now) == (db, [])
  {}

  lemma {:induction false} PassStep(db: Db, claim: seq<int>, i: nat, now: Stamp)
    requires Tables(db) && Claimable(db, claim) && i < |claim|
    ensures var (mid, attempts) := Pass(db, claim[..i], now);
            var (after, attempt) := Worker.ProcessGoal(mid, claim[i], db.goals[claim[i]], now);
            && Pass(db, claim[..i + 1], now) == (after, attempts + [attempt])
            && Tables(after) && after.clock == now
            && |mid.goals| == |db.goals| && |mid.books.accounts| == |db.books.accounts|
  {
    hide Worker.ProcessGoal;
    assert claim[..i + 1][..i] == claim[..i];
    ProcessKeepsTables(Pass(db, claim[..i], now).0, claim[i], db.goals[claim[i]], now);
  }

  class Bank {
    var accounts: seq<Account>
    var ledger: seq<Entry>
    var goals: seq<Goal>
    var holdings: seq<Holding>
    var rows: seq<Row>
    var products: seq<Product>
    var cursors: seq<Tickets.Cursor>
    var accepted: set<nat>
    var nextId: nat
    var clock: Stamp

    /** The FOR UPDATE locks of the current transaction, in the order taken. */
    var locks: seq<Lock>

    function State(): Db
      reads this
    {
      Db(Books(accounts, ledger), goals, holdings, rows, products, cursors, accepted, nextId, clock)
    }

    ghost predicate Valid()
      reads this
    {
      Inv(State())
    }

    constructor (start: Stamp)
      ensures Valid() && State() == Empty(start)
    {
      hide Inv;
      accounts, ledger, goals, holdings, rows, products, cursors := [], [], [], [], [], [], [];
      accepted, nextId, clock, locks := {}, 0, start, [];
      new;
      EmptyHasInv(start);
    }

    // ---- transactions

    method Lock(l: Lock)
      modifies `locks
      ensures locks == With(old(locks), l)
    {
      if l !in locks {
        locks := locks + [l];
      }
    }

    /** ROLLBACK, or ROLLBACK TO a savepoint. */
    method Restore(saved: Db)
      modifies this
      ensures State() == saved && locks == old(locks)
    {
      accounts, ledger := saved.books.accounts, saved.books.ledger;
      goals, holdings, rows := saved.goals, saved.holdings, saved.rows;
      products, cursors := saved.products, saved.cursors;
      accepted, nextId, clock := saved.accepted, saved.nextId, saved.clock;
    }

    method FreshId() returns (id: nat)
      modifies `nextId
      ensures id == old(nextId) && nextId == old(nextId) + 1
    {
      id := nextId;
      nextId := nextId + 1;
    }

    // ---- the account service

    method LockForUpdate(a: nat) returns (r: Result<Account, Error>)
      modifies `locks
      ensures r == if a < |accounts| then Success(accounts[a]) else Failure(AccountNotFound)
      ensures locks == if a < |accounts| then With(old(locks), AccountLock(accounts[a].kind, a)) else old(locks)
    {
      if a >= |accounts| {
        return Failure(AccountNotFound);
      }
      Lock(AccountLock(accounts[a].kind, a));
      return Success(accounts[a]);
    }

    method Debit(a: nat, amount: int) returns (r: Result<int, Error>)
      modifies `accounts, `locks
      ensures locks == if a < |old(accounts)| then With(old(locks), AccountLock(old(accounts)[a].kind, a))
              else old(locks)
      ensures r.Success? <==> a < |old(accounts)| && amount <= old(accounts)[a].balance
      ensures r.Success? ==> r.value == old(accounts)[a].balance - amount
      ensures r.Success? ==> accounts == old(accounts)[a := old(accounts)[a].(balance := r.value)]
      ensures r.Failure? ==> accounts == old(accounts)
      ensures r.Failure? ==> r.error == if a < |accounts| then InsufficientFunds else AccountNotFound
    {
      var account :- LockForUpdate(a);
      var balance := account.balance - amount;
      if balance < 0 {
        return Failure(InsufficientFunds);
      }
      accounts := accounts[a := account.(balance := balance)];
      return Success(balance);
    }

    method Credit(a: nat, amount: int) returns (r: Result<int, Error>)
      modifies `accounts, `locks
      ensures locks == if a < |old(accounts)| then With(old(locks), AccountLock(old(accounts)[a].kind, a))
              else old(locks)
      ensures r.Success? <==> a < |old(accounts)|
      ensures r.Success? ==> r.value == old(accounts)[a].balance + amount
      ensures r.Success? ==> accounts == old(accounts)[a := old(accounts)[a].(balance := r.value)]
      ensures r.Failure? ==> accounts == old(accounts) && r.error == AccountNotFound
    {
      var account :- LockForUpdate(a);
      var balance := account.balance + amount;
      accounts := accounts[a := account.(balance := balance)];
      return Success(balance);
    }

    /** INSERT of one account; the table's CHECKs and its index of primary
        accounts may refuse it, and a kapook or salak account opens empty. */
    method CreateAccount(user: nat, kind: Kind, opening: int, primary: bool, now: Stamp) returns (r: Result<nat, Error>)
      modifies `accounts, `clock
      ensures Answers(old(State()), OpenAccount(old(State()), user, kind, opening, primary, now), r, State())
    {
      if opening < 0 || (kind != Savings && (primary || opening != 0)) {
        return Failure(CheckViolated);
      }
      if primary && Primary(accounts, user).Some? {
        return Failure(CheckViolated);
      }
      accounts := accounts + [Account(user, kind, opening, opening, primary)];
      clock := now;
      return Success(|accounts| - 1);
    }

    /** The customer's three accounts, or none of them. */
    method Register(user: nat, opening: int, now: Stamp) returns (r: Result<(nat, nat, nat), Error>)
      requires Valid() && Later(State(), now)
      modifies this
      ensures Valid()
      ensures Answers(old(State()), Steps.Register(old(State()), user, opening, now), r, State())
    {
      hide Inv, OpenAccount;
      ghost var _, _ := RegisterIsARun(State(), user, opening, now);
      var saved := State();
      var savings := CreateAccount(user, Savings, opening, true, now);
      if savings.Failure? {
        Restore(saved);
        return Failure(savings.error);
      }
      var salak := CreateAccount(user, Salak, 0, false, now);
      if salak.Failure? {
        Restore(saved);
        return Failure(salak.error);
      }
      var kapook := CreateAccount(user, Kapook, 0, false, now);
      if kapook.Failure? {
        Restore(saved);
        return Failure(kapook.error);
      }
      return Success((savings.value, salak.value, kapook.value));
    }

    // ---- the goal service

    /** The two legs of a deposit or a withdrawal, the kapook account locked
        first whichever leg it plays. Answers the balances they leave. */
    method MoveCash(kapook: nat, from: nat, out: int, to: nat, into: int) returns (r: Result<(int, int), Error>)
      requires kapook < |accounts| && from < |accounts| && to < |accounts| && from != to &&
               (kapook == from || kapook == to)
      modifies `accounts, `locks
      ensures locks == With(With(old(locks), AccountLock(old(accounts)[kapook].kind, kapook)),
                            AccountLock(old(accounts)[from].kind, from))
           || locks == With(With(With(old(locks), AccountLock(old(accounts)[kapook].kind, kapook)),
                                 AccountLock(old(accounts)[from].kind, from)), AccountLock(old(accounts)[to].kind, to))
      ensures r.Success? <==> out <= old(accounts)[from].balance
      ensures r.Success? ==> r.value == (old(accounts)[from].balance - out, old(accounts)[to].balance + into)
      ensures r.Success? ==> accounts == MovedAccounts(old(accounts), from, out, to, into)
      ensures r.Failure? ==> r.error == InsufficientFunds
    {
      var _ := LockForUpdate(kapook);
      var after :- Debit(from, out);
      var credited := Credit(to, into);
      return Success((after, credited.value));
    }

    method FindActiveForUpdate(account: nat) returns (g: Option<nat>)
      modifies `locks
      ensures g == ActiveGoal(goals, account)
      ensures locks == if g.Some? then With(old(locks), GoalLock(g.value)) else old(locks)
    {
      g := ActiveGoal(goals, account);
      if g.Some? {
        Lock(GoalLock(g.value));
      }
    }

    /** UPDATE of one goal row. The requires are the table's CHECKs, which no
        caller is ever stopped by. */
    method UpdateGoal(g: nat, goal: Goal)
      requires g < |goals| && 0 < goal.target && 0 <= goal.salak <= goal.saving <= goal.target
      modifies `goals
      ensures goals == old(goals)[g := goal]
    {
      goals := goals[g := goal];
    }

    /** One kapook_transactions row and its debit and credit entries, the row's
        id being their shared reference. No caller trips the CHECKs on amounts. */
    method RecordKapookLedgerPair(row: Row, debited: nat, debit: int, debitAfter: int,
                                  credited: nat, credit: int, creditAfter: int, now: Stamp)
      requires row.amount > 0 && debit > 0 && credit > 0
      modifies `rows, `ledger, `nextId
      ensures rows == old(rows) + [row.(id := old(nextId))] && nextId == old(nextId) + 1
      ensures ledger == old(ledger) + [
                Entry(debited, true, debit, debitAfter, KapookTransaction, old(nextId), None, now),
                Entry(credited, false, credit, creditAfter, KapookTransaction, old(nextId), None, now)]
    {
      var ref := FreshId();
      rows := rows + [row.(id := ref)];
      ledger := ledger + [Entry(debited, true, debit, debitAfter, KapookTransaction, ref, None, now)];
      ledger := ledger + [Entry(credited, false, credit, creditAfter, KapookTransaction, ref, None, now)];
    }

    method CreateGoal(user: nat, account: nat, product: nat, target: int, now: Stamp) returns (r: Result<nat, Error>)
      requires Valid() && Later(State(), now)
      modifies this
      ensures Valid()
      ensures forall p :: 0 <= p < |old(products)| ==> ProductTerms(old(products)[p])
      ensures Answers(old(State()), Steps.CreateGoal(old(State()), user, account, product, target, now), r, State())
    {
      hide Inv;
      InvIsReady(State());
      ghost var step := Steps.CreateGoal(State(), user, account, product, target, now);
      if step.Done? {
        CreateGoalKeepsInv(State(), user, account, product, target, now);
      }
      var bad := CheckAccount(State(), user, account, Kapook);
      if bad.Some? {
        return Failure(bad.value);
      }
      if user !in accepted {
        return Failure(TermsNotAccepted);
      }
      if ActiveGoal(goals, account).Some? {
        return Failure(GoalAlreadyExists);
      }
      bad := CheckProduct(products, product);
      if bad.Some? {
        return Failure(bad.value);
      }
      bad := ValidatePurchase(products[product], target);
      if bad.Some? {
        return Failure(bad.value);
      }
      goals := goals + [Goal(account, product, target, 0, 0, true, None, None, 0, None, None, now)];
      clock := now;
      return Success(|goals| - 1);
    }

    method Deposit(user: nat, kapook: nat, savings: nat, amount: int, now: Stamp) returns (r: Result<nat, Error>)
      requires Valid() && Later(State(), now)
      modifies this
      ensures Valid() && CustomerPlan(locks, old(goals))
      ensures Answers(old(State()), Steps.Deposit(old(State()), user, kapook, savings, amount, now), r, State())
    {
      hide Inv;
      ghost var step := Steps.Deposit(State(), user, kapook, savings, amount, now);
      if step.Done? {
        DepositKeepsInv(State(), user, kapook, savings, amount, now);
      }
      InvIsLawful(State());
      locks := [];
      if kapook == savings {
        return Failure(SameAccount);
      }
      var bad := CheckAccount(State(), user, kapook, Kapook);
      if bad.Some? {
        return Failure(bad.value);
      }
      bad := CheckAccount(State(), user, savings, Savings);
      if bad.Some? {
        return Failure(bad.value);
      }
      if amount <= 0 {
        return Failure(AmountNotPositive);
      }
      var saved := State();
      r := DepositInTx(user, kapook, savings, amount, now);
      if r.Failure? {
        Restore(saved);
      }
    }

    /** Deposit's transaction. */
    method DepositInTx(ghost user: nat, kapook: nat, savings: nat, amount: int, now: Stamp) returns (r: Result<nat,
            Error>)
      requires LawfulGoals(goals) && locks == [] && kapook != savings && amount > 0
      requires CheckAccount(State(), user, kapook, Kapook).None? && CheckAccount(State(), user, savings, Savings).None?
      modifies this
      ensures CustomerPlan(locks, old(goals))
      ensures Attempts(Steps.Deposit(old(State()), user, kapook, savings, amount, now), r, State())
    {
      hide With;
      var found := FindActiveForUpdate(kapook);
      if found.None? {
        return Failure(NoActiveGoal);
      }
      var g := found.value;
      LocksRise(goals, g, kapook, savings);
      if goals[g].saving + amount > goals[g].target {
        return Failure(DepositExceedsTarget);
      }
      r := WriteDeposit(g, kapook, savings, amount, now);
    }

    /** The writes of a deposit. The guard against stamping a reached goal again
        is shown never to matter. */
    method WriteDeposit(g: nat, kapook: nat, savings: nat, amount: int, now: Stamp) returns (r: Result<nat, Error>)
      requires g < |goals| && goals[g].active && LawfulGoals(goals) && amount > 0 &&
               goals[g].saving + amount <= goals[g].target
      requires kapook < |accounts| && savings < |accounts| && kapook != savings
      requires accounts[kapook].kind == Kapook && accounts[savings].kind == Savings
      modifies this
      ensures locks == With(With(old(locks), AccountLock(Kapook, kapook)), AccountLock(Savings, savings))
           || locks == With(With(With(old(locks), AccountLock(Kapook, kapook)), AccountLock(Savings, savings)),
               AccountLock(Kapook, kapook))
      ensures if old(accounts)[savings].balance < amount then r == Failure(InsufficientFunds)
              else r == Success(g) && State() == Deposited(old(State()), kapook, savings, g, amount, now)
    {
      hide Transfer, MovedAccounts, With;
      TransferShape(Books(accounts, ledger), savings, kapook, amount, amount, KapookTransaction, nextId, None, now);
      var goal := goals[g];
      var saving := goal.saving + amount;
      var after :- MoveCash(kapook, savings, amount, kapook, amount);
      UpdateGoal(g, goals[g].(saving := saving));
      assert goal.reachedAt.None?;
      if goal.reachedAt.None? && saving == goal.target {
        UpdateGoal(g, goals[g].(reachedAt := Some(now)));
      }
      assert goals == old(goals)[g := DepositGoal(goal, amount, now)];
      RecordKapookLedgerPair(Row(0, DepositRow, amount, kapook, g, Some(savings), None, None, now),
                             savings, amount, after.0, kapook, amount, after.1, now);
      clock := now;
      return Success(g);
    }

    method Withdraw(user: nat, kapook: nat, amount: int, now: Stamp) returns (r: Result<Withdrawal, Error>)
      requires Valid() && Later(State(), now)
      modifies this
      ensures Valid() && CustomerPlan(locks, old(goals))
      ensures Answers(old(State()), Steps.Withdraw(old(State()), user, kapook, amount, now), r, State())
    {
      hide Inv;
      ghost var step := Steps.Withdraw(State(), user, kapook, amount, now);
      if step.Done? {
        WithdrawKeepsInv(State(), user, kapook, amount, now);
      }
      InvIsLawful(State());
      locks := [];
      var bad := CheckAccount(State(), user, kapook, Kapook);
      if bad.Some? {
        return Failure(bad.value);
      }
      var primary := Primary(accounts, user);
      if primary.None? {
        return Failure(NoPrimaryAccount);
      }
      if amount <= 0 {
        return Failure(AmountNotPositive);
      }
      var saved := State();
      r := WithdrawInTx(user, kapook, primary.value, amount, now);
      if r.Failure? {
        Restore(saved);
      }
    }

    /** Withdraw's transaction. */
    method WithdrawInTx(ghost user: nat, kapook: nat, savings: nat, amount: int,
            now: Stamp) returns (r: Result<Withdrawal, Error>)
      requires LawfulGoals(goals) && AccountsLaw(accounts) && locks == [] && amount > 0
      requires CheckAccount(State(), user, kapook, Kapook).None? && Primary(accounts, user) == Some(savings)
      modifies this
      ensures CustomerPlan(locks, old(goals))
      ensures Attempts(Steps.Withdraw(old(State()), user, kapook, amount, now), r, State())
    {
      hide With, Window, CountWithdrawals, Fees.ComputeWithdrawalFee;
      var found := FindActiveForUpdate(kapook);
      if found.None? {
        return Failure(NoActiveGoal);
      }
      var g := found.value;
      LocksRise(goals, g, kapook, savings);
      var available := goals[g].Available();
      if amount > available {
        return Failure(WithdrawalExceedsBalance);
      }
      var closes := false;
      if goals[g].reachedAt.Some? {
        if amount < available {
          return Failure(WithdrawalMustBeFull);
        }
        closes := true;
      }
      var start, end := WithdrawalWindow(goals[g].createdAt, now);
      var used := CountWithdrawals(rows, g, start, end);
      var charged := used >= FREE_WITHDRAWALS;
      r := WriteWithdrawal(g, kapook, savings, amount, charged, closes, now);
    }

    method WriteWithdrawal(g: nat, kapook: nat, savings: nat, amount: int, charged: bool, closes: bool, now: Stamp)
      returns (r: Result<Withdrawal, Error>)
      requires g < |goals| && LawfulGoals(goals) && 0 < amount <= goals[g].Available() &&
               closes == goals[g].reachedAt.Some?
      requires kapook < |accounts| && savings < |accounts| && accounts[kapook].kind == Kapook &&
               accounts[savings].kind == Savings
      modifies this
      ensures locks == With(With(old(locks), AccountLock(Kapook, kapook)), AccountLock(Kapook, kapook))
           || locks == With(With(With(old(locks), AccountLock(Kapook, kapook)), AccountLock(Kapook, kapook)),
               AccountLock(Savings, savings))
      ensures if old(accounts)[kapook].balance < amount then r == Failure(InsufficientFunds)
              else
                var (fee, net) := Fees.ComputeWithdrawalFee(amount, charged);
                && r == Success(Withdrawal(g, charged, fee, net, closes))
                && State() == Withdrawn(old(State()), kapook, savings, g, amount, charged, now)
    {
      hide Transfer, MovedAccounts, With, Fees.ComputeWithdrawalFee;
      var goal := goals[g];
      var (fee, net) := Fees.ComputeWithdrawalFee(amount, charged);
      NetIsPositive(amount, charged);
      TransferShape(Books(accounts, ledger), kapook, savings, amount, net, KapookTransaction, nextId, None, now);
      var after :- MoveCash(kapook, kapook, amount, savings, net);
      UpdateGoal(g, goals[g].(saving := goal.saving - amount, active := !closes));
      var kind := if charged then WithdrawWithFeeRow else WithdrawRow;
      RecordKapookLedgerPair(Row(0, kind, amount, kapook, g, Some(savings), None, None, now),
                             kapook, amount, after.0, savings, net, after.1, now);
      clock := now;
      return Success(Withdrawal(g, charged, fee, net, closes));
    }

    // ---- the ticket cursor and the holdings

    /** The cursor step, locked per product. The cursor's CHECK refuses the
        number 10,000,000 that an exact block fill would store. */
    method ReserveTicketRange(product: nat, units: int) returns (r: Result<Tickets.Grant, Error>)
      requires product < |cursors| && units > 0 && Tickets.ValidCursor(cursors[product])
      modifies `cursors, `locks
      ensures locks == With(old(locks), CursorLock(product)) || (r.Failure? && locks == old(locks))
      ensures match Tickets.Reserve(old(cursors)[product], units)
              case Failure(e) => r == Failure(CannotReserve(e))
              case Success((range, next)) =>
                if next.number > LAST_TICKET then r == Failure(CheckViolated)
                else r == Success(range) && cursors == old(cursors)[product := next]
    {
      if units > Tickets.TICKETS_PER_LETTER {
        return Failure(CannotReserve(Tickets.UnitsExceedLetter));
      }
      Lock(CursorLock(product));
      var letter, number := cursors[product].letter, cursors[product].number;
      var remaining := Tickets.TICKETS_PER_LETTER - number;
      if units > remaining {
        var next := Tickets.NextLetter([letter]);
        if next.Failure? {
          return Failure(CannotReserve(Tickets.NoNextLetter(next.error)));
        }
        letter, number := next.value, 0;
      }
      var start := number;
      var end := start + units - 1;
      if end + 1 > LAST_TICKET {
        return Failure(CheckViolated);
      }
      cursors := cursors[product := Tickets.Cursor(letter, end + 1)];
      return Success(Tickets.Grant(letter, start, end));
    }

    /** INSERT of one holding. The range's CHECK may refuse it; the exclusion
        constraint against overlapping ranges, which is the requires, never does. */
    method InsertHolding(h: Holding) returns (r: Result<nat, Error>)
      requires forall i :: 0 <= i < |holdings| ==> Disjoint(holdings[i], h)
      modifies `holdings
      ensures if h.end <= h.start then r == Failure(CheckViolated)
              else r == Success(|old(holdings)|) && holdings == old(holdings) + [h]
    {
      if h.end <= h.start {
        return Failure(CheckViolated);
      }
      holdings := holdings + [h];
      return Success(|holdings| - 1);
    }

    method MintHolding(salak: nat, product: nat, amount: int, now: Stamp) returns (r: Result<nat, Error>)
      requires HoldingsLaw(holdings, accounts, products, cursors)
      requires product < |products| && salak < |accounts| && accounts[salak].kind == Salak && amount > 0
      modifies `cursors, `holdings, `locks
      ensures locks == With(old(locks), CursorLock(product)) || (r.Failure? && locks == old(locks))
      ensures match old(Mint(State(), salak, product, amount, now))
              case Failure(e) => r == Failure(e)
              case Success((holding, next)) =>
                && r == Success(|old(holdings)|)
                && holdings == old(holdings) + [holding] && cursors == old(cursors)[product := next]
    {
      hide With;
      ghost var before := State();
      if Mint(before, salak, product, amount, now).Success? {
        MintedIsFresh(before, salak, product, amount, now);
      }
      var units := amount / products[product].unitPrice;
      if units <= 0 {
        return Failure(NoWholeUnits);
      }
      var range :- ReserveTicketRange(product, units);
      r := InsertHolding(Holding(salak, product, units, range.letter, range.start, range.end, amount, Day(now), None));
    }

    // ---- purchases

    method RecordPurchasePair(funding: nat, fundingAfter: int, salak: nat, salakAfter: int, amount: int, h: nat,
            now: Stamp)
      modifies `ledger, `nextId, `clock
      ensures nextId == old(nextId) + 1 && clock == now
      ensures ledger == old(ledger) + [
                Entry(funding, true, amount, fundingAfter, BuySalakRef, old(nextId), Some(h), now),
                Entry(salak, false, amount, salakAfter, BuySalakRef, old(nextId), Some(h), now)]
    {
      var ref := FreshId();
      ledger := ledger + [Entry(funding, true, amount, fundingAfter, BuySalakRef, ref, Some(h), now)];
      ledger := ledger + [Entry(salak, false, amount, salakAfter, BuySalakRef, ref, Some(h), now)];
      clock := now;
    }

    /** What follows the debit: mint the holding, credit the salak account with
        it, write the pair. */
    method CompletePurchase(funding: nat, fundingAfter: int, salak: nat, product: nat, amount: int, now: Stamp)
      returns (r: Result<nat, Error>)
      requires HoldingsLaw(holdings, accounts, products, cursors)
      requires product < |products| && salak < |accounts| && accounts[salak].kind == Salak && amount > 0
      modifies this
      ensures var cursor := With(old(locks), CursorLock(product));
              locks == With(cursor, AccountLock(Salak, salak)) ||
                  (r.Failure? && (locks == old(locks) || locks == cursor))
      ensures match old(Mint(State(), salak, product, amount, now))
              case Failure(e) => r == Failure(e)
              case Success((holding, next)) =>
                var h, credited := |old(holdings)|, old(accounts)[salak].balance + amount;
                && r == Success(h)
                && State() == Db(Books(old(accounts)[salak := old(accounts)[salak].(balance := credited)],
                                       old(ledger) + [Entry(funding, true, amount, fundingAfter, BuySalakRef,
                                           old(nextId), Some(h), now),
                                                      Entry(salak, false, amount, credited, BuySalakRef, old(nextId),
                                                          Some(h), now)]),
                                 old(goals), old(holdings) + [holding], old(rows), old(products),
                                     old(cursors)[product := next],
                                 old(accepted), old(nextId) + 1, now)
    {
      hide With, Mint, HoldingsLaw;
      var h :- MintHolding(salak, product, amount, now);
      var credited := Credit(salak, amount);
      RecordPurchasePair(funding, fundingAfter, salak, credited.value, amount, h, now);
      return Success(h);
    }

    /** Debit the funding account, mint, credit the salak account, write the pair. */
    method MintAndSettle(funding: nat, salak: nat, product: nat, amount: int, now: Stamp) returns (r: Result<nat,
            Error>)
      requires HoldingsLaw(holdings, accounts, products, cursors) && Tables(State())
      requires funding < |accounts| && salak < |accounts| && funding != salak && accounts[salak].kind == Salak
      requires product < |products| && amount > 0
      modifies this
      ensures var first := With(old(locks), AccountLock(old(accounts)[funding].kind, funding));
              var cursor := With(first, CursorLock(product));
              locks == first || locks == cursor || locks == With(cursor, AccountLock(Salak, salak))
      ensures Attempts(old(Purchase(State(), funding, salak, product, amount, now)), r, State())
    {
      hide Purchase, With, Mint, HoldingsLaw;
      PurchaseWrites(State(), funding, salak, product, amount, now);
      BalancesKeepHoldings(holdings, accounts, Debited(accounts, funding, amount), products, cursors);
      MintIgnoresBalances(State(), Books(Debited(accounts, funding, amount), ledger), salak, product, amount, now);
      var fundingAfter :- Debit(funding, amount);
      r := CompletePurchase(funding, fundingAfter, salak, product, amount, now);
    }

    /** The checks BuySalak and BuySalakForKapook share: the salak account, the
        product, its purchase rules and its draw days. */
    method ValidateSalakSide(user: nat, salak: nat, product: nat, amount: int, now: Stamp) returns (bad: Option<Error>)
      requires Tables(State())
      ensures bad == match CheckAccount(State(), user, salak, Salak)
                     case Some(e) => Some(e)
                     case None => CheckPurchase(State(), product, amount, now)
    {
      bad := CheckAccount(State(), user, salak, Salak);
      if bad.Some? {
        return;
      }
      bad := CheckProduct(products, product);
      if bad.Some? {
        return;
      }
      bad := ValidatePurchase(products[product], amount);
      if bad.Some? {
        return;
      }
      if IsDrawDay(products[product], Day(now)) {
        bad := Some(DrawDay);
      }
    }

    method BuySalak(user: nat, funding: nat, salak: nat, product: nat, amount: int,
            now: Stamp) returns (r: Result<nat, Error>)
      requires Valid() && Later(State(), now)
      modifies this
      ensures Valid() && CustomerPlan(locks, old(goals)) && Tables(old(State()))
      ensures Answers(old(State()), Steps.BuySalak(old(State()), user, funding, salak, product, amount, now), r,
              State())
    {
      hide Inv, Purchase, With, Mint, HoldingsLaw;
      InvIsReady(State());
      InvHasHoldings(State());
      ghost var step := Steps.BuySalak(State(), user, funding, salak, product, amount, now);
      if step.Done? {
        BuySalakKeepsInv(State(), user, funding, salak, product, amount, now);
      }
      locks := [];
      if funding == salak {
        return Failure(SameAccount);
      }
      var bad := CheckAccount(State(), user, funding, Savings);
      if bad.Some? {
        return Failure(bad.value);
      }
      bad := ValidateSalakSide(user, salak, product, amount, now);
      if bad.Some? {
        return Failure(bad.value);
      }
      var saved := State();
      CustomerEmpty(goals);
      PurchaseLocksRise(goals, [], AccountLock(Savings, funding), product, salak);
      r := MintAndSettle(funding, salak, product, amount, now);
      if r.Failure? {
        Restore(saved);
      }
    }

    /** The kapook-funded purchase, inside the caller's transaction. */
    method BuySalakForKapook(user: nat, kapook: nat, salak: nat, product: nat, amount: int, now: Stamp)
      returns (r: Result<nat, Error>)
      requires HoldingsLaw(holdings, accounts, products, cursors) && Tables(State())
      modifies this
      ensures KapookPurchaseLocks(old(locks), kapook, product, salak, locks)
      ensures Attempts(KapookPurchase(old(State()), user, kapook, salak, product, amount, now), r, State())
    {
      hide Purchase, With, Mint, HoldingsLaw;
      if kapook == salak {
        return Failure(SameAccount);
      }
      var bad := CheckAccount(State(), user, kapook, Kapook);
      if bad.Some? {
        return Failure(bad.value);
      }
      bad := ValidateSalakSide(user, salak, product, amount, now);
      if bad.Some? {
        return Failure(bad.value);
      }
      r := MintAndSettle(kapook, salak, product, amount, now);
    }

    /** The goal's side of a purchase, and its buy_salak row. */
    method ConvertGoal(g: nat, kapook: nat, amount: int, h: nat, automatic: bool, now: Stamp) returns (completed: bool)
      requires g < |goals| && GoalLaw(goals[g]) && 0 < amount <= goals[g].Available()
      modifies `goals, `rows, `nextId
      ensures State() == Converted(old(State()), g, kapook, amount, h, automatic, now)
      ensures completed == (old(goals)[g].salak + amount >= old(goals)[g].target)
    {
      var salak := goals[g].salak + amount;
      completed := !(salak < goals[g].target);
      UpdateGoal(g, goals[g].(salak := salak, active := !completed, deferredUntil := None,
                              attempts := 0, lastError := None, lastAttempt := None));
      var id := FreshId();
      rows := rows + [Row(id, BuySalakRow, amount, kapook, g, None, Some(h), Some(automatic), now)];
    }

    method BuyFromGoalCore(user: nat, kapook: nat, salak: nat, amount: int, automatic: bool, now: Stamp)
      returns (r: Result<Bought, Error>)
      requires LawfulGoals(goals) && HoldingsLaw(holdings, accounts, products, cursors) && Tables(State())
      requires kapook != salak && amount > 0
      requires CheckAccount(State(), user, kapook, Kapook).None? && CheckAccount(State(), user, salak, Salak).None?
      modifies this
      ensures old(locks) == [] ==> CustomerPlan(locks, old(goals))
      ensures Attempts(Steps.BuyFromGoal(old(State()), user, kapook, salak, amount, automatic, now), r, State())
    {
      hide Purchase, With, Mint, HoldingsLaw, Converted;
      var found := FindActiveForUpdate(kapook);
      if found.None? {
        return Failure(NoActiveGoal);
      }
      var g := found.value;
      BuyLocksRise(goals, g, kapook, goals[g].product, salak);
      var bad := CheckProduct(products, goals[g].product);
      if bad.Some? {
        return Failure(bad.value);
      }
      var available := goals[g].Available();
      if available < products[goals[g].product].minPurchase {
        return Failure(BalanceBelowMinimum);
      }
      bad := ValidatePurchase(products[goals[g].product], amount);
      if bad.Some? {
        return Failure(bad.value);
      }
      if amount > available {
        return Failure(BuyExceedsBalance);
      }
      PurchaseKeepsGoals(State(), kapook, salak, goals[g].product, amount, now);
      var h :- BuySalakForKapook(user, kapook, salak, goals[g].product, amount, now);
      var completed := ConvertGoal(g, kapook, amount, h, automatic, now);
      return Success(Bought(g, h, completed));
    }

    /** BuyFromGoal's transaction, and BuyFromGoalInTx's savepoint. */
    method BuyInTransaction(user: nat, kapook: nat, salak: nat, amount: int, automatic: bool, now: Stamp)
      returns (r: Result<Bought, Error>)
      requires Valid() && Later(State(), now)
      modifies this
      ensures Valid() && Tables(old(State())) && (old(locks) == [] ==> CustomerPlan(locks, old(goals)))
      ensures Answers(old(State()), Steps.BuyFromGoal(old(State()), user, kapook, salak, amount, automatic, now), r,
              State())
    {
      hide Inv, BuyFrom, HoldingsLaw;
      InvIsReady(State());
      InvHasHoldings(State());
      InvIsLawful(State());
      ghost var step := Steps.BuyFromGoal(State(), user, kapook, salak, amount, automatic, now);
      if step.Done? {
        BuyFromGoalKeepsInv(State(), user, kapook, salak, amount, automatic, now);
      }
      if kapook == salak {
        return Failure(SameAccount);
      }
      var bad := CheckAccount(State(), user, kapook, Kapook);
      if bad.Some? {
        return Failure(bad.value);
      }
      bad := CheckAccount(State(), user, salak, Salak);
      if bad.Some? {
        return Failure(bad.value);
      }
      if amount <= 0 {
        return Failure(AmountNotPositive);
      }
      var saved := State();
      r := BuyFromGoalCore(user, kapook, salak, amount, automatic, now);
      if r.Failure? {
        Restore(saved);
      }
    }

    method BuyFromGoal(user: nat, kapook: nat, salak: nat, amount: int, now: Stamp) returns (r: Result<Bought, Error>)
      requires Valid() && Later(State(), now)
      modifies this
      ensures Valid() && CustomerPlan(locks, old(goals)) && Tables(old(State()))
      ensures Answers(old(State()), Steps.BuyFromGoal(old(State()), user, kapook, salak, amount, false, now), r,
              State())
    {
      hide Inv, Steps.BuyFromGoal;
      locks := [];
      r := BuyInTransaction(user, kapook, salak, amount, false, now);
    }

    // ---- settlement

    /** The three balance moves of a payout, the salak account locked first. */
    method PayLegs(salak: nat, primary: nat, principal: int, interest: int) returns (r: Result<(int, int, int), Error>)
      requires salak < |accounts| && primary < |accounts| && salak != primary
      modifies `accounts, `locks
      ensures r.Success? <==> principal <= old(accounts)[salak].balance
      ensures r.Failure? ==> r.error == InsufficientFunds
      ensures r.Success? ==>
                && locks == With(With(old(locks), AccountLock(old(accounts)[salak].kind, salak)),
                                 AccountLock(old(accounts)[primary].kind, primary))
                && accounts == PaidAccounts(old(accounts), salak, primary, principal, interest)
      ensures r.Success? ==>
                r.value == (old(accounts)[salak].balance - principal, old(accounts)[primary].balance + principal,
                            old(accounts)[primary].balance + principal + interest)
    {
      hide With;
      WithTwice(With(locks, AccountLock(accounts[salak].kind, salak)), AccountLock(accounts[primary].kind, primary));
      var salakAfter :- Debit(salak, principal);
      var principalAfter := Credit(primary, principal);
      var interestAfter := Credit(primary, interest);
      return Success((salakAfter, principalAfter.value, interestAfter.value));
    }

    /** The loop over the payout's entries; the amount CHECK refuses interest
        that rounds to nothing. */
    method WriteEntries(entries: seq<Entry>) returns (r: Result<(), Error>)
      modifies `ledger
      ensures r == if forall i :: 0 <= i < |entries| ==>
              entries[i].amount > 0 then Success(()) else Failure(CheckViolated)
      ensures r.Success? ==> ledger == old(ledger) + entries
    {
      for i := 0 to |entries|
        invariant ledger == old(ledger) + entries[..i]
        invariant forall k :: 0 <= k < i ==> entries[k].amount > 0
      {
        if entries[i].amount <= 0 {
          return Failure(CheckViolated);
        }
        ledger := ledger + [entries[i]];
      }
      return Success(());
    }

    method PayOut(h: nat, primary: nat, interest: int, now: Stamp) returns (r: Result<Settlement, Error>)
      requires h < |holdings| && holdings[h].account < |accounts| && primary < |accounts| &&
               holdings[h].account != primary
      requires holdings[h].amount > 0
      modifies this
      ensures r.Success? ==>
                locks == With(With(old(locks),
                    AccountLock(old(accounts)[old(holdings)[h].account].kind, old(holdings)[h].account)),
                              AccountLock(old(accounts)[primary].kind, primary))
      ensures if old(accounts)[old(holdings)[h].account].balance < old(holdings)[h].amount
              then r == Failure(InsufficientFunds)
              else if interest <= 0 then r == Failure(CheckViolated)
              else r == Success(Settlement(old(holdings)[h].amount, interest, primary))
                   && State() == Paid(old(State()), h, primary, interest, now)
    {
      hide Paid, With, PaidAccounts;
      PaidWrites(State(), h, primary, interest, now);
      var holding := holdings[h];
      var after :- PayLegs(holding.account, primary, holding.amount, interest);
      var ref := FreshId();
      var entries := [
        Entry(holding.account, true, holding.amount, after.0, SalakMaturity, ref, Some(h), now),
        Entry(primary, false, holding.amount, after.1, SalakMaturity, ref, Some(h), now),
        Entry(primary, false, interest, after.2, SalakMaturityInterest, ref, Some(h), now)];
      assert entries[2].amount == interest;
      var _ :- WriteEntries(entries);
      holdings := holdings[h := holding.(settledAt := Some(now))];
      clock := now;
      return Success(Settlement(holding.amount, interest, primary));
    }

    method SettleMaturedHoldingInTx(h: nat, now: Stamp) returns (r: Result<Settlement, Error>)
      requires Ready(State()) && AccountsLaw(accounts)
      requires h < |holdings| && holdings[h].settledAt.None? ==>
                 accounts[holdings[h].account].kind == Salak && holdings[h].amount > 0
      modifies this
      ensures match old(Settle(State(), h, now))
              case Refused(e) => r == Failure(e)
              case Done(_, s) =>
                && h < |old(holdings)| && s.primary < |old(accounts)| && old(accounts)[s.primary].kind == Savings
                && r == Success(s) && State() == Paid(old(State()), h, s.primary, s.interest, now)
      ensures r.Success? && old(locks) == [] ==>
                && h < |old(holdings)|
                && locks == [HoldingLock(h), AccountLock(Salak, old(holdings)[h].account),
                   AccountLock(Savings, r.value.primary)]
    {
      hide Paid, Expired;
      if h >= |holdings| {
        return Failure(HoldingNotFound);
      }
      Lock(HoldingLock(h));
      var holding := holdings[h];
      if holding.settledAt.Some? {
        return Failure(AlreadySettled);
      }
      var bad := CheckProduct(products, holding.product);
      if bad.Some? {
        return Failure(bad.value);
      }
      var interest := Interest(products[holding.product], holding.units);
      var primary := Primary(accounts, accounts[holding.account].user);
      if primary.None? {
        return Failure(NoPrimaryAccount);
      }
      r := PayOut(h, primary.value, interest, now);
    }

    /** The goal's side of a settlement. The clamp at zero is shown never to act. */
    method ExpireFromGoal(j: nat, h: nat, principal: int, now: Stamp)
      requires Ready(State()) && h < |holdings| && BuyRow(rows, h) == Some(j) && principal == holdings[h].amount
      requires GoalLaw(goals[rows[j].goal]) && principal <= goals[rows[j].goal].salak && principal > 0
      modifies `goals, `rows, `nextId
      ensures State() == Expired(old(State()), h, now)
    {
      var g, kapook := rows[j].goal, rows[j].account;
      var left := goals[g].salak - principal;
      var salak := if left > 0 then left else 0;
      assert salak == left;
      UpdateGoal(g, goals[g].(salak := salak));
      var id := FreshId();
      rows := rows + [Row(id, SalakExpirationRow, principal, kapook, g, None, Some(h), None, now)];
    }

    method SettleMaturedHolding(h: nat, now: Stamp) returns (r: Result<Settlement, Error>)
      requires Valid() && Later(State(), now)
      modifies this
      ensures Valid() && Ready(old(State()))
      ensures Answers(old(State()), Settle(old(State()), h, now), r, State())
    {
      hide Inv, Paid, Expired;
      ghost var before := State();
      InvIsReady(before);
      InvIsLawful(before);
      SettlementIsSafe(before, h, now);
      locks := [];
      var saved := State();
      r := SettleMaturedHoldingInTx(h, now);
      if r.Failure? {
        Restore(saved);
        return;
      }
      PaidTouches(before, h, r.value.primary, r.value.interest, now);
      var found := BuyRow(rows, h);
      if found.Some? {
        ExpireFromGoal(found.value, h, r.value.principal, now);
      }
    }

    // ---- the worker

    /** The claiming query: of the due rows nobody else has locked, the longest
        waiting, up to the batch limit, locking each. */
    method ClaimDueGoals(locked: set<int>, now: Stamp, countdown: int) returns (claim: seq<int>)
      modifies `locks
      ensures IsClaim(goals, now, countdown, locked, CLAIM_LIMIT, claim)
      ensures NonNegative(claim) && locks == old(locks) + ClaimLocks(claim)
    {
      claim := [];
      while |claim| < CLAIM_LIMIT
        invariant |claim| <= CLAIM_LIMIT && IsBatch(goals, DueGoals(goals, now, countdown) - locked, claim)
        invariant NonNegative(claim) && locks == old(locks) + ClaimLocks(claim)
      {
        var next := LongestWaiting(locked, now, countdown, claim);
        if next.None? {
          return;
        }
        BatchSnoc(goals, DueGoals(goals, now, countdown) - locked, claim, next.value);
        locks := locks + [GoalLock(next.value)];
        claim := claim + [next.value];
      }
    }

    method LongestWaiting(locked: set<int>, now: Stamp, countdown: int, claim: seq<int>) returns (next: Option<int>)
      ensures next.None? ==> DueGoals(goals, now, countdown) - locked <= Members(claim)
      ensures next.Some? ==>
                && next.value in DueGoals(goals, now, countdown) - locked - Members(claim)
                && forall g :: g in DueGoals(goals, now, countdown) - locked - Members(claim) ==>
                   ReachedBy(goals, next.value, g)
    {
      next := None;
      for g := 0 to |goals|
        invariant next.None? ==> forall k :: 0 <= k < g && k in DueGoals(goals, now, countdown) - locked ==>
                  k in Members(claim)
        invariant next.Some? ==>
                    && next.value in DueGoals(goals, now, countdown) - locked - Members(claim)
                    && forall k :: 0 <= k < g && k in DueGoals(goals, now, countdown) - locked - Members(claim) ==>
                         ReachedBy(goals, next.value, k)
      {
        if Due(goals[g], now, countdown) && g !in locked && g !in claim {
          if next.None? || Instant(goals[g].reachedAt.value) < Instant(goals[next.value].reachedAt.value) {
            next := Some(g);
          }
        }
      }
    }

    /** The failure is recorded on the goal, and is what is reported. */
    method Fail(g: nat, e: Error, now: Stamp) returns (attempt: Attempt)
      requires g < |goals|
      modifies `goals, `clock
      ensures State() == RecordFailure(old(State()), g, e, now) && attempt == Failed(e)
    {
      goals := goals[g := goals[g].(attempts := goals[g].attempts + 1, lastError := Some(e), lastAttempt := Some(now))];
      clock := now;
      return Failed(e);
    }

    method DeferGoal(g: nat, product: nat, now: Stamp) returns (attempt: Attempt)
      requires g < |goals|
      modifies `goals, `clock
      ensures (State(), attempt) == Worker.DeferGoal(old(State()), g, product, now)
    {
      var bad := CheckProduct(products, product);
      if bad.Some? {
        attempt := Fail(g, bad.value, now);
        return;
      }
      var until := DrawDays.NextAvailableDate(products[product].drawDays, Day(now));
      if until.None? {
        attempt := Fail(g, NoAvailableDate, now);
        return;
      }
      goals := goals[g := goals[g].(deferredUntil := until)];
      clock := now;
      return Deferred;
    }

    /** processGoal on the row as it was claimed. */
    method ProcessGoal(g: nat, claimed: Goal, now: Stamp) returns (attempt: Attempt)
      requires Valid() && Later(State(), now) && Tables(State()) && g < |goals| && claimed.account < |accounts|
      modifies this
      ensures Valid() && Tables(old(State()))
      ensures (State(), attempt) == Worker.ProcessGoal(old(State()), g, claimed, now)
    {
      hide Inv, Steps.BuyFromGoal;
      ProcessKeepsInv(State(), g, claimed, now);
      var user := accounts[claimed.account].user;
      var salak := FirstSalak(accounts, user);
      if salak.None? {
        attempt := Fail(g, NoSalakAccount, now);
        return;
      }
      var bought := BuyInTransaction(user, claimed.account, salak.value, claimed.Available(), true, now);
      if bought.Success? {
        return Attempt.Purchased;
      }
      if bought.error == DrawDay {
        attempt := DeferGoal(g, claimed.product, now);
      } else {
        attempt := Fail(g, bought.error, now);
      }
    }

    /** One pass. The re-check of each claimed row is shown never to skip one. */
    method RunOnce(locked: set<int>, now: Stamp, countdown: int) returns (claim: seq<int>, results: seq<Attempt>)
      requires Valid() && Later(State(), now)
      modifies this
      ensures Valid() && Tables(old(State())) && Claimable(old(State()), claim)
      ensures IsClaim(old(goals), now, countdown, locked, CLAIM_LIMIT, claim)
      ensures (State(), results) == Pass(old(State()), claim, now)
    {
      hide Inv, Worker.ProcessGoal, IsClaim, Pass, Tables;
      ghost var before := State();
      InvIsReady(before);
      locks := [];
      claim := ClaimDueGoals(locked, now, countdown);
      ClaimIsClaimed(goals, now, countdown, locked, CLAIM_LIMIT, claim);
      ClaimedIsClaimable(before, claim);
      var claimed := goals;
      results := [];
      PassOfNone(before, now);
      for i := 0 to |claim|
        invariant (State(), results) == Pass(before, claim[..i], now)
        invariant Valid() && Tables(State()) && Later(State(), now)
      {
        var g := claim[i];
        assert claimed[g].active && claimed[g].reachedAt.Some?;
        PassStep(before, claim, i, now);
        var attempt := ProcessGoal(g, claimed[g], now);
        results := results + [attempt];
      }
      assert claim[..|claim|] == claim;
    }
  }
}
