/** Whole runs of the system: any calls, in any order, at a clock that does not
    go back. */
module Runs {
  import opened Outcomes
  import opened Calendar
  import opened Sums
  import opened Database
  import opened Steps
  import opened Laws
  import opened LawsKept
  import opened StepsKept
  import opened PurchasesKept
  import opened Worker

  datatype Op =
    | OpOpenAccount(user: nat, kind: Kind, opening: int, primary: bool)
    | OpAddProduct(p: Product)
    | OpReviseProduct(product: nat, p: Product)
    | OpAcceptTerms(user: nat)
    | OpCreateGoal(user: nat, account: nat, product: nat, target: int)
    | OpDeposit(user: nat, kapook: nat, savings: nat, amount: int)
    | OpWithdraw(user: nat, kapook: nat, amount: int)
    | OpBuySalak(user: nat, funding: nat, salak: nat, product: nat, amount: int)
    | OpBuyFromGoal(user: nat, kapook: nat, salak: nat, amount: int)
    | OpSettle(holding: nat)
    | OpWorkerPass(claim: seq<int>, countdown: int)

  /** The table facts the services rely on when they follow an id. */
  ghost predicate Ready(db: Db) {
    && Tables(db)
    && (forall i :: 0 <= i < |db.holdings| ==> db.holdings[i].account < |db.books.accounts|)
    && (forall j :: 0 <= j < |db.rows| ==> db.rows[j].goal < |db.goals|)
  }

  function StateAfter<T>(db: Db, r: Outcome<T>): Db {
    match r
    case Done(db', _) => db'
    case Refused(_) => db
  }

  /** One call: its effect when it succeeds, nothing when it is refused. */
  ghost function Apply(db: Db, op: Op, now: Stamp): Db
    requires Ready(db)
  {
    match op
    case OpOpenAccount(user, kind, opening, primary) => StateAfter(db,
        OpenAccount(db, user, kind, opening, primary, now))
    case OpAddProduct(p) => StateAfter(db, AddProduct(db, p, now))
    case OpReviseProduct(product, p) => StateAfter(db, ReviseProduct(db, product, p, now))
    case OpAcceptTerms(user) => StateAfter(db, AcceptTerms(db, user, now))
    case OpCreateGoal(user, account, product, target) => StateAfter(db,
        CreateGoal(db, user, account, product, target, now))
    case OpDeposit(user, kapook, savings, amount) => StateAfter(db, Deposit(db, user, kapook, savings, amount, now))
    case OpWithdraw(user, kapook, amount) => StateAfter(db, Withdraw(db, user, kapook, amount, now))
    case OpBuySalak(user, funding, salak, product, amount) =>
      StateAfter(db, BuySalak(db, user, funding, salak, product, amount, now))
    case OpBuyFromGoal(user, kapook, salak, amount) => StateAfter(db,
        BuyFromGoal(db, user, kapook, salak, amount, false, now))
    case OpSettle(holding) => StateAfter(db, Settle(db, holding, now))
    case OpWorkerPass(claim, countdown) =>
      if Claimable(db, claim) && IsClaim(db.goals, now, countdown, {}, CLAIM_LIMIT, claim)
          then Pass(db, claim, now).0 else db
  }

  lemma {:induction false} InvIsReady(db: Db)
    requires Inv(db)
    ensures Ready(db)
  {}

  /** The call was made: it was refused and nothing happened, or it happened. */
  ghost predicate Made<T>(db: Db, answer: Outcome<T>, db': Db) {
    (answer.Refused? && db' == db) || (answer.Done? && db' == answer.db)
  }

  /** What an event of a run may be: its call, with the answer it has then. */
  ghost predicate IsCall(db: Db, op: Op, now: Stamp, db': Db)
    requires Ready(db)
  {
    match op
    case OpOpenAccount(user, kind, opening, primary) => Made(db, OpenAccount(db, user, kind, opening, primary, now),
        db')
    case OpAddProduct(p) => Made(db, AddProduct(db, p, now), db')
    case OpReviseProduct(product, p) => Made(db, ReviseProduct(db, product, p, now), db')
    case OpAcceptTerms(user) => Made(db, AcceptTerms(db, user, now), db')
    case OpCreateGoal(user, account, product, target) =>
      Made(db, CreateGoal(db, user, account, product, target, now), db')
    case OpDeposit(user, kapook, savings, amount) => Made(db, Deposit(db, user, kapook, savings, amount, now), db')
    case OpWithdraw(user, kapook, amount) => Made(db, Withdraw(db, user, kapook, amount, now), db')
    case OpBuySalak(user, funding, salak, product, amount) =>
      Made(db, BuySalak(db, user, funding, salak, product, amount, now), db')
    case OpBuyFromGoal(user, kapook, salak, amount) =>
      Made(db, BuyFromGoal(db, user, kapook, salak, amount, false, now), db')
    case OpSettle(holding) => Made(db, Settle(db, holding, now), db')
    case OpWorkerPass(claim, countdown) =>
      if Claimable(db, claim) && IsClaim(db.goals, now, countdown, {}, CLAIM_LIMIT, claim)
      then db' == Pass(db, claim, now).0
      else db' == db
  }

  lemma {:induction false} EventIsItsCall(states: seq<Db>, events: seq<Event>, i: nat)
    requires IsRun(states, events) && i < |events|
    ensures Ready(states[i]) && IsCall(states[i], events[i].op, events[i].now, states[i + 1])
  {
    hide Ready, IsClaim, Pass;
    CallIsMade(states[i], events[i].op, events[i].now);
  }

  lemma {:induction false} CallIsMade(db: Db, op: Op, now: Stamp)
    requires Ready(db)
    ensures IsCall(db, op, now, Apply(db, op, now))
  {
    hide Pass, IsClaim, OpenAccount, AddProduct, ReviseProduct, CreateGoal, Deposit, Withdraw, BuySalak, BuyFromGoal,
        Settle;
  }

  /** Every call keeps every law. */
  lemma {:induction false} ApplyKeepsInv(db: Db, op: Op, now: Stamp)
    requires Ready(db) && Inv(db) && Later(db, now)
    ensures Inv(Apply(db, op, now))
  {
    hide Inv, Pass, OpenAccount, AddProduct, ReviseProduct, CreateGoal, Deposit, Withdraw, BuySalak, BuyFromGoal,
        Settle;
    if Apply(db, op, now) != db {
      match op
      case OpOpenAccount(user, kind, opening, primary) => OpenAccountKeepsInv(db, user, kind, opening, primary, now);
      case OpAddProduct(p) => AddProductKeepsInv(db, p, now);
      case OpReviseProduct(product, p) => ReviseProductKeepsInv(db, product, p, now);
      case OpAcceptTerms(user) => AcceptTermsKeepsInv(db, user, now);
      case OpCreateGoal(user, account, product, target) => CreateGoalKeepsInv(db, user, account, product, target, now);
      case OpDeposit(user, kapook, savings, amount) => DepositKeepsInv(db, user, kapook, savings, amount, now);
      case OpWithdraw(user, kapook, amount) => WithdrawKeepsInv(db, user, kapook, amount, now);
      case OpBuySalak(user, funding, salak, product, amount) =>
        BuySalakKeepsInv(db, user, funding, salak, product, amount, now);
      case OpBuyFromGoal(user, kapook, salak, amount) => BuyFromGoalKeepsInv(db, user, kapook, salak, amount, false,
          now);
      case OpSettle(holding) => SettleKeepsInv(db, holding, now);
      case OpWorkerPass(claim, countdown) =>
        ClaimIsClaimed(db.goals, now, countdown, {}, CLAIM_LIMIT, claim);
        PassMidway(db, claim, now);
    }
  }

  datatype Event = Event(op: Op, now: Stamp)

  /** The database before anything happened. */
  function Empty(start: Stamp): Db {
    Db(Books([], []), [], [], [], [], [], {}, 0, start)
  }

  lemma {:induction false} EmptyBooks(b: Books)
    requires b == Books([], [])
    ensures BooksLaw(b) && AccountsLaw(b.accounts)
  {}

  lemma {:induction false} EmptyReferences(ledger: seq<Entry>, rows: seq<Row>, holdings: seq<Holding>)
    requires ledger == [] && rows == [] && holdings == []
    ensures ReferenceLaw(ledger, rows, 0) && PaidOnceLaw(ledger, holdings)
  {}

  lemma {:induction false} EmptyGoals(db: Db)
    requires db.goals == [] && db.rows == [] && db.holdings == []
    ensures GoalsLaw(db.goals, db.books.accounts, db.products, db.clock) &&
            RowsLaw(db.rows, db.goals, db.holdings, db.clock)
    ensures FeeLaw(db.rows, db.goals)
  {
    hide EarlierInWindow, Instant, HoldingsLaw;
  }

  lemma {:induction false} EmptyCash(db: Db)
    requires db.goals == [] && db.rows == [] && db.holdings == [] && db.books.accounts == []
    ensures CashLaw(db.goals, db.books.accounts, db.rows) && SalakLaw(db.goals, db.books.accounts, db.rows, db.holdings)
  {}

  lemma {:induction false} EmptyProducts(db: Db)
    requires db.holdings == [] && db.products == [] && db.cursors == []
    ensures HoldingsLaw(db.holdings, db.books.accounts, db.products, db.cursors)
  {}

  lemma {:induction false} EmptyHasInv(start: Stamp)
    ensures Inv(Empty(start))
  {
    hide BooksLaw, AccountsLaw, ReferenceLaw, GoalsLaw, RowsLaw, CashLaw, SalakLaw, PaidOnceLaw, HoldingsLaw, FeeLaw;
    var db := Empty(start);
    EmptyBooks(db.books);
    EmptyReferences(db.books.ledger, db.rows, db.holdings);
    EmptyGoals(db);
    EmptyCash(db);
    EmptyProducts(db);
  }

  ghost predicate IsRun(states: seq<Db>, events: seq<Event>) {
    && |states| == |events| + 1
    && forall i :: 0 <= i < |events| ==>
         && Ready(states[i]) && Later(states[i], events[i].now)
         && states[i + 1] == Apply(states[i], events[i].op, events[i].now)
  }

  /** Every law holds in every state of every run. */
  lemma {:induction false} RunKeepsInv(states: seq<Db>, events: seq<Event>, i: nat)
    requires IsRun(states, events) && Inv(states[0]) && i < |states|
    ensures Inv(states[i])
  {
    hide Inv, Apply, Ready;
    if i > 0 {
      RunKeepsInv(states, events, i - 1);
      ApplyKeepsInv(states[i - 1], events[i - 1].op, events[i - 1].now);
    }
  }

  function Theirs(user: nat, opening: int): seq<Account> {
    [Account(user, Savings, opening, opening, true), Account(user, Salak, 0, 0, false),
        Account(user, Kapook, 0, 0, false)]
  }

  /** The database after the first `k` of the three accounts. */
  function Opened(db: Db, user: nat, opening: int, k: nat, now: Stamp): Db
    requires k <= 3
  {
    if k == 0 then db
    else db.(books := Books(db.books.accounts + Theirs(user, opening)[..k], db.books.ledger), clock := now)
  }

  lemma {:induction false} OpeningSteps(db: Db, user: nat, opening: int, now: Stamp)
    requires opening >= 0 && Primary(db.books.accounts, user).None?
    ensures var n := |db.books.accounts|;
            && OpenAccount(db, user, Savings, opening, true, now) == Done(Opened(db, user, opening, 1, now), n)
            && OpenAccount(Opened(db, user, opening, 1, now), user, Salak, 0, false, now) ==
               Done(Opened(db, user, opening, 2, now), n + 1)
            && OpenAccount(Opened(db, user, opening, 2, now), user, Kapook, 0, false, now) ==
               Done(Opened(db, user, opening, 3, now), n + 2)
  {
    hide Primary;
    var theirs := Theirs(user, opening);
    assert theirs[..1] == [theirs[0]] && theirs[..2] == theirs[..1] + [theirs[1]] &&
        theirs[..3] == theirs[..2] + [theirs[2]];
    var accounts := db.books.accounts;
    assert accounts + theirs[..2] == accounts + theirs[..1] + [theirs[1]];
    assert accounts + theirs[..3] == accounts + theirs[..2] + [theirs[2]];
  }

  /** A registration is a run of three calls, or is refused: for a negative
      opening, or a customer who has a primary account. It keeps every law, and
      leaves the customer a primary savings account and a salak account. */
  lemma {:induction false} RegisterIsARun(db: Db, user: nat, opening: int, now: Stamp) returns (states: seq<Db>,
          events: seq<Event>)
    requires Inv(db) && Later(db, now)
    ensures Register(db, user, opening, now).Done? <==> opening >= 0 && Primary(db.books.accounts, user).None?
    ensures Register(db, user, opening, now).Done? ==>
              var after := Register(db, user, opening, now).db;
              && IsRun(states, events) && states[0] == db && |events| == 3 && states[3] == after && Inv(after)
              && after.books.accounts == db.books.accounts + Theirs(user, opening)
              && Primary(after.books.accounts, user) == Some(|db.books.accounts|)
              && FirstSalak(after.books.accounts, user).Some?
    ensures Register(db, user, opening, now).Done? ==>
              var n := |db.books.accounts|;
              && Register(db, user, opening, now).value == (n, n + 1, n + 2)
              && Register(db, user, opening, now).db == db.(clock := now,
                                                          books := db.books.(accounts := db.books.accounts +
                                                              Theirs(user, opening)))
    ensures Register(db, user, opening, now).Refused? ==> Register(db, user, opening, now).error == CheckViolated
  {
    hide Inv, Ready, Primary, FirstSalak;
    states, events := [db], [];
    if opening >= 0 && Primary(db.books.accounts, user).None? {
      OpeningSteps(db, user, opening, now);
      hide OpenAccount;
      var one, two := Opened(db, user, opening, 1, now), Opened(db, user, opening, 2, now);
      OpenAccountKeepsInv(db, user, Savings, opening, true, now);
      OpenAccountKeepsInv(one, user, Salak, 0, false, now);
      OpenAccountKeepsInv(two, user, Kapook, 0, false, now);
      InvIsReady(db);
      InvIsReady(one);
      InvIsReady(two);
      states := [db, one, two, Opened(db, user, opening, 3, now)];
      events := [Event(OpOpenAccount(user, Savings, opening, true), now),
          Event(OpOpenAccount(user, Salak, 0, false), now),
                 Event(OpOpenAccount(user, Kapook, 0, false), now)];
      FirstOfTheirs(db.books.accounts, user, opening);
      assert Theirs(user, opening)[..3] == Theirs(user, opening);
    }
  }

  lemma {:induction false} FirstOfTheirs(accounts: seq<Account>, user: nat, opening: int)
    requires Primary(accounts, user).None?
    ensures Primary(accounts + Theirs(user, opening), user) == Some(|accounts|)
    ensures FirstSalak(accounts + Theirs(user, opening), user).Some?
  {
    var theirs := Theirs(user, opening);
    var all := accounts + theirs;
    var n := |accounts|;
    assert all[..n + 2] == accounts + theirs[..2] && all[..n + 2][..n + 1] == accounts + theirs[..1];
    assert all[n] == theirs[0] && all[n + 1] == theirs[1] && all[n + 2] == theirs[2];
  }

  // ---- what never changes and what only grows

  ghost predicate GoalGrows(g: Goal, g': Goal) {
    && g'.account == g.account && g'.product == g.product && g'.target == g.target && g'.createdAt == g.createdAt
    && (!g.active ==> !g'.active && g'.saving == g.saving)
    && (g.reachedAt.Some? ==> g'.reachedAt == g.reachedAt)
  }

  /** A holding changes only by being settled, once. */
  ghost predicate HoldingStays(h: Holding, h': Holding) {
    h' == h || (h.settledAt.None? && h'.settledAt.Some? && h' == h.(settledAt := h'.settledAt))
  }

  /** Logs only get longer; a closed goal stays closed, with what it saved; a
      target once reached keeps its first stamp; a holding stays as minted and,
      once settled, as settled. */
  ghost predicate Grows(db: Db, db': Db) {
    && db.rows <= db'.rows && db.books.ledger <= db'.books.ledger
    && |db.holdings| <= |db'.holdings|
    && (forall h :: 0 <= h < |db.holdings| ==> HoldingStays(db.holdings[h], db'.holdings[h]))
    && |db.goals| <= |db'.goals| && forall g :: 0 <= g < |db.goals| ==> GoalGrows(db.goals[g], db'.goals[g])
  }

  /** A goal closes only at a moment when all it saved is in tickets. */
  ghost predicate ClosesEven(db: Db, db': Db) {
    forall g :: 0 <= g < |db.goals| && g < |db'.goals| && db.goals[g].active && !db'.goals[g].active ==>
      db'.goals[g].saving == db'.goals[g].salak
  }

  ghost predicate Moves(db: Db, db': Db) {
    Grows(db, db') && ClosesEven(db, db')
  }

  lemma {:induction false} DepositGrows(db: Db, user: nat, kapook: nat, savings: nat, amount: int, now: Stamp)
    requires GoalsLaw(db.goals, db.books.accounts, db.products, db.clock)
    requires Deposit(db, user, kapook, savings, amount, now).Done?
    ensures Moves(db, Deposit(db, user, kapook, savings, amount, now).db)
  {}

  lemma {:induction false} WithdrawGrows(db: Db, user: nat, kapook: nat, amount: int, now: Stamp)
    requires GoalsLaw(db.goals, db.books.accounts, db.products, db.clock) && AccountsLaw(db.books.accounts)
    requires Withdraw(db, user, kapook, amount, now).Done?
    ensures Moves(db, Withdraw(db, user, kapook, amount, now).db)
  {
    var g, savings := WithdrawGuards(db, user, kapook, amount, now);
  }

  lemma {:induction false} BuyGrows(db: Db, user: nat, kapook: nat, salak: nat, amount: int, automatic: bool,
          now: Stamp)
    requires GoalsLaw(db.goals, db.books.accounts, db.products, db.clock) && Tables(db)
    requires BuyFromGoal(db, user, kapook, salak, amount, automatic, now).Done?
    ensures Moves(db, BuyFromGoal(db, user, kapook, salak, amount, automatic, now).db)
  {
    var g := BuyGuards(db, user, kapook, salak, amount, automatic, now);
    assert GoalLaw(db.goals[g]);
    BoughtShape(db, kapook, salak, g, amount, automatic, now);
  }

  lemma {:induction false} SettleGrows(db: Db, h: nat, now: Stamp)
    requires Ready(db) && Settle(db, h, now).Done?
    ensures Moves(db, Settle(db, h, now).db)
  {}

  lemma {:induction false} ProcessGrows(mid: Db, g: nat, claimed: Goal, now: Stamp)
    requires GoalsLaw(mid.goals, mid.books.accounts, mid.products, mid.clock) && Tables(mid)
    requires g < |mid.goals| && claimed.account < |mid.books.accounts|
    ensures Moves(mid, ProcessGoal(mid, g, claimed, now).0)
  {
    hide BuyFromGoal;
    var user := mid.books.accounts[claimed.account].user;
    var salak := FirstSalak(mid.books.accounts, user);
    if salak.Some? && BuyFromGoal(mid, user, claimed.account, salak.value, claimed.Available(), true, now).Done? {
      BuyGrows(mid, user, claimed.account, salak.value, claimed.Available(), true, now);
    } else {
      BookkeepingOnly(mid, g, claimed, now);
      hide ProcessGoal, GoalsLaw;
    }
  }

  lemma {:induction false} GrowsTransitive(a: Db, b: Db, c: Db)
    requires Grows(a, b) && Grows(b, c)
    ensures Grows(a, c)
  {}

  lemma {:induction false} PassGrows(db: Db, claim: seq<int>, now: Stamp)
    requires Tables(db) && Claimable(db, claim)
    requires Inv(db) && Later(db, now) && Claimed(db.goals, claim)
    ensures Grows(db, Pass(db, claim, now).0)
  {
    hide BooksLaw, AccountsLaw, ReferenceLaw, GoalsLaw, RowsLaw, CashLaw, SalakLaw, PaidOnceLaw, HoldingsLaw, FeeLaw;
    hide ProcessGoal, GoalGrows;
    if claim == [] {
      GrowsReflexive(db);
    } else {
      var n := |claim| - 1;
      var mid := Pass(db, claim[..n], now).0;
      PassGrows(db, claim[..n], now);
      PassMidway(db, claim[..n], now);
      ProcessGrows(mid, claim[n], db.goals[claim[n]], now);
      GrowsTransitive(db, mid, Pass(db, claim, now).0);
    }
  }

  lemma {:induction false} GrowsReflexive(db: Db)
    ensures Moves(db, db)
  {}

  /** Every single call but a worker pass is one move. */
  lemma {:induction false} ApplyMoves(db: Db, op: Op, now: Stamp)
    requires Ready(db) && Inv(db) && !op.OpWorkerPass?
    ensures Moves(db, Apply(db, op, now))
  {
    hide BooksLaw, AccountsLaw, ReferenceLaw, GoalsLaw, RowsLaw, CashLaw, SalakLaw, PaidOnceLaw, HoldingsLaw, FeeLaw;
    hide Deposit, Withdraw, BuyFromGoal, Settle, Moves, Mint;
    if Apply(db, op, now) == db {
      GrowsReflexive(db);
    } else {
      match op
      case OpDeposit(user, kapook, savings, amount) => DepositGrows(db, user, kapook, savings, amount, now);
      case OpWithdraw(user, kapook, amount) => WithdrawGrows(db, user, kapook, amount, now);
      case OpBuyFromGoal(user, kapook, salak, amount) => BuyGrows(db, user, kapook, salak, amount, false, now);
      case OpSettle(holding) => SettleGrows(db, holding, now);
      case _ => OtherCallsMove(db, op, now);
    }
  }

  lemma {:induction false} OtherCallsMove(db: Db, op: Op, now: Stamp)
    requires Ready(db) && !op.OpWorkerPass? && !op.OpDeposit? && !op.OpWithdraw? && !op.OpBuyFromGoal? && !op.OpSettle?
    ensures Moves(db, Apply(db, op, now))
  {
    hide Mint, Tables;
  }

  lemma {:induction false} ApplyGrows(db: Db, op: Op, now: Stamp)
    requires Ready(db) && Inv(db) && Later(db, now)
    ensures Grows(db, Apply(db, op, now))
  {
    if op.OpWorkerPass? {
      hide Inv, Pass;
      if Apply(db, op, now) != db {
        ClaimIsClaimed(db.goals, now, op.countdown, {}, CLAIM_LIMIT, op.claim);
        PassGrows(db, op.claim, now);
      }
    } else {
      hide Inv, Apply;
      ApplyMoves(db, op, now);
    }
  }

  /** In every run: logs are append-only, a closed goal never reopens, and a
      goal's reached-at stamp is never moved. */
  lemma {:induction false} RunGrows(states: seq<Db>, events: seq<Event>, i: nat, j: nat)
    requires IsRun(states, events) && Inv(states[0]) && i <= j < |states|
    ensures Grows(states[i], states[j])
    decreases j - i
  {
    hide Inv, Apply, Ready, GoalGrows;
    if i == j {
      GrowsReflexive(states[i]);
    } else {
      RunKeepsInv(states, events, j - 1);
      RunGrows(states, events, i, j - 1);
      ApplyGrows(states[j - 1], events[j - 1].op, events[j - 1].now);
      GrowsTransitive(states[i], states[j - 1], states[j]);
    }
  }

  // ---- a settlement on an active goal

  ghost predicate Stuck(db: Db, g: int) {
    0 <= g < |db.goals| && db.goals[g].active && Sum(db.rows, ExpiredIn(g)) > 0
  }

  lemma {:induction false} MovesKeepStuck(db: Db, db': Db, g: nat)
    requires Moves(db, db') && Stuck(db, g)
    requires CashLaw(db'.goals, db'.books.accounts, db'.rows)
    requires SalakLaw(db'.goals, db'.books.accounts, db'.rows, db'.holdings)
    requires forall j :: 0 <= j < |db'.rows| ==> db'.rows[j].amount > 0
    ensures Stuck(db', g)
  {
    var rest := db'.rows[|db.rows|..];
    assert db'.rows == db.rows + rest;
    SumConcat(db.rows, rest, ExpiredIn(g));
    SumNonNegative(rest, ExpiredIn(g));
    BoughtIsLivePlusExpired(db'.goals, db'.books.accounts, db'.rows, db'.holdings, g);
  }

  lemma {:induction false} PassKeepsStuck(db: Db, claim: seq<int>, now: Stamp, g: nat)
    requires Tables(db) && Claimable(db, claim)
    requires Inv(db) && Later(db, now) && Claimed(db.goals, claim) && Stuck(db, g)
    ensures Stuck(Pass(db, claim, now).0, g)
  {
    hide BooksLaw, AccountsLaw, ReferenceLaw, GoalsLaw, CashLaw, SalakLaw, PaidOnceLaw, HoldingsLaw, FeeLaw;
    hide ProcessGoal, Moves, Stuck;
    if claim != [] {
      var n := |claim| - 1;
      var mid := Pass(db, claim[..n], now).0;
      PassKeepsStuck(db, claim[..n], now, g);
      PassMidway(db, claim[..n], now);
      PassMidway(db, claim, now);
      ProcessGrows(mid, claim[n], db.goals[claim[n]], now);
      MovesKeepStuck(mid, Pass(db, claim, now).0, g);
    }
  }

  lemma {:induction false} ApplyKeepsStuck(db: Db, op: Op, now: Stamp, g: nat)
    requires Ready(db) && Inv(db) && Later(db, now) && Stuck(db, g)
    ensures Stuck(Apply(db, op, now), g)
  {
    hide BooksLaw, AccountsLaw, ReferenceLaw, GoalsLaw, CashLaw, SalakLaw, PaidOnceLaw, HoldingsLaw, FeeLaw;
    hide Moves, Stuck, Pass;
    if op.OpWorkerPass? {
      if Apply(db, op, now) != db {
        ClaimIsClaimed(db.goals, now, op.countdown, {}, CLAIM_LIMIT, op.claim);
        PassKeepsStuck(db, op.claim, now, g);
      }
    } else {
      hide Apply;
      ApplyMoves(db, op, now);
      ApplyKeepsInv(db, op, now);
      MovesKeepStuck(db, Apply(db, op, now), g);
    }
  }

  /** Once a holding of a still-active goal has been settled, no run ever
      closes that goal: neither a purchase nor a withdrawal can. */
  lemma {:induction false} SettledActiveGoalNeverCloses(states: seq<Db>, events: seq<Event>, i: nat, j: nat, g: nat)
    requires IsRun(states, events) && Inv(states[0]) && i <= j < |states| && Stuck(states[i], g)
    ensures Stuck(states[j], g)
    decreases j - i
  {
    hide Inv, Apply, Ready, Stuck;
    if i < j {
      RunKeepsInv(states, events, j - 1);
      SettledActiveGoalNeverCloses(states, events, i, j - 1, g);
      ApplyKeepsStuck(states[j - 1], events[j - 1].op, events[j - 1].now, g);
    }
  }

  /** ... so its account can never take another goal. */
  lemma {:induction false} StuckAccountTakesNoGoal(db: Db, g: nat, user: nat, product: nat, target: int, now: Stamp)
    requires Ready(db) && Stuck(db, g)
    ensures CreateGoal(db, user, db.goals[g].account, product, target, now).Refused?
  {}
}
