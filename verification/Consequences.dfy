/** What the laws mean for customers and for the bank, in any state that keeps
    them, which is any state a run reaches. */
module Consequences {
  import opened Outcomes
  import opened Calendar
  import opened Sums
  import opened Database
  import opened Steps
  import opened Laws
  import opened LawsKept
  import opened Worker
  import opened PurchasesKept
  import Fees

  // ---- the cash in a kapook account

  function CashOf(a: nat): Goal -> int { (g: Goal) => if g.account == a then g.Available() else 0 }

  function ExpiredOf(a: nat): Row -> int {
    (r: Row) => if r.kind == SalakExpirationRow && r.account == a then r.amount else 0
  }

  function ExpiredBelow(goals: seq<Goal>, a: nat, n: nat): Row -> int {
    (r: Row) => if r.kind == SalakExpirationRow && r.goal < n && r.goal < |goals| && goals[r.goal].account == a
        then r.amount else 0
  }

  /** What the first `n` goals still have in the account. */
  function CashTo(goals: seq<Goal>, rows: seq<Row>, a: nat, n: nat): int
    requires n <= |goals|
  {
    if n == 0 then 0
    else CashTo(goals, rows, a, n - 1) +
         (if goals[n - 1].account == a then goals[n - 1].Available() - Sum(rows, ExpiredIn(n - 1)) else 0)
  }

  lemma {:induction false} CashToSplits(goals: seq<Goal>, rows: seq<Row>, a: nat, n: nat)
    requires n <= |goals|
    ensures CashTo(goals, rows, a, n) == Sum(goals[..n], CashOf(a)) - Sum(rows, ExpiredBelow(goals, a, n))
  {
    if n == 0 {
      SumZero(rows, ExpiredBelow(goals, a, 0));
    } else {
      CashToSplits(goals, rows, a, n - 1);
      assert goals[..n] == goals[..n - 1] + [goals[n - 1]];
      SumSnoc(goals[..n - 1], goals[n - 1], CashOf(a));
      if goals[n - 1].account == a {
        SumSplit(rows, ExpiredBelow(goals, a, n - 1), ExpiredIn(n - 1), ExpiredBelow(goals, a, n));
      } else {
        SumExt(rows, ExpiredBelow(goals, a, n - 1), ExpiredBelow(goals, a, n));
      }
    }
  }

  lemma {:induction false} GoalCash(db: Db, g: nat)
    requires GoalsLaw(db.goals, db.books.accounts, db.products, db.clock) &&
             CashLaw(db.goals, db.books.accounts, db.rows)
    requires SalakLaw(db.goals, db.books.accounts, db.rows, db.holdings)
    requires (forall j :: 0 <= j < |db.rows| ==> db.rows[j].amount > 0) && g < |db.goals|
    ensures db.goals[g].account < |db.books.accounts|
    ensures db.goals[g].Available() - Sum(db.rows, ExpiredIn(g)) ==
            if db.goals[g].active then db.books.accounts[db.goals[g].account].balance else 0
    ensures 0 <= Sum(db.rows, ExpiredIn(g))
  {
    BoughtIsLivePlusExpired(db.goals, db.books.accounts, db.rows, db.holdings, g);
  }

  lemma {:induction false} ActiveAmongFirst(goals: seq<Goal>, a: nat, n: nat)
    requires 0 < n <= |goals|
    requires forall i, j :: 0 <= i < j < |goals| && goals[i].active && goals[j].active ==>
             goals[i].account != goals[j].account
    ensures ActiveGoal(goals[..n], a).Some? <==>
            (goals[n - 1].active && goals[n - 1].account == a) || ActiveGoal(goals[..n - 1], a).Some?
    ensures goals[n - 1].active && goals[n - 1].account == a ==> ActiveGoal(goals[..n - 1], a).None?
  {
    assert goals[..n][..n - 1] == goals[..n - 1];
  }

  lemma {:induction false} CashToIsBalance(db: Db, a: nat, n: nat)
    requires GoalsLaw(db.goals, db.books.accounts, db.products, db.clock) &&
             CashLaw(db.goals, db.books.accounts, db.rows)
    requires SalakLaw(db.goals, db.books.accounts, db.rows, db.holdings)
    requires (forall j :: 0 <= j < |db.rows| ==> db.rows[j].amount > 0) && n <= |db.goals| && a < |db.books.accounts|
    ensures CashTo(db.goals, db.rows, a, n) ==
            if ActiveGoal(db.goals[..n], a).Some? then db.books.accounts[a].balance else 0
  {
    hide CashLaw, SalakLaw, ActiveGoal, GoalLaw;
    if n > 0 {
      CashToIsBalance(db, a, n - 1);
      GoalCash(db, n - 1);
      ActiveAmongFirst(db.goals, a, n);
    }
  }

  /** A kapook account holds what all its goals saved and did not convert, less
      the principal that has expired from them. */
  lemma {:induction false} KapookBalance(db: Db, a: nat)
    requires Inv(db) && a < |db.books.accounts| && db.books.accounts[a].kind == Kapook
    ensures db.books.accounts[a].balance == Sum(db.goals, CashOf(a)) - Sum(db.rows, ExpiredOf(a))
  {
    hide BooksLaw, AccountsLaw, ReferenceLaw, PaidOnceLaw, HoldingsLaw, FeeLaw, SalakLaw;
    var n := |db.goals|;
    assert db.goals[..n] == db.goals;
    CashToSplits(db.goals, db.rows, a, n);
    SumExt(db.rows, ExpiredBelow(db.goals, a, n), ExpiredOf(a));
    CashToIsBalance(db, a, n);
  }

  /** A closed goal's saving is its salak and its expirations; an active goal
      is alone on its account, and the account's cash is what it has available
      less what of it has expired. */
  lemma {:induction false} ActiveGoalCash(db: Db, g: nat)
    requires Inv(db) && g < |db.goals|
    ensures db.goals[g].account < |db.books.accounts|
    ensures db.goals[g].active ==>
              && ActiveGoal(db.goals, db.goals[g].account) == Some(g)
              && db.books.accounts[db.goals[g].account].balance == db.goals[g].Available() - Sum(db.rows, ExpiredIn(g))
    ensures !db.goals[g].active ==> db.goals[g].Available() == Sum(db.rows, ExpiredIn(g))
    ensures 0 <= Sum(db.rows, ExpiredIn(g))
  {
    hide BooksLaw, AccountsLaw, ReferenceLaw, PaidOnceLaw, HoldingsLaw, FeeLaw;
    GoalCash(db, g);
    hide RowsLaw, SalakLaw;
    if db.goals[g].active {
      GoalFacts(db, g);
    }
  }

  // ---- insufficient funds

  /** A withdrawal that passed every other check runs out of cash exactly when
      it asks for part of what has expired; so never while nothing has. */
  lemma {:induction false} WithdrawShortExactlyWhen(db: Db, user: nat, kapook: nat, amount: int, now: Stamp, g: nat)
    requires Inv(db) && ActiveGoal(db.goals, kapook) == Some(g)
    requires CheckAccount(db, user, kapook, Kapook).None? && Primary(db.books.accounts, user).Some?
    requires 0 < amount <= db.goals[g].Available()
    requires db.goals[g].reachedAt.Some? ==> amount == db.goals[g].Available()
    ensures Withdraw(db, user, kapook, amount, now) == Refused(InsufficientFunds) <==>
            amount > db.goals[g].Available() - Sum(db.rows, ExpiredIn(g))
    ensures Sum(db.rows, ExpiredIn(g)) == 0 ==> Withdraw(db, user, kapook, amount, now).Done?
  {
    hide Inv;
    ActiveGoalCash(db, g);
  }

  lemma {:induction false} BuyShortExactlyWhen(db: Db, kapook: nat, salak: nat, g: nat, amount: int, automatic: bool,
          now: Stamp)
    requires Tables(db) && Inv(db) && ActiveGoal(db.goals, kapook) == Some(g) && kapook < |db.books.accounts|
    requires salak < |db.books.accounts| && db.goals[g].product < |db.products| &&
             db.products[db.goals[g].product].active
    requires ValidAmount(db.products[db.goals[g].product], amount) && amount <= db.goals[g].Available()
    requires !IsDrawDay(db.products[db.goals[g].product], Day(now))
    ensures BuyFrom(db, kapook, salak, g, amount, automatic, now) == Refused(InsufficientFunds) <==>
            amount > db.goals[g].Available() - Sum(db.rows, ExpiredIn(g))
  {
    hide Inv, Steps.Purchased, Converted;
    ActiveGoalCash(db, g);
  }

  /** A reached goal of which anything has expired cannot be withdrawn at all,
      and the worker's attempt never buys it. */
  lemma {:induction false} ReachedAndExpiredIsLocked(db: Db, g: nat, user: nat, amount: int, now: Stamp)
    requires Tables(db) && Inv(db) && g < |db.goals| && db.goals[g].active && db.goals[g].reachedAt.Some?
    requires Sum(db.rows, ExpiredIn(g)) > 0
    ensures Withdraw(db, user, db.goals[g].account, amount, now).Refused?
    ensures db.goals[g].account < |db.books.accounts|
    ensures ProcessGoal(db, g, db.goals[g], now).1 != Purchased
  {
    hide Inv, ProcessGoal, Withdrawn, FeeDue, Window, Mint;
    ActiveGoalCash(db, g);
    WorkerBuysExactlyWhen(db, g, now);
  }

  // ---- exactly when a call succeeds

  predicate Own(db: Db, user: nat, a: nat, kind: Kind) {
    a < |db.books.accounts| && db.books.accounts[a].user == user && db.books.accounts[a].kind == kind
  }

  /** A withdrawal succeeds exactly when what it asks for is there: some of the
      goal that has neither gone into tickets nor expired with one, or all of a
      reached goal. */
  lemma {:induction false} WithdrawExactlyWhen(db: Db, user: nat, kapook: nat, amount: int, now: Stamp)
    requires Inv(db)
    ensures Withdraw(db, user, kapook, amount, now).Done? <==>
            && Own(db, user, kapook, Kapook) && Primary(db.books.accounts, user).Some? && amount > 0
            && exists g: nat :: g < |db.goals| && db.goals[g].active && db.goals[g].account == kapook
                           && amount <= db.goals[g].Available() - Sum(db.rows, ExpiredIn(g))
                           && (db.goals[g].reachedAt.Some? ==> amount == db.goals[g].Available())
  {
    hide BooksLaw, AccountsLaw, ReferenceLaw, GoalsLaw, RowsLaw, CashLaw, SalakLaw, PaidOnceLaw, HoldingsLaw, FeeLaw;
    hide Withdrawn, FeeDue, Fees.ComputeWithdrawalFee;
    forall g: nat | g < |db.goals| && db.goals[g].active && db.goals[g].account == kapook
      ensures ActiveGoal(db.goals, kapook) == Some(g) && kapook < |db.books.accounts|
      ensures db.books.accounts[kapook].balance == db.goals[g].Available() - Sum(db.rows, ExpiredIn(g))
      ensures 0 <= Sum(db.rows, ExpiredIn(g))
    {
      ActiveGoalCash(db, g);
    }
  }

  /** A purchase from a goal succeeds exactly when its product sells that amount
      today, a letter block has room, and the amount has neither gone into
      tickets nor expired. */
  lemma {:induction false} BuyFromGoalExactlyWhen(db: Db, user: nat, kapook: nat, salak: nat, amount: int,
          automatic: bool, now: Stamp)
    requires Tables(db) && Inv(db)
    ensures BuyFromGoal(db, user, kapook, salak, amount, automatic, now).Done? <==>
            && Own(db, user, kapook, Kapook) && Own(db, user, salak, Salak)
            && exists g: nat ::
                 && g < |db.goals| && db.goals[g].active && db.goals[g].account == kapook
                 && SellsNow(db, g, amount, now) && amount <= db.goals[g].Available() - Sum(db.rows, ExpiredIn(g))
  {
    hide BooksLaw, AccountsLaw, ReferenceLaw, RowsLaw, CashLaw, SalakLaw, PaidOnceLaw, FeeLaw;
    hide Mint, TicketRoom;
    forall g: nat | g < |db.goals| && db.goals[g].active && db.goals[g].account == kapook
      ensures ActiveGoal(db.goals, kapook) == Some(g) && kapook < |db.books.accounts|
      ensures db.books.accounts[kapook].balance == db.goals[g].Available() - Sum(db.rows, ExpiredIn(g))
      ensures 0 <= Sum(db.rows, ExpiredIn(g))
    {
      ActiveGoalCash(db, g);
    }
    var found := ActiveGoal(db.goals, kapook);
    if found.Some? && db.goals[found.value].product < |db.products| {
      MintSucceedsExactlyWhen(db, salak, db.goals[found.value].product, amount, now);
    }
  }

  /** The product of goal `g` sells `amount` at `now`, and has the tickets. */
  predicate SellsNow(db: Db, g: nat, amount: int, now: Stamp)
    requires Tables(db) && g < |db.goals|
  {
    var product := db.goals[g].product;
    && product < |db.products| && db.products[product].active
    && ValidAmount(db.products[product], amount) && !IsDrawDay(db.products[product], Day(now))
    && TicketRoom(db.cursors[product], amount / db.products[product].unitPrice)
  }

  /** A settlement never fails for want of money: it succeeds exactly when the
      holding is there and unsettled, its product still active, its owner has a
      primary account, and the interest comes to at least half a satang. */
  lemma {:induction false} SettleExactlyWhen(db: Db, h: nat, now: Stamp)
    requires Inv(db)
    ensures (forall i :: 0 <= i < |db.holdings| ==> db.holdings[i].account < |db.books.accounts|)
            && (forall j :: 0 <= j < |db.rows| ==> db.rows[j].goal < |db.goals|)
    ensures Settle(db, h, now) != Refused(InsufficientFunds)
    ensures Settle(db, h, now).Done? <==>
            && h < |db.holdings| && db.holdings[h].settledAt.None?
            && db.holdings[h].product < |db.products| && db.products[db.holdings[h].product].active
            && (exists a :: 0 <= a < |db.books.accounts| && db.books.accounts[a].primary
                            && db.books.accounts[a].user == db.books.accounts[db.holdings[h].account].user)
            && 50 <= db.products[db.holdings[h].product].interest * db.holdings[h].units
  {
    hide BooksLaw, AccountsLaw, ReferenceLaw, GoalsLaw, CashLaw, SalakLaw, PaidOnceLaw, FeeLaw, Paid, Expired;
    forall i | 0 <= i < |db.holdings| ensures db.holdings[i].account < |db.books.accounts| {
      assert HoldingLaw(db.holdings[i], db.books.accounts, db.cursors);
    }
    if h < |db.holdings| && db.holdings[h].settledAt.None? {
      SettlementIsCovered(db, h);
    }
  }

  // ---- money

  /** All balances are the openings plus the interest paid less the fees, the
      fees being those recomputed from the withdrawal rows. */
  lemma {:induction false} BalancesAddUp(db: Db)
    requires Inv(db)
    ensures Sum(db.books.accounts, Balances()) ==
            Sum(db.books.accounts, Openings()) + Sum(db.books.ledger, InterestPaid()) - Sum(db.rows, FeesCharged())
  {
    hide AccountsLaw, GoalsLaw, RowsLaw, CashLaw, SalakLaw, PaidOnceLaw, HoldingsLaw, FeeLaw;
  }

  /** The principal paid for a holding is never more than the holding. */
  lemma {:induction false} PaidOnceSettled(db: Db, h: nat)
    requires Inv(db) && h < |db.holdings|
    ensures Sum(db.books.ledger, PrincipalPaid(h)) in {0, db.holdings[h].amount}
    ensures Sum(db.books.ledger, PrincipalPaid(h)) == 0 <==> db.holdings[h].settledAt.None?
  {}

  // ---- free withdrawals

  function CountFree(rows: seq<Row>, goal: nat, from: Stamp, to: Stamp): nat {
    if rows == [] then 0
    else
      var n := |rows| - 1;
      CountFree(rows[..n], goal, from, to) +
      (if Counted(rows[n], goal, from, to) && rows[n].kind == WithdrawRow then 1 else 0)
  }

  /** In each anniversary window the first two withdrawals of a goal are free
      and every later one carries the fee. */
  lemma {:induction false} FirstTwoAreFree(rows: seq<Row>, goals: seq<Goal>, g: nat, t: Stamp)
    requires FeeLaw(rows, goals) && g < |goals| && Instant(goals[g].createdAt) <= Instant(t)
    requires forall j :: 0 <= j < |rows| ==>
               rows[j].goal < |goals| && Instant(goals[rows[j].goal].createdAt) <= Instant(rows[j].createdAt)
    ensures var w := Window(goals[g].createdAt, t);
            var n := CountWithdrawals(rows, g, w.0, w.1);
            CountFree(rows, g, w.0, w.1) == if n < 2 then n else 2
  {
    if rows != [] {
      var n := |rows| - 1;
      var w := Window(goals[g].createdAt, t);
      PrefixKeepsFees(rows, goals, n);
      FirstTwoAreFree(rows[..n], goals, g, t);
      if Counted(rows[n], g, w.0, w.1) {
        WindowsTile(goals[g].createdAt, t, rows[n].createdAt);
        assert EarlierInWindow(rows, goals, n) == CountWithdrawals(rows[..n], g, w.0, w.1);
      }
    }
  }

  lemma {:induction false} PrefixKeepsFees(rows: seq<Row>, goals: seq<Goal>, n: nat)
    requires FeeLaw(rows, goals) && n <= |rows|
    ensures FeeLaw(rows[..n], goals)
  {
    forall j: nat | j < n && rows[j].goal < |goals|
      ensures EarlierInWindow(rows[..n], goals, j) == EarlierInWindow(rows, goals, j)
    {
      assert rows[..n][..j] == rows[..j];
    }
  }

  datatype Quote = Quote(used: nat, remaining: int, nextIsFree: bool, fee: int, net: int)

  /** GetWithdrawalStatus for a candidate amount. */
  function WithdrawalStatus(db: Db, user: nat, kapook: nat, amount: int, now: Stamp): Result<Quote, Error> {
    match CheckAccount(db, user, kapook, Kapook)
    case Some(e) => Failure(e)
    case None =>
      match ActiveGoal(db.goals, kapook)
      case None => Failure(NoActiveGoal)
      case Some(g) =>
        var w := Window(db.goals[g].createdAt, now);
        var used := CountWithdrawals(db.rows, g, w.0, w.1);
        var left := FREE_WITHDRAWALS - used;
        var (fee, net) := Fees.ComputeWithdrawalFee(amount, used >= FREE_WITHDRAWALS);
        Success(Quote(used, if left < 0 then 0 else left, used < FREE_WITHDRAWALS, fee, net))
  }

  /** The preview and the charge are one computation of the goal, the window and
      the count. */
  lemma {:induction false} SameCountSameCharge(db: Db, later: Db, user: nat, kapook: nat, amount: int, now: Stamp,
          then_: Stamp)
    requires WithdrawalStatus(db, user, kapook, amount, now).Success?
    requires Withdraw(later, user, kapook, amount, then_).Done?
    requires var g := ActiveGoal(db.goals, kapook).value;
             && g < |later.goals| && later.goals[g].createdAt == db.goals[g].createdAt
             && ActiveGoal(later.goals, kapook) == Some(g)
             && var w := Window(db.goals[g].createdAt, now);
                && Window(db.goals[g].createdAt, then_) == w
                && CountWithdrawals(later.rows, g, w.0, w.1) == CountWithdrawals(db.rows, g, w.0, w.1)
    ensures var quote := WithdrawalStatus(db, user, kapook, amount, now).value;
            var charge := Withdraw(later, user, kapook, amount, then_).value;
            quote.fee == charge.fee && quote.net == charge.net && quote.nextIsFree == !charge.charged
            && quote.fee + quote.net == amount
  {}

  /** The quote is given exactly to the owner of a kapook account with an open
      goal, and counts down from two. */
  lemma {:induction false} QuoteShows(db: Db, user: nat, kapook: nat, amount: int, now: Stamp)
    requires amount > 0
    ensures var r := WithdrawalStatus(db, user, kapook, amount, now);
            var found := ActiveGoal(db.goals, kapook);
            && (r.Success? <==> Own(db, user, kapook, Kapook) && found.Some?)
            && (Own(db, user, kapook, Kapook) && found.None? ==> r == Failure(NoActiveGoal))
            && (!Own(db, user, kapook, Kapook) ==> r == Failure(
                  if Own(db, user, kapook, Savings) || Own(db, user, kapook, Salak) then WrongAccountKind
                  else AccountNotFound))
            && (r.Success? ==>
                  var q := r.value;
                  var w := Window(db.goals[found.value].createdAt, now);
                  && q.used == CountWithdrawals(db.rows, found.value, w.0, w.1)
                  && q.remaining == (if q.used == 0 then 2 else if q.used == 1 then 1 else 0)
                  && (q.nextIsFree <==> q.remaining > 0) && q.net == amount - q.fee
                  && (if q.nextIsFree then q.fee == 0 else -25 < 50 * q.fee - amount <= 25))
  {
    hide Window, CountWithdrawals;
    Fees.FeeIsNearest(amount);
  }

  // ---- what the tracker shows

  const NANOS_PER_SECOND := 1_000_000_000

  /** The purchase rows of a goal, and those the join with the holdings keeps. */
  function BuysOf(g: nat): Row -> int { (r: Row) => if r.kind == BuySalakRow && r.goal == g then 1 else 0 }
  function JoinedBuys(g: nat, holdings: seq<Holding>): Row -> int {
    (r: Row) => if r.kind == BuySalakRow && r.goal == g && r.holding.Some? && r.holding.value < |holdings| then 1 else 0
  }
  function JoinedUnits(g: nat, holdings: seq<Holding>): Row -> int {
    (r: Row) => if r.kind == BuySalakRow && r.goal == g && r.holding.Some? && r.holding.value < |holdings|
                then holdings[r.holding.value].units else 0
  }

  datatype Tracker = Tracker(available: int, reached: bool, secondsLeft: Option<int>, units: int, count: int,
      eligible: bool)

  function Snapshot(db: Db, g: nat, now: Stamp, countdown: int): Result<Tracker, Error>
    requires g < |db.goals|
  {
    var goal := db.goals[g];
    match CheckProduct(db.products, goal.product)
    case Some(e) => Failure(e)
    case None =>
      var secondsLeft :=
        match goal.reachedAt
        case None => None
        case Some(t) =>
          var left := Instant(t) + countdown - Instant(now);
          Some(if left < 0 then 0 else left / NANOS_PER_SECOND);
      Success(Tracker(goal.Available(), goal.reachedAt.Some?, secondsLeft,
                      Sum(db.rows, JoinedUnits(g, db.holdings)), Sum(db.rows, JoinedBuys(g, db.holdings)),
                      goal.Available() >= db.products[goal.product].minPurchase))
  }

  /** What the tracker shows of an active goal is so: the target is met exactly
      when it says so, a goal the worker may claim shows no time left, one it
      calls ineligible cannot be bought from for any amount, and it counts
      every purchase of the goal. */
  lemma {:induction false} TrackerIsHonest(db: Db, g: nat, now: Stamp, countdown: int)
    requires Tables(db) && Inv(db) && g < |db.goals| && db.goals[g].active && Snapshot(db, g, now, countdown).Success?
    ensures var shown := Snapshot(db, g, now, countdown).value;
            && (shown.reached <==> db.goals[g].saving == db.goals[g].target)
            && (Due(db.goals[g], now, countdown) ==> shown.secondsLeft == Some(0))
            && (!shown.eligible ==> forall user, salak: nat, amount, automatic ::
                  BuyFromGoal(db, user, db.goals[g].account, salak, amount, automatic, now).Refused?)
            && shown.count == Sum(db.rows, BuysOf(g)) && shown.available == db.goals[g].saving - db.goals[g].salak
  {
    hide BooksLaw, AccountsLaw, ReferenceLaw, SalakLaw, PaidOnceLaw, HoldingsLaw, FeeLaw;
    assert GoalLaw(db.goals[g]);
    GoalFacts(db, g);
    SumExt(db.rows, JoinedBuys(g, db.holdings), BuysOf(g));
    if !Snapshot(db, g, now, countdown).value.eligible {
      forall user: nat, salak: nat, amount, automatic
        ensures BuyFromGoal(db, user, db.goals[g].account, salak, amount, automatic, now).Refused?
      {
        IneligibleIsRefused(db, g, user, salak, amount, automatic, now);
      }
    }
  }

  /** It is shown exactly while the goal's product is on sale; before the
      countdown has run out it shows the whole seconds left, rounded down. */
  lemma {:induction false} TrackerShows(db: Db, g: nat, now: Stamp, countdown: int)
    requires g < |db.goals|
    ensures var goal, r := db.goals[g], Snapshot(db, g, now, countdown);
            && (r.Success? <==> goal.product < |db.products| && db.products[goal.product].active)
            && (r.Failure? ==> r.error == if goal.product < |db.products| then ProductInactive else ProductNotFound)
            && (r.Success? ==>
                  && (r.value.reached <==> goal.reachedAt.Some?)
                  && (r.value.secondsLeft.Some? <==> goal.reachedAt.Some?)
                  && (r.value.eligible <==>
                      goal.saving - goal.salak >= db.products[goal.product].minPurchase)
                  && (goal.reachedAt.Some? ==>
                        var left, seconds := Instant(goal.reachedAt.value) + countdown - Instant(now),
                            r.value.secondsLeft.value;
                        if left < 0 then seconds == 0
                        else seconds * 1_000_000_000 <= left < (seconds + 1) * 1_000_000_000))
  {}

  /** The tickets and purchases shown start at none and grow with each purchase of
      the goal, by its tickets and by one; other rows leave them. */
  lemma {:induction false} TrackerFollows(db: Db, after: Db, g: nat, row: Row, now: Stamp, then_: Stamp, countdown: int)
    requires g < |db.goals| && g < |after.goals|
    requires Snapshot(db, g, now, countdown).Success? && Snapshot(after, g, then_, countdown).Success?
    requires after.rows == db.rows + [row] && |db.holdings| <= |after.holdings|
    requires forall h :: 0 <= h < |db.holdings| ==> after.holdings[h].units == db.holdings[h].units
    requires forall j :: 0 <= j < |db.rows| && db.rows[j].kind == BuySalakRow ==>
               db.rows[j].holding.Some? && db.rows[j].holding.value < |db.holdings|
    requires row.kind == BuySalakRow ==> row.holding.Some? && row.holding.value < |after.holdings|
    ensures var before, shown := Snapshot(db, g, now, countdown).value, Snapshot(after, g, then_, countdown).value;
            var bought := row.kind == BuySalakRow && row.goal == g;
            && shown.units == before.units + (if bought then after.holdings[row.holding.value].units else 0)
            && shown.count == before.count + (if bought then 1 else 0)
    ensures db.rows == [] ==> Snapshot(db, g, now, countdown).value.units == 0 ==
                              Snapshot(db, g, now, countdown).value.count
  {
    SumSnoc(db.rows, row, JoinedUnits(g, after.holdings));
    SumExt(db.rows, JoinedUnits(g, after.holdings), JoinedUnits(g, db.holdings));
    SumSnoc(db.rows, row, JoinedBuys(g, after.holdings));
    SumExt(db.rows, JoinedBuys(g, after.holdings), JoinedBuys(g, db.holdings));
  }

  lemma {:induction false} IneligibleIsRefused(db: Db, g: nat, user: nat, salak: nat, amount: int, automatic: bool,
          now: Stamp)
    requires Tables(db) && g < |db.goals| && ActiveGoal(db.goals, db.goals[g].account) == Some(g)
    requires db.goals[g].product < |db.products| &&
             db.goals[g].Available() < db.products[db.goals[g].product].minPurchase
    ensures BuyFromGoal(db, user, db.goals[g].account, salak, amount, automatic, now).Refused?
  {
    hide Purchase, Converted;
  }
}
