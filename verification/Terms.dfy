/** While product terms stay what they were when a goal was set, what is left
    of a reached goal is always a valid purchase, so the worker completes it. */
module Terms {
  import opened Outcomes
  import opened Calendar
  import opened Sums
  import opened Database
  import opened Steps
  import opened Laws
  import opened StepsKept
  import opened PurchasesKept
  import opened Worker
  import opened Runs
  import Fees

  // ---- multiples

  lemma {:induction false} ProductIsMultiple(m: int, k: int)
    requires m > 0
    ensures (m * k) % m == 0
  {
    var q, r := (m * k) / m, (m * k) % m;
    assert m * (k - q) == r;
    assert k - q >= 1 ==> m * (k - q) >= m;
    assert k - q <= -1 ==> m * (k - q) <= -m;
  }

  lemma {:induction false} MultiplesAddUp(a: int, b: int, m: int)
    requires m > 0 && a % m == 0 && b % m == 0
    ensures (a + b) % m == 0 && (a - b) % m == 0
    ensures a > 0 ==> a >= m
  {
    assert a == m * (a / m) && b == m * (b / m);
    assert a + b == m * (a / m + b / m) && a - b == m * (a / m - b / m);
    ProductIsMultiple(m, a / m + b / m);
    ProductIsMultiple(m, a / m - b / m);
    assert a / m <= 0 ==> m * (a / m) <= 0;
    assert a / m >= 1 ==> m * (a / m) >= m;
  }

  lemma {:induction false} MultipleOfMultiple(a: int, step: int, unit: int)
    requires unit > 0 && step > 0 && step % unit == 0 && a % step == 0
    ensures a / unit * unit == a
  {
    assert a == step * (a / step) == unit * (step / unit) * (a / step);
    assert unit * (step / unit) * (a / step) == unit * (step / unit * (a / step));
    ProductIsMultiple(unit, step / unit * (a / step));
  }

  // ---- the law

  ghost predicate GoalTerms(goal: Goal, products: seq<Product>) {
    && goal.product < |products| && products[goal.product].step > 0
    && ValidAmount(products[goal.product], goal.target)
    && goal.salak % products[goal.product].step == 0
  }

  /** The target is a valid purchase of the goal's product, and what the goal
      bought came in steps of it. */
  ghost predicate TermsLaw(db: Db, g: nat) {
    && g < |db.goals| && GoalTerms(db.goals[g], db.products)
    && forall j :: 0 <= j < |db.rows| && BuysFor(db.rows[j], g) ==>
         db.rows[j].amount % db.products[db.goals[g].product].step == 0
  }

  predicate BuysFor(r: Row, g: nat) {
    r.kind == BuySalakRow && r.goal == g
  }

  predicate SameTerms(p: Product, q: Product) {
    p.minPurchase == q.minPurchase && p.maxPurchase == q.maxPurchase && p.step == q.step
  }

  /** The call does not revise the purchase terms of the goal's own product. */
  ghost predicate TermsKept(db: Db, op: Op, g: nat) {
    op.OpReviseProduct? && g < |db.goals| && op.product == db.goals[g].product && op.product < |db.products| ==>
      SameTerms(db.products[op.product], op.p)
  }

  /** What a call may do to the goal, its product and its rows. */
  ghost predicate StepOfTerms(db: Db, db': Db, g: nat)
    requires TermsLaw(db, g)
  {
    var goal := db.goals[g];
    var step := db.products[goal.product].step;
    && |db.goals| <= |db'.goals| && db'.goals[g].product == goal.product && db'.goals[g].target == goal.target
    && goal.product < |db'.products| && SameTerms(db.products[goal.product], db'.products[goal.product])
    && (db'.goals[g].salak - goal.salak) % step == 0
    && db.rows <= db'.rows && |db'.rows| <= |db.rows| + 1
    && (|db'.rows| > |db.rows| && BuysFor(db'.rows[|db.rows|], g) ==> db'.rows[|db.rows|].amount % step == 0)
  }

  lemma {:induction false} StepKeepsTerms(db: Db, db': Db, g: nat)
    requires TermsLaw(db, g) && StepOfTerms(db, db', g)
    ensures TermsLaw(db', g)
  {
    var step := db.products[db.goals[g].product].step;
    MultiplesAddUp(db.goals[g].salak, db'.goals[g].salak - db.goals[g].salak, step);
  }

  lemma {:induction false} DepositSteps(db: Db, user: nat, kapook: nat, savings: nat, amount: int, now: Stamp, g: nat)
    requires TermsLaw(db, g) && Deposit(db, user, kapook, savings, amount, now).Done?
    ensures StepOfTerms(db, Deposit(db, user, kapook, savings, amount, now).db, g)
  {
    hide Transfer;
  }

  lemma {:induction false} WithdrawSteps(db: Db, user: nat, kapook: nat, amount: int, now: Stamp, g: nat)
    requires TermsLaw(db, g) && Withdraw(db, user, kapook, amount, now).Done?
    ensures StepOfTerms(db, Withdraw(db, user, kapook, amount, now).db, g)
  {
    hide Transfer, FeeDue, Fees.ComputeWithdrawalFee;
  }

  lemma {:induction false} BuyAmountIsValid(db: Db, user: nat, kapook: nat, salak: nat, amount: int, automatic: bool,
          now: Stamp, g: nat)
    requires Tables(db) && BuyFromGoal(db, user, kapook, salak, amount, automatic, now).Done?
    requires ActiveGoal(db.goals, kapook) == Some(g)
    ensures db.goals[g].product < |db.products| && ValidAmount(db.products[db.goals[g].product], amount)
  {
    hide Purchase, Converted;
  }

  lemma {:induction false} BuySteps(db: Db, user: nat, kapook: nat, salak: nat, amount: int, automatic: bool,
          now: Stamp, g: nat)
    requires TermsLaw(db, g) && Tables(db) && BuyFromGoal(db, user, kapook, salak, amount, automatic, now).Done?
    ensures StepOfTerms(db, BuyFromGoal(db, user, kapook, salak, amount, automatic, now).db, g)
  {
    hide BuyFromGoal, BuyOk, BoughtDb;
    var bought := BuyGuards(db, user, kapook, salak, amount, automatic, now);
    BuyAmountIsValid(db, user, kapook, salak, amount, automatic, now, bought);
    assert BuyOk(db, kapook, salak, bought, amount, now);
    BuyTouchesOne(db, kapook, salak, bought, amount, automatic, now, g);
  }

  lemma {:induction false} BuyTouchesOne(db: Db, kapook: nat, salak: nat, bought: nat, amount: int, automatic: bool,
          now: Stamp, g: nat)
    requires TermsLaw(db, g) && BuyOk(db, kapook, salak, bought, amount, now) && bought < |db.goals|
    requires amount % db.products[db.goals[bought].product].step == 0
    ensures StepOfTerms(db, BoughtDb(db, kapook, salak, bought, amount, automatic, now), g)
  {
    hide BoughtDb, Mint, BuyOk;
    BoughtShape(db, kapook, salak, bought, amount, automatic, now);
  }

  lemma {:induction false} SettleSteps(db: Db, h: nat, now: Stamp, g: nat)
    requires TermsLaw(db, g) && Ready(db) && Inv(db) && Settle(db, h, now).Done?
    ensures StepOfTerms(db, Settle(db, h, now).db, g)
  {
    hide BooksLaw, AccountsLaw, ReferenceLaw, GoalsLaw, RowsLaw, CashLaw, SalakLaw, PaidOnceLaw, HoldingsLaw, FeeLaw;
    hide SettledDb, Settle, PayOk, Paid;
    var primary, interest := SettleGuards(db, h, now);
    SettledShape(db, h, primary, interest, now);
    if BuyRow(db.rows, h).Some? {
      var j := BuyRow(db.rows, h).value;
      if db.rows[j].goal == g {
        assert BuysFor(db.rows[j], g);
        MultiplesAddUp(0, db.rows[j].amount, db.products[db.goals[g].product].step);
      }
    }
  }

  lemma {:induction false} QuietSteps(db: Db, op: Op, now: Stamp, g: nat)
    requires Ready(db) && TermsLaw(db, g) && TermsKept(db, op, g)
    requires op.OpOpenAccount? || op.OpAddProduct? || op.OpReviseProduct? || op.OpAcceptTerms? || op.OpCreateGoal? ||
             op.OpBuySalak?
    ensures StepOfTerms(db, Apply(db, op, now), g)
  {
    hide Transfer, Mint;
  }

  lemma {:induction false} BookkeepingSteps(db: Db, g: nat, claimed: Goal, now: Stamp, other: nat)
    requires TermsLaw(db, other) && Tables(db) && g < |db.goals| && claimed.account < |db.books.accounts|
    requires ProcessGoal(db, g, claimed, now).1 != Purchased
    ensures StepOfTerms(db, ProcessGoal(db, g, claimed, now).0, other)
  {
    hide ProcessGoal;
    BookkeepingOnly(db, g, claimed, now);
  }

  lemma {:induction false} ProcessKeepsTerms(mid: Db, g: nat, claimed: Goal, now: Stamp, other: nat)
    requires TermsLaw(mid, other) && Tables(mid) && g < |mid.goals| && claimed.account < |mid.books.accounts|
    ensures TermsLaw(ProcessGoal(mid, g, claimed, now).0, other)
  {
    hide TermsLaw, StepOfTerms, BuyFromGoal;
    var user := mid.books.accounts[claimed.account].user;
    var after := ProcessGoal(mid, g, claimed, now).0;
    if ProcessGoal(mid, g, claimed, now).1 == Purchased {
      BuySteps(mid, user, claimed.account, FirstSalak(mid.books.accounts, user).value, claimed.Available(), true, now,
          other);
    } else {
      BookkeepingSteps(mid, g, claimed, now, other);
    }
    StepKeepsTerms(mid, after, other);
  }

  lemma {:induction false} PassKeepsTerms(db: Db, claim: seq<int>, now: Stamp, g: nat)
    requires TermsLaw(db, g) && Tables(db) && Claimable(db, claim)
    ensures TermsLaw(Pass(db, claim, now).0, g)
  {
    hide TermsLaw, ProcessGoal;
    if claim != [] {
      var n := |claim| - 1;
      PassKeepsTerms(db, claim[..n], now, g);
      ProcessKeepsTerms(Pass(db, claim[..n], now).0, claim[n], db.goals[claim[n]], now, g);
    }
  }

  lemma {:induction false} ApplyKeepsTerms(db: Db, op: Op, now: Stamp, g: nat)
    requires Ready(db) && Inv(db) && TermsLaw(db, g) && TermsKept(db, op, g)
    ensures TermsLaw(Apply(db, op, now), g)
  {
    hide BooksLaw, AccountsLaw, ReferenceLaw, GoalsLaw, RowsLaw, CashLaw, SalakLaw, PaidOnceLaw, HoldingsLaw, FeeLaw;
    hide TermsLaw, TermsKept, StepOfTerms, Pass, Deposit, Withdraw, BuyFromGoal, Settle;
    if Apply(db, op, now) == db {
    } else if op.OpWorkerPass? {
      PassKeepsTerms(db, op.claim, now, g);
    } else {
      match op {
        case OpDeposit(user, kapook, savings, amount) => DepositSteps(db, user, kapook, savings, amount, now, g);
        case OpWithdraw(user, kapook, amount) => WithdrawSteps(db, user, kapook, amount, now, g);
        case OpBuyFromGoal(user, kapook, salak, amount) => BuySteps(db, user, kapook, salak, amount, false, now, g);
        case OpSettle(holding) => SettleSteps(db, holding, now, g);
        case _ => QuietSteps(db, op, now, g);
      }
      StepKeepsTerms(db, Apply(db, op, now), g);
    }
  }

  /** From any state where the law holds of a goal, it holds for as long as no
      call revises the terms of that goal's product. */
  lemma {:induction false} RunKeepsTerms(states: seq<Db>, events: seq<Event>, i: nat, j: nat, g: nat)
    requires IsRun(states, events) && Inv(states[0]) && i <= j < |states| && TermsLaw(states[i], g)
    requires forall k :: i <= k < j ==> TermsKept(states[k], events[k].op, g)
    ensures TermsLaw(states[j], g)
    decreases j - i
  {
    hide Inv, TermsLaw, TermsKept, Apply, Ready;
    if i < j {
      RunKeepsTerms(states, events, i, j - 1, g);
      RunKeepsInv(states, events, j - 1);
      ApplyKeepsTerms(states[j - 1], events[j - 1].op, events[j - 1].now, g);
    }
  }

  lemma {:induction false} NewGoalHasTerms(db: Db, op: Op, now: Stamp)
    requires Ready(db) && op.OpCreateGoal? && |Apply(db, op, now).goals| > |db.goals|
    ensures TermsLaw(Apply(db, op, now), |db.goals|)
  {}

  /** A goal opened by call `i` of a run keeps the law in every later state, if
      no later call revises the terms of its product. */
  lemma {:induction false} OpenedGoalKeepsTerms(states: seq<Db>, events: seq<Event>, i: nat, j: nat)
    requires IsRun(states, events) && Inv(states[0]) && i < j < |states|
    requires events[i].op.OpCreateGoal? && |states[i + 1].goals| > |states[i].goals|
    requires forall k :: i < k < j ==> TermsKept(states[k], events[k].op, |states[i].goals|)
    ensures TermsLaw(states[j], |states[i].goals|)
  {
    hide Inv, TermsLaw, TermsKept, Apply, Ready;
    NewGoalHasTerms(states[i], events[i].op, events[i].now);
    RunKeepsTerms(states, events, i + 1, j, |states[i].goals|);
  }

  /** What is left of a reached goal is a valid purchase of its product. */
  lemma {:induction false} RemainderIsValid(goal: Goal, products: seq<Product>)
    requires GoalLaw(goal) && GoalTerms(goal, products) && goal.active && goal.reachedAt.Some?
    requires products[goal.product].minPurchase <= products[goal.product].step
    ensures ValidAmount(products[goal.product], goal.Available())
  {
    var p := products[goal.product];
    MultiplesAddUp(goal.target, goal.salak, p.step);
    MultiplesAddUp(goal.Available(), 0, p.step);
  }

  /** In any state of such a run, a reached goal of which nothing has expired
      is bought whole on the worker's first attempt on a day that is not a draw
      day, provided its product is on sale and has ticket room; the tickets
      are worth the whole amount when the step is a multiple of the unit price. */
  lemma {:induction false} ReachedGoalIsBought(db: Db, g: nat, now: Stamp)
    requires Tables(db) && g < |db.goals| && GoalTerms(db.goals[g], db.products)
    requires db.goals[g].account < |db.books.accounts|
    requires Inv(db) && Later(db, now) && db.goals[g].active && db.goals[g].reachedAt.Some?
    requires Sum(db.rows, ExpiredIn(g)) == 0
    requires FirstSalak(db.books.accounts, db.books.accounts[db.goals[g].account].user).Some?
    requires var p := db.products[db.goals[g].product];
             && p.active && p.minPurchase <= p.step && !IsDrawDay(p, Day(now))
             && TicketRoom(db.cursors[db.goals[g].product], db.goals[g].Available() / p.unitPrice)
    ensures var (after, attempt) := ProcessGoal(db, g, db.goals[g], now);
            var p := db.products[db.goals[g].product];
            && attempt == Purchased && |after.goals| == |db.goals| && !after.goals[g].active
            && |after.books.accounts| == |db.books.accounts| && after.books.accounts[db.goals[g].account].balance == 0
            && after.goals[g].salak == after.goals[g].saving == after.goals[g].target
            && (p.step % p.unitPrice == 0 ==>
                  db.goals[g].Available() / p.unitPrice * p.unitPrice == db.goals[g].Available())
  {
    hide BooksLaw, AccountsLaw, ReferenceLaw, RowsLaw, CashLaw, SalakLaw, PaidOnceLaw, HoldingsLaw, FeeLaw;
    var p := db.products[db.goals[g].product];
    assert GoalLaw(db.goals[g]);
    hide GoalsLaw;
    RemainderIsValid(db.goals[g], db.products);
    WorkerBuysExactlyWhen(db, g, now);
    hide ProcessGoal;
    PurchaseCompletesGoal(db, g, now);
    if p.step % p.unitPrice == 0 {
      MultipleOfMultiple(db.goals[g].Available(), p.step, p.unitPrice);
    }
  }
}
