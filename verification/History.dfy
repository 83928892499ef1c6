/** What can be said of a quote, a goal or an account by looking only at what
    was called since. */
module History {
  import opened Outcomes
  import opened Calendar
  import opened Sums
  import opened Database
  import opened Steps
  import opened Laws
  import opened LawsKept
  import opened StepsKept
  import opened PurchasesKept
  import opened Worker
  import opened Runs
  import opened Consequences
  import Fees

  // ---- quotes

  /** The call is not a withdrawal from that kapook account. */
  predicate NoWithdrawalFrom(op: Op, kapook: nat) {
    op.OpWithdraw? ==> op.kapook != kapook
  }

  /** Rows that were added, none of them a withdrawal from goal `g`. */
  ghost predicate AddsNoWithdrawal(db: Db, db': Db, g: nat) {
    && db.rows <= db'.rows
    && forall j :: |db.rows| <= j < |db'.rows| && db'.rows[j].goal == g ==>
         db'.rows[j].kind !in {WithdrawRow, WithdrawWithFeeRow}
  }

  lemma {:induction false} CountStays(rows: seq<Row>, rows': seq<Row>, g: nat, from: Stamp, to: Stamp)
    requires rows <= rows'
    requires forall j :: |rows| <= j < |rows'| && rows'[j].goal == g ==>
             rows'[j].kind !in {WithdrawRow, WithdrawWithFeeRow}
    ensures CountWithdrawals(rows', g, from, to) == CountWithdrawals(rows, g, from, to)
    decreases |rows'|
  {
    if |rows'| == |rows| {
      assert rows' == rows;
    } else {
      var n := |rows'| - 1;
      CountStays(rows, rows'[..n], g, from, to);
      assert !Counted(rows'[n], g, from, to);
    }
  }

  lemma {:induction false} WithdrawAddsElsewhere(db: Db, user: nat, kapook: nat, amount: int, now: Stamp, g: nat)
    requires Withdraw(db, user, kapook, amount, now).Done? && g < |db.goals| && db.goals[g].account != kapook
    ensures AddsNoWithdrawal(db, Withdraw(db, user, kapook, amount, now).db, g)
  {
    hide Transfer, FeeDue, Fees.ComputeWithdrawalFee;
  }

  lemma {:induction false} OtherCallAddsNone(db: Db, op: Op, now: Stamp, g: nat)
    requires Ready(db) && !op.OpWithdraw? && !op.OpWorkerPass?
    ensures AddsNoWithdrawal(db, Apply(db, op, now), g)
  {
    hide Transfer, Mint, Post;
  }

  lemma {:induction false} ProcessAddsNone(mid: Db, g: nat, claimed: Goal, now: Stamp, other: nat)
    requires Tables(mid) && g < |mid.goals| && claimed.account < |mid.books.accounts|
    ensures AddsNoWithdrawal(mid, ProcessGoal(mid, g, claimed, now).0, other)
  {
    hide Transfer, Mint, Post;
  }

  lemma {:induction false} PassAddsNone(db: Db, claim: seq<int>, now: Stamp, g: nat)
    requires Tables(db) && Claimable(db, claim)
    ensures AddsNoWithdrawal(db, Pass(db, claim, now).0, g)
  {
    hide ProcessGoal;
    if claim != [] {
      var n := |claim| - 1;
      PassAddsNone(db, claim[..n], now, g);
      ProcessAddsNone(Pass(db, claim[..n], now).0, claim[n], db.goals[claim[n]], now, g);
    }
  }

  lemma {:induction false} ApplyAddsNone(db: Db, op: Op, now: Stamp, g: nat)
    requires Ready(db) && g < |db.goals| && NoWithdrawalFrom(op, db.goals[g].account)
    ensures AddsNoWithdrawal(db, Apply(db, op, now), g)
  {
    hide Pass, Withdraw, AddsNoWithdrawal;
    NothingAddsNone(db, g);
    match op
    case OpWithdraw(user, kapook, amount) =>
      if Withdraw(db, user, kapook, amount, now).Done? {
        WithdrawAddsElsewhere(db, user, kapook, amount, now, g);
      }
    case OpWorkerPass(claim, countdown) =>
      if Apply(db, op, now) != db {
        PassAddsNone(db, claim, now, g);
      }
    case _ => OtherCallAddsNone(db, op, now, g);
  }

  lemma {:induction false} NothingAddsNone(db: Db, g: nat)
    ensures AddsNoWithdrawal(db, db, g)
  {}

  /** Between two states of a run, with no withdrawal from its account called,
      the goal's withdrawals in any window are as many, and it is as old. */
  lemma {:induction false} CountStaysOverRun(states: seq<Db>, events: seq<Event>, i: nat, j: nat, g: nat, from: Stamp,
          to: Stamp)
    requires IsRun(states, events) && Inv(states[0]) && i <= j < |states| && g < |states[i].goals|
    requires forall k :: i <= k < j ==> NoWithdrawalFrom(events[k].op, states[i].goals[g].account)
    ensures CountWithdrawals(states[j].rows, g, from, to) == CountWithdrawals(states[i].rows, g, from, to)
    ensures g < |states[j].goals| && states[j].goals[g].account == states[i].goals[g].account
    ensures states[j].goals[g].createdAt == states[i].goals[g].createdAt
    decreases j - i
  {
    hide Inv, Apply, Ready, CountWithdrawals;
    if i < j {
      CountStaysOverRun(states, events, i, j - 1, g, from, to);
      RunKeepsInv(states, events, j - 1);
      ApplyGrows(states[j - 1], events[j - 1].op, events[j - 1].now);
      assert GoalGrows(states[j - 1].goals[g], states[j].goals[g]);
      ApplyAddsNone(states[j - 1], events[j - 1].op, events[j - 1].now, g);
      CountStays(states[j - 1].rows, states[j].rows, g, from, to);
    }
  }

  /** A quote is the charge of any later withdrawal in the same window, if no
      withdrawal from the account was called in between and the goal it was
      given for is still open. */
  lemma {:induction false} QuoteIsCharged(states: seq<Db>, events: seq<Event>, i: nat, j: nat, g: nat,
                                          user: nat, kapook: nat, amount: int, now: Stamp, then_: Stamp)
    requires IsRun(states, events) && Inv(states[0]) && i <= j < |states|
    requires forall k :: i <= k < j ==> NoWithdrawalFrom(events[k].op, kapook)
    requires ActiveGoal(states[i].goals, kapook) == Some(g) && g < |states[j].goals| && states[j].goals[g].active
    requires Window(states[i].goals[g].createdAt, then_) == Window(states[i].goals[g].createdAt, now)
    requires WithdrawalStatus(states[i], user, kapook, amount, now).Success?
    requires Withdraw(states[j], user, kapook, amount, then_).Done?
    ensures var quote := WithdrawalStatus(states[i], user, kapook, amount, now).value;
            var charge := Withdraw(states[j], user, kapook, amount, then_).value;
            && quote.fee == charge.fee && quote.net == charge.net && quote.nextIsFree == !charge.charged
            && quote.fee + quote.net == amount
  {
    hide Inv, Apply, Ready, CountWithdrawals, Window, Withdraw, WithdrawalStatus;
    var w := Window(states[i].goals[g].createdAt, now);
    CountStaysOverRun(states, events, i, j, g, w.0, w.1);
    RunKeepsInv(states, events, j);
    ActiveGoalCash(states[j], g);
    SameCountSameCharge(states[i], states[j], user, kapook, amount, now, then_);
  }

  // ---- when a goal is finished

  /** It was reached, and nothing of it is left but tickets. */
  predicate Finished(goal: Goal) {
    goal.reachedAt.Some? && goal.Available() == 0
  }

  /** Goals of `db` that a move closes are finished by it; those it opens are open. */
  ghost predicate ClosesFinished(db: Db, db': Db) {
    && |db.goals| <= |db'.goals|
    && (forall g :: 0 <= g < |db.goals| && db.goals[g].active && !db'.goals[g].active ==> Finished(db'.goals[g]))
    && (forall g :: |db.goals| <= g < |db'.goals| ==> db'.goals[g].active)
  }

  lemma {:induction false} PassClosesFinished(db: Db, claim: seq<int>, now: Stamp)
    requires Tables(db) && Claimable(db, claim)
    requires Inv(db) && Later(db, now) && Claimed(db.goals, claim)
    ensures ClosesFinished(db, Pass(db, claim, now).0)
  {
    hide Inv, ProcessGoal, Pass;
    var after := Pass(db, claim, now).0;
    PassMidway(db, claim, now);
    forall g | 0 <= g < |db.goals| && db.goals[g].active && !after.goals[g].active ensures Finished(after.goals[g]) {
      assert g in Members(claim);
      var k :| 0 <= k < |claim| && claim[k] == g;
      PassRows(db, claim, k, now);
    }
  }

  lemma {:induction false} NewGoalsAreOpen(db: Db, op: Op, now: Stamp)
    requires Ready(db) && !op.OpWorkerPass?
    ensures forall g :: |db.goals| <= g < |Apply(db, op, now).goals| ==> Apply(db, op, now).goals[g].active
  {
    hide Transfer, Mint, Post;
  }

  lemma {:induction false} ApplyClosesFinished(db: Db, op: Op, now: Stamp)
    requires Ready(db) && Inv(db) && Later(db, now)
    ensures ClosesFinished(db, Apply(db, op, now))
  {
    hide Inv, Pass, IsClaim;
    if op.OpWorkerPass? {
      if Apply(db, op, now) != db {
        ClaimIsClaimed(db.goals, now, op.countdown, {}, CLAIM_LIMIT, op.claim);
        PassClosesFinished(db, op.claim, now);
      }
    } else {
      hide Apply;
      ApplyMoves(db, op, now);
      ApplyKeepsInv(db, op, now);
      NewGoalsAreOpen(db, op, now);
      ClosedIsReached(Apply(db, op, now));
    }
  }

  lemma {:induction false} ClosedIsReached(db: Db)
    requires Inv(db)
    ensures forall g :: 0 <= g < |db.goals| && !db.goals[g].active ==> db.goals[g].reachedAt.Some?
    ensures forall g :: 0 <= g < |db.goals| && Finished(db.goals[g]) ==> !db.goals[g].active
  {
    hide BooksLaw, AccountsLaw, ReferenceLaw, RowsLaw, CashLaw, SalakLaw, PaidOnceLaw, HoldingsLaw, FeeLaw;
    forall g | 0 <= g < |db.goals| ensures GoalLaw(db.goals[g]) {}
  }

  ghost predicate FinishedBy(states: seq<Db>, i: nat, g: nat)
    requires i < |states|
  {
    exists m: nat :: m <= i && FinishedAt(states, m, g)
  }

  predicate FinishedAt(states: seq<Db>, m: nat, g: nat)
    requires m < |states|
  {
    g < |states[m].goals| && Finished(states[m].goals[g])
  }

  /** In any run from an empty database, a goal is closed exactly from the
      moment it was reached and nothing of it was left but tickets. */
  lemma {:induction false} ClosedExactlyOnceFinished(states: seq<Db>, events: seq<Event>, i: nat, g: nat)
    requires IsRun(states, events) && Inv(states[0]) && states[0].goals == [] && i < |states| && g < |states[i].goals|
    ensures !states[i].goals[g].active <==> FinishedBy(states, i, g)
  {
    hide Inv, Apply, Ready;
    RunKeepsInv(states, events, i);
    ClosedIsReached(states[i]);
    if i > 0 {
      RunKeepsInv(states, events, i - 1);
      ApplyClosesFinished(states[i - 1], events[i - 1].op, events[i - 1].now);
      ApplyGrows(states[i - 1], events[i - 1].op, events[i - 1].now);
      hide Finished;
      if g < |states[i - 1].goals| {
        ClosedExactlyOnceFinished(states, events, i - 1, g);
        assert GoalGrows(states[i - 1].goals[g], states[i].goals[g]);
      }
      if !states[i].goals[g].active {
        if g < |states[i - 1].goals| && !states[i - 1].goals[g].active {
          var m: nat :| m <= i - 1 && FinishedAt(states, m, g);
          assert FinishedAt(states, m, g);
        } else {
          assert FinishedAt(states, i, g);
        }
      }
      if FinishedBy(states, i, g) {
        FinishedStaysClosed(states, events, i, g);
      }
    }
  }

  lemma {:induction false} FinishedStaysClosed(states: seq<Db>, events: seq<Event>, i: nat, g: nat)
    requires IsRun(states, events) && Inv(states[0]) && i < |states| && g < |states[i].goals| &&
             FinishedBy(states, i, g)
    ensures !states[i].goals[g].active
  {
    hide Inv, Apply, Ready, Finished;
    var m: nat :| m <= i && FinishedAt(states, m, g);
    RunKeepsInv(states, events, m);
    ClosedIsReached(states[m]);
    RunGrows(states, events, m, i);
    assert GoalGrows(states[m].goals[g], states[i].goals[g]);
  }

  /** A goal with terms its customer may set is refused exactly while a goal
      opened on the account before has not been finished. */
  lemma {:induction false} RefusedWhileUnfinished(states: seq<Db>, events: seq<Event>, i: nat,
                                                  user: nat, account: nat, product: nat, target: int, now: Stamp)
    requires IsRun(states, events) && Inv(states[0]) && states[0].goals == [] && i < |states|
    requires Tables(states[i])
    requires Own(states[i], user, account, Kapook) && user in states[i].accepted
    requires product < |states[i].products| && states[i].products[product].active
    requires ValidAmount(states[i].products[product], target)
    ensures CreateGoal(states[i], user, account, product, target, now).Refused? <==>
            exists g: nat :: g < |states[i].goals| && states[i].goals[g].account == account && !FinishedBy(states, i, g)
    ensures CreateGoal(states[i], user, account, product, target, now).Refused? ==>
            CreateGoal(states[i], user, account, product, target, now) == Refused(GoalAlreadyExists)
  {
    hide Inv, Apply, Ready, FinishedBy;
    forall g: nat | g < |states[i].goals| ensures !states[i].goals[g].active <==> FinishedBy(states, i, g) {
      ClosedExactlyOnceFinished(states, events, i, g);
    }
    var found := ActiveGoal(states[i].goals, account);
  }

  // ---- a settlement on an active goal

  /** Settling a holding that a still-active goal bought strands that goal, and
      strands no other: none of it can be taken back from then on. */
  lemma {:induction false} SettlingStrandsExactly(db: Db, h: nat, now: Stamp, g: nat)
    requires Ready(db) && Inv(db) && Later(db, now) && Settle(db, h, now).Done?
    ensures Stuck(Settle(db, h, now).db, g) <==>
            || Stuck(db, g)
            || (g < |db.goals| && db.goals[g].active && BuyRow(db.rows, h).Some? &&
                db.rows[BuyRow(db.rows, h).value].goal == g)
  {
    hide BooksLaw, AccountsLaw, ReferenceLaw, GoalsLaw, RowsLaw, CashLaw, SalakLaw, PaidOnceLaw, HoldingsLaw, FeeLaw;
    hide SettledDb, Settle, PayOk, Paid;
    var primary, interest := SettleGuards(db, h, now);
    SettledShape(db, h, primary, interest, now);
    ExpiredIsNonNegative(db, g);
    var db' := Settle(db, h, now).db;
    if BuyRow(db.rows, h).Some? {
      RowAddsBuys(db.rows, db'.rows[|db.rows|], g);
    }
  }

  lemma {:induction false} ExpiredIsNonNegative(db: Db, g: nat)
    requires RowsLaw(db.rows, db.goals, db.holdings, db.clock)
    ensures 0 <= Sum(db.rows, ExpiredIn(g))
    ensures forall j :: 0 <= j < |db.rows| ==> db.rows[j].amount > 0
  {
    SumNonNegative(db.rows, ExpiredIn(g));
  }

  // ---- money

  /** What the events of a stretch put into a log, by weight. */
  function Since<T>(before: seq<T>, after: seq<T>, f: T -> int): int
    requires before <= after
  {
    Sum(after[|before|..], f)
  }

  lemma {:induction false} SinceIsDifference<T>(before: seq<T>, after: seq<T>, f: T -> int)
    requires before <= after
    ensures Sum(after, f) == Sum(before, f) + Since(before, after, f)
  {
    assert after == before + after[|before|..];
    SumConcat(before, after[|before|..], f);
  }

  /** Over any stretch of a run, all balances together move by what new accounts
      were opened with and the interest the stretch paid, less the fees of its
      withdrawals. */
  lemma {:induction false} MoneyIsConserved(states: seq<Db>, events: seq<Event>, i: nat, j: nat)
    requires IsRun(states, events) && Inv(states[0]) && i <= j < |states|
    ensures states[i].books.ledger <= states[j].books.ledger && states[i].rows <= states[j].rows
    ensures Sum(states[j].books.accounts, Balances()) - Sum(states[i].books.accounts, Balances()) ==
            Sum(states[j].books.accounts, Openings()) - Sum(states[i].books.accounts, Openings())
            + Since(states[i].books.ledger, states[j].books.ledger, InterestPaid())
            - Since(states[i].rows, states[j].rows, FeesCharged())
  {
    hide Inv, Apply, Ready, Since, RowFee;
    RunKeepsInv(states, events, i);
    RunKeepsInv(states, events, j);
    RunGrows(states, events, i, j);
    BalancesAddUp(states[i]);
    BalancesAddUp(states[j]);
    SinceIsDifference(states[i].books.ledger, states[j].books.ledger, InterestPaid());
    SinceIsDifference(states[i].rows, states[j].rows, FeesCharged());
  }

  /** The principal of a holding is paid in the stretch that settles it, in full,
      and in no other. */
  lemma {:induction false} PaidAtMostOnce(states: seq<Db>, events: seq<Event>, i: nat, j: nat, h: nat)
    requires IsRun(states, events) && Inv(states[0]) && i <= j < |states| && h < |states[i].holdings|
    ensures h < |states[j].holdings| && states[j].holdings[h].amount == states[i].holdings[h].amount
    ensures states[i].holdings[h].settledAt.Some? ==> states[j].holdings[h] == states[i].holdings[h]
    ensures states[i].books.ledger <= states[j].books.ledger
    ensures Since(states[i].books.ledger, states[j].books.ledger, PrincipalPaid(h)) ==
            if states[i].holdings[h].settledAt.None? && states[j].holdings[h].settledAt.Some?
            then states[i].holdings[h].amount else 0
  {
    hide Inv, Apply, Ready, Since;
    RunKeepsInv(states, events, i);
    RunKeepsInv(states, events, j);
    RunGrows(states, events, i, j);
    assert HoldingStays(states[i].holdings[h], states[j].holdings[h]);
    PaidOnceSettled(states[i], h);
    PaidOnceSettled(states[j], h);
    SinceIsDifference(states[i].books.ledger, states[j].books.ledger, PrincipalPaid(h));
  }
}
