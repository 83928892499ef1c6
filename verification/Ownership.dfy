/** No call reaches another customer's money: what each call may touch, and
    what that leaves true of the whole ledger over every run. */
module Ownership {
  import opened Outcomes
  import opened Calendar
  import opened Database
  import opened Steps
  import opened Laws
  import opened StepsKept
  import opened PurchasesKept
  import opened Worker
  import opened Runs

  predicate OwnedBy(accounts: seq<Account>, a: nat, user: nat) {
    a < |accounts| && accounts[a].user == user
  }

  ghost predicate SameOwner(accounts: seq<Account>, a: nat, b: nat) {
    a < |accounts| && b < |accounts| && accounts[a].user == accounts[b].user
  }

  /** Accounts keep their owners, and only `user`'s balances move. */
  ghost predicate OwnAccounts(accounts: seq<Account>, accounts': seq<Account>, user: nat) {
    && |accounts| <= |accounts'|
    && (forall a :: 0 <= a < |accounts| ==> accounts'[a].user == accounts[a].user)
    && (forall a :: 0 <= a < |accounts| && accounts'[a] != accounts[a] ==> accounts[a].user == user)
  }

  /** New entries stand under one fresh reference, on `user`'s accounts. */
  ghost predicate OwnEntries(b: Books, b': Books, ref: nat, user: nat) {
    && b.ledger <= b'.ledger
    && forall i :: |b.ledger| <= i < |b'.ledger| ==>
         b'.ledger[i].ref == ref && OwnedBy(b'.accounts, b'.ledger[i].account, user)
  }

  /** Only `user`'s goals change, and a new one is for a user who accepted. */
  ghost predicate OwnGoals(db: Db, db': Db, user: nat) {
    && db.accepted <= db'.accepted && |db.goals| <= |db'.goals|
    && (forall g :: 0 <= g < |db.goals| ==> db'.goals[g].account == db.goals[g].account)
    && (forall g :: 0 <= g < |db.goals| && db'.goals[g] != db.goals[g] ==>
       OwnedBy(db.books.accounts, db.goals[g].account, user))
    && (forall g :: |db.goals| <= g < |db'.goals| ==>
          OwnedBy(db.books.accounts, db'.goals[g].account, user) && user in db.accepted)
  }

  ghost predicate BuyRowOwned(r: Row, db: Db) {
    r.kind == BuySalakRow && r.holding.Some? && r.holding.value < |db.holdings| ==>
      SameOwner(db.books.accounts, r.account, db.holdings[r.holding.value].account)
  }

  /** Holdings keep their accounts, and a new purchase row's holding is its owner's. */
  ghost predicate OwnRows(db: Db, db': Db) {
    && |db.holdings| <= |db'.holdings|
    && (forall h :: 0 <= h < |db.holdings| ==> db'.holdings[h].account == db.holdings[h].account)
    && db.rows <= db'.rows && (forall j :: |db.rows| <= j < |db'.rows| ==> BuyRowOwned(db'.rows[j], db'))
  }

  ghost predicate Touches(db: Db, db': Db, user: nat) {
    && OwnAccounts(db.books.accounts, db'.books.accounts, user)
    && OwnEntries(db.books, db'.books, db.nextId, user)
    && OwnGoals(db, db', user) && OwnRows(db, db')
  }

  // ---- what a call touches

  lemma {:induction false} TouchesNothing(db: Db, user: nat)
    ensures Touches(db, db, user)
  {}

  lemma {:induction false} MovedTouches(db: Db, g: nat, goal: Goal, from: nat, to: nat, out: int, into: int,
          row: Row, now: Stamp, user: nat)
    requires g < |db.goals| && goal.account == db.goals[g].account && OwnedBy(db.books.accounts, goal.account, user)
    requires from != to && OwnedBy(db.books.accounts, from, user) && OwnedBy(db.books.accounts, to, user)
    requires row.kind != BuySalakRow
    ensures Touches(db, Moved(db, g, goal, from, to, out, into, row, now), user)
  {}

  lemma {:induction false} DepositTouches(db: Db, user: nat, kapook: nat, savings: nat, amount: int, now: Stamp)
    ensures Touches(db, StateAfter(db, Deposit(db, user, kapook, savings, amount, now)), user)
  {
    hide Touches, Moved;
    TouchesNothing(db, user);
    var step := Deposit(db, user, kapook, savings, amount, now);
    if step.Done? {
      var g := step.value;
      MovedTouches(db, g, DepositGoal(db.goals[g], amount, now), savings, kapook, amount, amount,
                   Row(db.nextId, DepositRow, amount, kapook, g, Some(savings), None, None, now), now, user);
    }
  }

  lemma {:induction false} WithdrawTouches(db: Db, user: nat, kapook: nat, amount: int, now: Stamp)
    requires AccountsLaw(db.books.accounts)
    ensures Touches(db, StateAfter(db, Withdraw(db, user, kapook, amount, now)), user)
  {
    hide Touches, Moved, FeeDue;
    TouchesNothing(db, user);
    var step := Withdraw(db, user, kapook, amount, now);
    if step.Done? {
      var g, savings := step.value.goal, Primary(db.books.accounts, user).value;
      var charged := step.value.charged;
      var kind := if charged then WithdrawWithFeeRow else WithdrawRow;
      MovedTouches(db, g, WithdrawGoal(db.goals[g], amount), kapook, savings, amount, step.value.net,
                   Row(db.nextId, kind, amount, kapook, g, Some(savings), None, None, now), now, user);
    }
  }

  lemma {:induction false} MintedTouches(db: Db, funding: nat, salak: nat, product: nat, amount: int, now: Stamp,
          user: nat)
    requires MintOk(db, funding, salak, product, amount, now)
    requires OwnedBy(db.books.accounts, funding, user) && OwnedBy(db.books.accounts, salak, user)
    ensures Touches(db, Minted(db, funding, salak, product, amount, now), user)
    ensures Minted(db, funding, salak, product, amount, now).holdings[|db.holdings|].account == salak
  {}

  lemma {:induction false} BuySalakTouches(db: Db, user: nat, funding: nat, salak: nat, product: nat, amount: int,
          now: Stamp)
    requires Tables(db)
    ensures Touches(db, StateAfter(db, BuySalak(db, user, funding, salak, product, amount, now)), user)
  {
    hide Touches, Minted;
    TouchesNothing(db, user);
    if BuySalak(db, user, funding, salak, product, amount, now).Done? {
      BuySalakGuards(db, user, funding, salak, product, amount, now);
      MintedTouches(db, funding, salak, product, amount, now, user);
    }
  }

  lemma {:induction false} ConversionTouches(db: Db, paid: Db, g: nat, kapook: nat, amount: int, h: nat,
          automatic: bool, now: Stamp, user: nat)
    requires Touches(db, paid, user) && paid.goals == db.goals && g < |db.goals| &&
             OwnedBy(db.books.accounts, db.goals[g].account, user)
    requires OwnedBy(paid.books.accounts, kapook, user)
    requires h < |paid.holdings| && OwnedBy(paid.books.accounts, paid.holdings[h].account, user)
    ensures Touches(db, Converted(paid, g, kapook, amount, h, automatic, now), user)
  {}

  lemma {:induction false} BuyTouches(db: Db, user: nat, kapook: nat, salak: nat, amount: int, automatic: bool,
          now: Stamp)
    requires Tables(db)
    ensures Touches(db, StateAfter(db, BuyFromGoal(db, user, kapook, salak, amount, automatic, now)), user)
  {
    hide BuyFrom, Purchase, Converted;
    if BuyFromGoal(db, user, kapook, salak, amount, automatic, now).Done? {
      var g := BuyGuards(db, user, kapook, salak, amount, automatic, now);
      var paid := Minted(db, kapook, salak, db.goals[g].product, amount, now);
      MintedTouches(db, kapook, salak, db.goals[g].product, amount, now, user);
      hide Minted;
      ConversionTouches(db, paid, g, kapook, amount, |db.holdings|, automatic, now, user);
    }
  }

  lemma {:induction false} SettleTouches(db: Db, h: nat, now: Stamp)
    requires Ready(db) && h < |db.holdings| && Settle(db, h, now).Done?
    requires AccountsLaw(db.books.accounts) && db.books.accounts[db.holdings[h].account].kind == Salak
    requires forall j :: 0 <= j < |db.rows| ==>
             BuyRowOwned(db.rows[j], db) && db.rows[j].account == db.goals[db.rows[j].goal].account
    ensures Touches(db, Settle(db, h, now).db, db.books.accounts[db.holdings[h].account].user)
  {
    hide Paid, OwnEntries, OwnAccounts;
    var s := Settle(db, h, now).value;
    var holding := db.holdings[h];
    var user := db.books.accounts[holding.account].user;
    PaidIsOwned(db, h, s.primary, s.interest, now, user);
    if BuyRow(db.rows, h).Some? {
      assert BuyRowOwned(db.rows[BuyRow(db.rows, h).value], db);
    }
  }

  lemma {:induction false} PaidIsOwned(db: Db, h: nat, primary: nat, interest: int, now: Stamp, user: nat)
    requires h < |db.holdings| && OwnedBy(db.books.accounts, db.holdings[h].account, user)
    requires OwnedBy(db.books.accounts, primary, user) && primary != db.holdings[h].account
    ensures Touches(db, Paid(db, h, primary, interest, now), user)
    ensures Paid(db, h, primary, interest, now).goals == db.goals && Paid(db, h, primary, interest, now).rows == db.rows
    ensures |Paid(db, h, primary, interest, now).holdings| == |db.holdings|
  {}

  lemma {:induction false} CreateGoalTouches(db: Db, user: nat, account: nat, product: nat, target: int, now: Stamp)
    requires Tables(db)
    ensures Touches(db, StateAfter(db, CreateGoal(db, user, account, product, target, now)), user)
  {}

  /** Whose call it is; a settlement is its holding's owner's. */
  function Caller(db: Db, op: Op): nat {
    match op
    case OpOpenAccount(user, _, _, _) => user
    case OpAcceptTerms(user) => user
    case OpCreateGoal(user, _, _, _) => user
    case OpDeposit(user, _, _, _) => user
    case OpWithdraw(user, _, _) => user
    case OpBuySalak(user, _, _, _, _) => user
    case OpBuyFromGoal(user, _, _, _) => user
    case OpSettle(h) =>
      if h < |db.holdings| && db.holdings[h].account < |db.books.accounts|
          then db.books.accounts[db.holdings[h].account].user else 0
    case _ => 0
  }

  ghost predicate OneOwner(ledger: seq<Entry>, accounts: seq<Account>) {
    forall i, j :: 0 <= i < j < |ledger| && ledger[i].ref == ledger[j].ref ==>
      SameOwner(accounts, ledger[i].account, ledger[j].account)
  }

  /** No reference of the ledger spans two customers, every purchase row's
      holding is in its owner's account, every goal's owner accepted the terms. */
  ghost predicate OwnerLaw(db: Db) {
    && OneOwner(db.books.ledger, db.books.accounts)
    && (forall j :: 0 <= j < |db.rows| ==> BuyRowOwned(db.rows[j], db))
    && (forall g :: 0 <= g < |db.goals| && db.goals[g].account < |db.books.accounts| ==>
          db.books.accounts[db.goals[g].account].user in db.accepted)
  }

  lemma {:induction false} OtherCallsTouch(db: Db, op: Op, now: Stamp)
    requires Ready(db) && (op.OpOpenAccount? || op.OpAddProduct? || op.OpReviseProduct? || op.OpAcceptTerms?)
    ensures Touches(db, Apply(db, op, now), Caller(db, op))
  {}

  /** A call moves only its caller's balances, writes ledger entries only on
      its caller's accounts, under one fresh reference, changes only its
      caller's goals, and opens one only for a caller who accepted the terms. */
  lemma {:induction false} CallTouchesOwn(db: Db, op: Op, now: Stamp)
    requires Ready(db) && Inv(db) && OwnerLaw(db) && !op.OpWorkerPass?
    ensures Touches(db, Apply(db, op, now), Caller(db, op))
  {
    hide BooksLaw, AccountsLaw, ReferenceLaw, GoalsLaw, CashLaw, SalakLaw, PaidOnceLaw, FeeLaw;
    hide Touches, BuyRowOwned, Deposit, Withdraw, BuySalak, BuyFromGoal, CreateGoal, Settle;
    match op
    case OpCreateGoal(user, account, product, target) => CreateGoalTouches(db, user, account, product, target, now);
    case OpDeposit(user, kapook, savings, amount) => DepositTouches(db, user, kapook, savings, amount, now);
    case OpWithdraw(user, kapook, amount) => WithdrawTouches(db, user, kapook, amount, now);
    case OpBuySalak(user, funding, salak, product, amount) => BuySalakTouches(db, user, funding, salak, product,
        amount, now);
    case OpBuyFromGoal(user, kapook, salak, amount) => BuyTouches(db, user, kapook, salak, amount, false, now);
    case OpSettle(h) =>
      if Settle(db, h, now).Done? {
        SettledHoldingExists(db, h, now);
        assert HoldingLaw(db.holdings[h], db.books.accounts, db.cursors);
        SettleTouches(db, h, now);
      } else {
        TouchesNothing(db, Caller(db, op));
      }
    case _ => OtherCallsTouch(db, op, now);
  }

  lemma {:induction false} SettledHoldingExists(db: Db, h: nat, now: Stamp)
    requires Ready(db) && Settle(db, h, now).Done?
    ensures h < |db.holdings|
  {}

  // ---- over runs

  lemma {:induction false} TouchesKeepsOwners(db: Db, db': Db, user: nat)
    requires OwnerLaw(db) && Touches(db, db', user)
    requires forall i :: 0 <= i < |db.books.ledger| ==> db.books.ledger[i].ref < db.nextId
    requires forall g :: 0 <= g < |db.goals| ==> db.goals[g].account < |db.books.accounts|
    requires forall j :: 0 <= j < |db.rows| && db.rows[j].kind == BuySalakRow ==>
               db.rows[j].holding.Some? && db.rows[j].holding.value < |db.holdings|
    ensures OwnerLaw(db')
  {}

  lemma {:induction false} InvHasReferences(db: Db)
    requires Inv(db)
    ensures forall i :: 0 <= i < |db.books.ledger| ==> db.books.ledger[i].ref < db.nextId
    ensures forall g :: 0 <= g < |db.goals| ==> db.goals[g].account < |db.books.accounts|
    ensures forall j :: 0 <= j < |db.rows| && db.rows[j].kind == BuySalakRow ==>
              db.rows[j].holding.Some? && db.rows[j].holding.value < |db.holdings|
  {}

  lemma {:induction false} ProcessTouches(mid: Db, g: nat, now: Stamp)
    requires Tables(mid) && g < |mid.goals| && mid.goals[g].account < |mid.books.accounts|
    ensures Touches(mid, ProcessGoal(mid, g, mid.goals[g], now).0, mid.books.accounts[mid.goals[g].account].user)
  {
    hide BuyFromGoal, Touches, OwnGoals;
    var goal := mid.goals[g];
    var user := mid.books.accounts[goal.account].user;
    var (after, attempt) := ProcessGoal(mid, g, goal, now);
    if attempt == Purchased {
      BuyTouches(mid, user, goal.account, FirstSalak(mid.books.accounts, user).value, goal.Available(), true, now);
    } else {
      BookkeepingOnly(mid, g, goal, now);
      BookkeepingTouches(mid, g, after.goals[g], now, user);
    }
  }

  lemma {:induction false} BookkeepingTouches(db: Db, g: nat, goal: Goal, now: Stamp, user: nat)
    requires g < |db.goals| && goal.account == db.goals[g].account && OwnedBy(db.books.accounts, goal.account, user)
    ensures Touches(db, db.(goals := db.goals[g := goal], clock := now), user)
  {}

  lemma {:induction false} PassKeepsOwners(db: Db, claim: seq<int>, now: Stamp)
    requires Tables(db) && Claimable(db, claim)
    requires Inv(db) && Later(db, now) && Claimed(db.goals, claim) && OwnerLaw(db)
    ensures OwnerLaw(Pass(db, claim, now).0)
  {
    hide Inv, ProcessGoal, OwnerLaw, Touches;
    if claim != [] {
      var n := |claim| - 1;
      var mid, g := Pass(db, claim[..n], now).0, claim[n];
      PassKeepsOwners(db, claim[..n], now);
      PassMidway(db, claim[..n], now);
      NotYetDone(claim);
      InvHasReferences(mid);
      ProcessTouches(mid, g, now);
      TouchesKeepsOwners(mid, Pass(db, claim, now).0, mid.books.accounts[mid.goals[g].account].user);
    }
  }

  lemma {:induction false} ApplyKeepsOwners(db: Db, op: Op, now: Stamp)
    requires Ready(db) && Inv(db) && Later(db, now) && OwnerLaw(db)
    ensures OwnerLaw(Apply(db, op, now))
  {
    hide Inv, OwnerLaw, Touches, Pass, Ready;
    if op.OpWorkerPass? {
      if Apply(db, op, now) != db {
        ClaimIsClaimed(db.goals, now, op.countdown, {}, CLAIM_LIMIT, op.claim);
        InvIsReady(db);
        PassKeepsOwners(db, op.claim, now);
      }
    } else {
      hide Apply;
      InvHasReferences(db);
      CallTouchesOwn(db, op, now);
      TouchesKeepsOwners(db, Apply(db, op, now), Caller(db, op));
    }
  }

  lemma {:induction false} EmptyHasOwners(start: Stamp)
    ensures OwnerLaw(Empty(start))
  {}

  /** In every run, no ledger reference ever moves money between customers. */
  lemma {:induction false} RunKeepsOwners(states: seq<Db>, events: seq<Event>, i: nat)
    requires IsRun(states, events) && Inv(states[0]) && OwnerLaw(states[0]) && i < |states|
    ensures OwnerLaw(states[i])
  {
    hide Inv, OwnerLaw, Apply, Ready;
    if i > 0 {
      RunKeepsOwners(states, events, i - 1);
      RunKeepsInv(states, events, i - 1);
      ApplyKeepsOwners(states[i - 1], events[i - 1].op, events[i - 1].now);
    }
  }
}
