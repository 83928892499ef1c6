/** A run after which a goal promises more than its account holds: part of the
    goal is bought early, that holding matures while the goal is still open,
    and its principal goes to the primary account. */
module Expiry {
  import opened Outcomes
  import opened Calendar
  import opened Database
  import opened Steps
  import opened Runs
  import opened StepsKept
  import Tickets

  const SAVINGS_ID := 0
  const KAPOOK_ID := 1
  const SALAK_ID := 2

  const PRODUCT := Product(100, 1000, 10_000, 1000, true, 10_000, {})

  const CALLS: seq<Op> := [
    OpOpenAccount(0, Savings, 5000, true), OpOpenAccount(0, Kapook, 0, false), OpOpenAccount(0, Salak, 0, false),
    OpAddProduct(PRODUCT), OpAcceptTerms(0),
    OpCreateGoal(0, KAPOOK_ID, 0, 3000), OpDeposit(0, KAPOOK_ID, SAVINGS_ID, 2000),
    OpBuyFromGoal(0, KAPOOK_ID, SALAK_ID, 1000), OpSettle(0)]

  function Accounts(savings: int, kapook: int, salak: int): seq<Account> {
    [Account(0, Savings, savings, 5000, true), Account(0, Kapook, kapook, 0, false), Account(0, Salak, salak, 0, false)]
  }

  /** After the first five calls. */
  function SetUp(t: Stamp): Db {
    Db(Books(Accounts(5000, 0, 0), []), [], [], [], [PRODUCT], [Tickets.Cursor(Tickets.CONSONANT_START, 0)], {0}, 0, t)
  }

  function TheGoal(saving: int, salak: int, t: Stamp): Goal {
    Goal(KAPOOK_ID, 0, 3000, saving, salak, true, None, None, 0, None, None, t)
  }

  function Saved(t: Stamp): Db {
    SetUp(t).(books := Books(Accounts(3000, 2000, 0), [
                Entry(SAVINGS_ID, true, 2000, 3000, KapookTransaction, 0, None, t),
                Entry(KAPOOK_ID, false, 2000, 2000, KapookTransaction, 0, None, t)]),
              goals := [TheGoal(2000, 0, t)],
              rows := [Row(0, DepositRow, 2000, KAPOOK_ID, 0, Some(SAVINGS_ID), None, None, t)], nextId := 1)
  }

  function TheHolding(t: Stamp, settledAt: Option<Stamp>): Holding {
    Holding(SALAK_ID, 0, 10, Tickets.CONSONANT_START, 0, 9, 1000, Day(t), settledAt)
  }

  function Invested(t: Stamp): Db {
    Saved(t).(books := Books(Accounts(3000, 1000, 1000), Saved(t).books.ledger + [
                Entry(KAPOOK_ID, true, 1000, 1000, BuySalakRef, 1, Some(0), t),
                Entry(SALAK_ID, false, 1000, 1000, BuySalakRef, 1, Some(0), t)]),
              goals := [TheGoal(2000, 1000, t)], holdings := [TheHolding(t, None)],
              cursors := [Tickets.Cursor(Tickets.CONSONANT_START, 10)],
              rows := Saved(t).rows + [Row(2, BuySalakRow, 1000, KAPOOK_ID, 0, None, Some(0), Some(false), t)],
                  nextId := 3)
  }

  function Matured(t: Stamp): Db {
    Invested(t).(books := Books(Accounts(5000, 1000, 0), Invested(t).books.ledger + [
                   Entry(SALAK_ID, true, 1000, 0, SalakMaturity, 3, Some(0), t),
                   Entry(SAVINGS_ID, false, 1000, 4000, SalakMaturity, 3, Some(0), t),
                   Entry(SAVINGS_ID, false, 1000, 5000, SalakMaturityInterest, 3, Some(0), t)]),
                 goals := [TheGoal(2000, 0, t)], holdings := [TheHolding(t, Some(t))],
                 rows := Invested(t).rows + [Row(4, SalakExpirationRow, 1000, KAPOOK_ID, 0, None, Some(0), None, t)],
                     nextId := 5)
  }

  function StateAt(k: nat, t: Stamp): Db {
    var start := Empty(t);
    if k == 0 then start
    else if k <= 3 then start.(books := Books(Accounts(5000, 0, 0)[..k], []))
    else if k == 4 then SetUp(t).(accepted := {})
    else if k == 5 then SetUp(t)
    else if k == 6 then SetUp(t).(goals := [TheGoal(0, 0, t)])
    else if k == 7 then Saved(t)
    else if k == 8 then Invested(t)
    else Matured(t)
  }

  lemma {:induction false} SetUpSteps(k: nat, t: Stamp)
    requires k < 5
    ensures Ready(StateAt(k, t)) && Apply(StateAt(k, t), CALLS[k], t) == StateAt(k + 1, t)
  {
    assert Accounts(5000, 0, 0)[..1] == [Account(0, Savings, 5000, 5000, true)];
    assert Accounts(5000, 0, 0)[..2] == Accounts(5000, 0, 0)[..1] + [Account(0, Kapook, 0, 0, false)];
    assert Accounts(5000, 0, 0)[..3] == Accounts(5000, 0, 0)[..2] + [Account(0, Salak, 0, 0, false)] ==
        Accounts(5000, 0, 0);
  }

  lemma {:induction false} SavingSteps(k: nat, t: Stamp)
    requires 5 <= k < 7
    ensures Ready(StateAt(k, t)) && Apply(StateAt(k, t), CALLS[k], t) == StateAt(k + 1, t)
  {}

  lemma {:induction false} InvestingStep(t: Stamp)
    ensures Ready(Saved(t)) && Apply(Saved(t), CALLS[7], t) == Invested(t)
  {}

  lemma {:induction false} MaturingStep(t: Stamp)
    ensures Ready(Invested(t)) && Apply(Invested(t), CALLS[8], t) == Matured(t)
  {
    assert Primary(Invested(t).books.accounts, 0) == Some(SAVINGS_ID);
    assert BuyRow(Invested(t).rows, 0) == Some(1);
  }

  lemma {:induction false} EachStep(k: nat, t: Stamp)
    requires k < |CALLS|
    ensures Ready(StateAt(k, t)) && Apply(StateAt(k, t), CALLS[k], t) == StateAt(k + 1, t) && Later(StateAt(k, t), t)
  {
    hide Apply, Ready;
    if k < 5 {
      SetUpSteps(k, t);
    } else if k < 7 {
      SavingSteps(k, t);
    } else if k == 7 {
      InvestingStep(t);
    } else {
      MaturingStep(t);
    }
  }

  lemma {:induction false} MaturedIsShort(t: Stamp)
    ensures Withdraw(Matured(t), 0, KAPOOK_ID, 2000, t) == Refused(InsufficientFunds)
  {
    assert ActiveGoal(Matured(t).goals, KAPOOK_ID) == Some(0);
    assert Primary(Matured(t).books.accounts, 0) == Some(SAVINGS_ID);
  }

  /** The calls, from an empty database, end where the goal's available 2000
      satang cannot be withdrawn: its account holds 1000. */
  lemma {:induction false} AvailableCanExceedCash(t: Stamp) returns (states: seq<Db>, events: seq<Event>)
    ensures IsRun(states, events) && states[0] == Empty(t)
    ensures var db := states[|events|];
            && |db.goals| == 1 && |db.books.accounts| == 3
            && db.goals[0].active && db.goals[0].Available() == 2000 && db.books.accounts[KAPOOK_ID].balance == 1000
            && Withdraw(db, 0, KAPOOK_ID, 2000, t) == Refused(InsufficientFunds)
  {
    hide Apply, Ready, Withdraw;
    events := seq(|CALLS|, i requires 0 <= i < |CALLS| => Event(CALLS[i], t));
    states := seq(|CALLS| + 1, k requires 0 <= k <= |CALLS| => StateAt(k, t));
    forall k | 0 <= k < |events|
      ensures Ready(states[k]) && Later(states[k], t) && states[k + 1] == Apply(states[k], events[k].op, t)
    {
      EachStep(k, t);
    }
    MaturedIsShort(t);
    assert |events| == 9 && states[9] == Matured(t);
  }
}
