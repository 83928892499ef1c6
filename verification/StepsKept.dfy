/** Every step keeps every law. */
module StepsKept {
  import opened Outcomes
  import opened Calendar
  import opened Sums
  import opened Database
  import opened Steps
  import opened Laws
  import opened LawsKept
  import Fees
  import Tickets

  ghost predicate Later(db: Db, now: Stamp) {
    Instant(db.clock) <= Instant(now)
  }

  // ---- accounts, products, terms

  lemma {:induction false} OpenedKeepsBooks(b: Books, added: Account)
    requires BooksLaw(b) && added.balance == added.opening >= 0
    ensures BooksLaw(Books(b.accounts + [added], b.ledger))
  {
    var b' := Books(b.accounts + [added], b.ledger);
    SumZero(b.ledger, SignedFor(|b.accounts|));
    assert Explained(b') && Shown(b');
    SumSnoc(b.accounts, added, Balances());
    SumSnoc(b.accounts, added, Openings());
  }

  lemma {:induction false} OpenedKeepsCash(goals: seq<Goal>, accounts: seq<Account>, rows: seq<Row>, added: Account)
    requires CashLaw(goals, accounts, rows) && (added.kind == Kapook ==> added.balance == 0)
    requires forall i :: 0 <= i < |goals| ==> goals[i].account < |accounts|
    ensures CashLaw(goals, accounts + [added], rows)
  {}

  lemma {:induction false} OpenedKeepsSalak(goals: seq<Goal>, accounts: seq<Account>, rows: seq<Row>,
          holdings: seq<Holding>, added: Account)
    requires SalakLaw(goals, accounts, rows, holdings) && (added.kind == Salak ==> added.balance == 0)
    requires forall i :: 0 <= i < |holdings| ==> holdings[i].account < |accounts|
    ensures SalakLaw(goals, accounts + [added], rows, holdings)
  {
    SumZero(holdings, LiveOf(|accounts|));
  }

  lemma {:induction false} AccountsAndProductsGrow(holdings: seq<Holding>, accounts: seq<Account>,
          accounts': seq<Account>,
                                products: seq<Product>, products': seq<Product>,
                                cursors: seq<Tickets.Cursor>, cursors': seq<Tickets.Cursor>)
    requires HoldingsLaw(holdings, accounts, products, cursors)
    requires |accounts| <= |accounts'| && forall a :: 0 <= a < |accounts| ==> accounts'[a].kind == accounts[a].kind
    requires |cursors'| == |products'| && cursors <= cursors'
    requires forall p :: 0 <= p < |products'| ==> ProductTerms(products'[p])
    requires forall p :: |cursors| <= p < |cursors'| ==> Tickets.ValidCursor(cursors'[p])
    ensures HoldingsLaw(holdings, accounts', products', cursors')
  {}

  lemma {:induction false} OpenedKeepsGoals(goals: seq<Goal>, accounts: seq<Account>, products: seq<Product>,
          clock: Stamp,
                                            added: Account, now: Stamp)
    requires GoalsLaw(goals, accounts, products, clock) && Instant(clock) <= Instant(now)
    ensures GoalsLaw(goals, accounts + [added], products, now)
  {}

  lemma {:induction false} OpenedKeepsAccounts(accounts: seq<Account>, added: Account)
    requires AccountsLaw(accounts) && (added.primary ==> added.kind == Savings)
    requires added.primary ==> Primary(accounts, added.user).None?
    ensures AccountsLaw(accounts + [added])
  {}

  lemma {:induction false} OpenAccountKeepsInv(db: Db, user: nat, kind: Kind, opening: int, primary: bool, now: Stamp)
    requires Inv(db) && Later(db, now) && OpenAccount(db, user, kind, opening, primary, now).Done?
    ensures Inv(OpenAccount(db, user, kind, opening, primary, now).db)
  {
    hide BooksLaw, AccountsLaw, ReferenceLaw, CashLaw, SalakLaw, PaidOnceLaw, FeeLaw;
    var added := Account(user, kind, opening, opening, primary);
    var accounts' := db.books.accounts + [added];
    OpenedKeepsBooks(db.books, added);
    OpenedKeepsAccounts(db.books.accounts, added);
    OpenedKeepsGoals(db.goals, db.books.accounts, db.products, db.clock, added, now);
    OpenedKeepsCash(db.goals, db.books.accounts, db.rows, added);
    OpenedKeepsSalak(db.goals, db.books.accounts, db.rows, db.holdings, added);
    AccountsAndProductsGrow(db.holdings, db.books.accounts, accounts', db.products, db.products, db.cursors,
        db.cursors);
  }

  lemma {:induction false} AddProductKeepsInv(db: Db, p: Product, now: Stamp)
    requires Inv(db) && Later(db, now) && AddProduct(db, p, now).Done?
    ensures Inv(AddProduct(db, p, now).db)
  {
    hide BooksLaw, AccountsLaw, ReferenceLaw, CashLaw, SalakLaw, PaidOnceLaw, FeeLaw;
    ClockMoves(db, now);
    hide RowsLaw;
    var db' := AddProduct(db, p, now).db;
    AccountsAndProductsGrow(db.holdings, db.books.accounts, db.books.accounts, db.products, db'.products, db.cursors,
        db'.cursors);
  }

  lemma {:induction false} ReviseProductKeepsInv(db: Db, product: nat, p: Product, now: Stamp)
    requires Inv(db) && Later(db, now) && ReviseProduct(db, product, p, now).Done?
    ensures Inv(ReviseProduct(db, product, p, now).db)
  {
    hide BooksLaw, AccountsLaw, ReferenceLaw, CashLaw, SalakLaw, PaidOnceLaw, FeeLaw;
    ClockMoves(db, now);
    hide RowsLaw;
    var db' := ReviseProduct(db, product, p, now).db;
    assert HoldingsLaw(db.holdings, db.books.accounts, db'.products, db.cursors);
  }

  lemma {:induction false} ClockMoves(db: Db, now: Stamp)
    requires RowsLaw(db.rows, db.goals, db.holdings, db.clock) && Later(db, now)
    ensures RowsLaw(db.rows, db.goals, db.holdings, now)
  {}

  lemma {:induction false} AcceptTermsKeepsInv(db: Db, user: nat, now: Stamp)
    requires Inv(db) && Later(db, now)
    ensures Inv(AcceptTerms(db, user, now).db)
  {
    hide BooksLaw, AccountsLaw, ReferenceLaw, CashLaw, SalakLaw, PaidOnceLaw, HoldingsLaw, FeeLaw;
  }

  // ---- the goal

  lemma {:induction false} NewGoalKeepsCash(goals: seq<Goal>, accounts: seq<Account>, rows: seq<Row>, goal: Goal)
    requires CashLaw(goals, accounts, rows) && goal.saving == 0
    requires forall j :: 0 <= j < |rows| ==> rows[j].goal < |goals|
    requires ActiveGoal(goals, goal.account).None?
    requires goal.account < |accounts| && accounts[goal.account].kind == Kapook
    ensures CashLaw(goals + [goal], accounts, rows)
  {
    hide ActiveGoal;
    SumZero(rows, BoughtIn(|goals|));
    forall a: nat | a < |accounts| && accounts[a].kind == Kapook && ActiveGoal(goals + [goal], a).None?
      ensures accounts[a].balance == 0
    {
      NoneWithout(goals, goal, a);
    }
  }

  lemma {:induction false} NoneWithout(goals: seq<Goal>, goal: Goal, a: nat)
    requires ActiveGoal(goals + [goal], a).None?
    ensures ActiveGoal(goals, a).None?
  {
    assert (goals + [goal])[..|goals|] == goals;
  }

  lemma {:induction false} NewGoalKeepsSalak(goals: seq<Goal>, accounts: seq<Account>, rows: seq<Row>,
          holdings: seq<Holding>, goal: Goal)
    requires SalakLaw(goals, accounts, rows, holdings) && goal.salak == 0
    requires forall j :: 0 <= j < |rows| ==> rows[j].goal < |goals|
    ensures SalakLaw(goals + [goal], accounts, rows, holdings)
  {
    var g := |goals|;
    SumZero(rows, ExpiredIn(g));
    SumZero(rows, LiveIn(g, holdings));
    SumZero(rows, SettledIn(g, holdings));
  }

  lemma {:induction false} NewGoalKeepsFees(rows: seq<Row>, goals: seq<Goal>, goal: Goal)
    requires FeeLaw(rows, goals) && forall j :: 0 <= j < |rows| ==> rows[j].goal < |goals|
    ensures FeeLaw(rows, goals + [goal])
  {}

  lemma {:induction false} NewGoalKeepsGoals(goals: seq<Goal>, accounts: seq<Account>, products: seq<Product>,
          clock: Stamp,
                                             goal: Goal, now: Stamp)
    requires GoalsLaw(goals, accounts, products, clock) && Instant(clock) <= Instant(now)
    requires GoalLaw(goal) && goal.account < |accounts| && accounts[goal.account].kind == Kapook
    requires goal.product < |products| && goal.createdAt == now
    requires goal.active ==> ActiveGoal(goals, goal.account).None?
    ensures GoalsLaw(goals + [goal], accounts, products, now)
  {}

  lemma {:induction false} NewGoalKeepsRows(rows: seq<Row>, goals: seq<Goal>, holdings: seq<Holding>, clock: Stamp,
          goal: Goal, now: Stamp)
    requires RowsLaw(rows, goals, holdings, clock) && Instant(clock) <= Instant(now)
    ensures RowsLaw(rows, goals + [goal], holdings, now)
  {}

  function NewGoal(account: nat, product: nat, target: int, now: Stamp): Goal {
    Goal(account, product, target, 0, 0, true, None, None, 0, None, None, now)
  }

  lemma {:induction false} CreateGoalGuards(db: Db, user: nat, account: nat, product: nat, target: int, now: Stamp)
    requires forall p :: 0 <= p < |db.products| ==> ProductTerms(db.products[p])
    requires CreateGoal(db, user, account, product, target, now).Done?
    ensures account < |db.books.accounts| && db.books.accounts[account].kind == Kapook
    ensures product < |db.products| && target > 0 && ActiveGoal(db.goals, account).None?
    ensures CreateGoal(db, user, account, product, target, now).db ==
            db.(goals := db.goals + [NewGoal(account, product, target, now)], clock := now)
  {}

  lemma {:induction false} CreateGoalKeepsInv(db: Db, user: nat, account: nat, product: nat, target: int, now: Stamp)
    requires Inv(db) && Later(db, now) && CreateGoal(db, user, account, product, target, now).Done?
    ensures Inv(CreateGoal(db, user, account, product, target, now).db)
  {
    hide BooksLaw, AccountsLaw, ReferenceLaw, GoalsLaw, CashLaw, SalakLaw, PaidOnceLaw, FeeLaw;
    var goal := NewGoal(account, product, target, now);
    CreateGoalGuards(db, user, account, product, target, now);
    NewGoalKeepsGoals(db.goals, db.books.accounts, db.products, db.clock, goal, now);
    NewGoalKeepsRows(db.rows, db.goals, db.holdings, db.clock, goal, now);
    NewGoalKeepsCash(db.goals, db.books.accounts, db.rows, goal);
    NewGoalKeepsSalak(db.goals, db.books.accounts, db.rows, db.holdings, goal);
    NewGoalKeepsFees(db.rows, db.goals, goal);
  }

  // ---- deposits and withdrawals

  function DebitEntry(b: Books, a: nat, amount: int, refType: RefType, ref: nat, holding: Option<nat>,
          now: Stamp): Entry
    requires a < |b.accounts|
  {
    Entry(a, true, amount, b.accounts[a].balance - amount, refType, ref, holding, now)
  }

  function CreditEntry(b: Books, a: nat, amount: int, refType: RefType, ref: nat, holding: Option<nat>,
          now: Stamp): Entry
    requires a < |b.accounts|
  {
    Entry(a, false, amount, b.accounts[a].balance + amount, refType, ref, holding, now)
  }

  lemma {:induction false} TransferKeepsBooks(b: Books, from: nat, to: nat, out: int, into: int, refType: RefType,
          ref: nat,
                           holding: Option<nat>, now: Stamp)
    requires BooksLaw(b) && from < |b.accounts| && to < |b.accounts| && from != to
    requires 0 < out <= b.accounts[from].balance && 0 < into
    ensures BooksLaw(Transfer(b, from, to, out, into, refType, ref, holding, now))
  {
    PostKeepsBooks(b, from, true, out, refType, ref, holding, now);
    PostKeepsBooks(Post(b, from, true, out, refType, ref, holding, now), to, false, into, refType, ref, holding, now);
  }

  lemma {:induction false} TransferEffect(b: Books, from: nat, to: nat, out: int, into: int, refType: RefType, ref: nat,
                       holding: Option<nat>, now: Stamp)
    requires from < |b.accounts| && to < |b.accounts| && from != to
    ensures var b' := Transfer(b, from, to, out, into, refType, ref, holding, now);
            && SameHolders(b.accounts, b'.accounts)
            && b'.accounts[from].balance == b.accounts[from].balance - out
            && b'.accounts[to].balance == b.accounts[to].balance + into
            && (forall a :: 0 <= a < |b.accounts| && a != from && a != to ==> b'.accounts[a] == b.accounts[a])
            && b'.ledger == b.ledger + [DebitEntry(b, from, out, refType, ref, holding, now),
                                        CreditEntry(b, to, into, refType, ref, holding, now)]
  {}

  /** What the guards of Deposit and Withdraw leave true of the writes. */
  ghost predicate MoveOk(db: Db, g: nat, goal: Goal, from: nat, to: nat, out: int, into: int, row: Row, now: Stamp) {
    && g < |db.goals| && db.goals[g].active && GoalLaw(goal)
    && goal.account == db.goals[g].account && goal.product == db.goals[g].product
    && goal.createdAt == db.goals[g].createdAt && goal.salak == db.goals[g].salak
    && from < |db.books.accounts| && to < |db.books.accounts|
    && 0 < out <= db.books.accounts[from].balance && 0 < into
    && (|| (from == goal.account && db.books.accounts[to].kind == Savings && goal.saving == db.goals[g].saving - out)
        || (to == goal.account && db.books.accounts[from].kind == Savings && goal.saving == db.goals[g].saving + into))
    && (!goal.active ==> goal.saving == goal.salak)
    && row.id == db.nextId && row.kind in {DepositRow, WithdrawRow, WithdrawWithFeeRow} && row.amount > 0
    && row.account == goal.account && row.goal == g && row.createdAt == now && out == into + RowFee(row)
    && (row.kind == WithdrawWithFeeRow ==> FeeDue(db, g, now)) && (row.kind == WithdrawRow ==> !FeeDue(db, g, now))
  }

  lemma {:induction false} MovedKeepsBooks(db: Db, g: nat, goal: Goal, from: nat, to: nat, out: int, into: int,
          row: Row, now: Stamp)
    requires BooksLaw(db.books) && ReferenceLaw(db.books.ledger, db.rows, db.nextId) &&
             PaidOnceLaw(db.books.ledger, db.holdings)
    requires MoveOk(db, g, goal, from, to, out, into, row, now) && from != to
    ensures var db' := Moved(db, g, goal, from, to, out, into, row, now);
            && BooksLaw(db'.books) && ReferenceLaw(db'.books.ledger, db'.rows, db'.nextId)
            && PaidOnceLaw(db'.books.ledger, db'.holdings)
  {
    hide BooksLaw, ReferenceLaw, PaidOnceLaw;
    TransferKeepsBooks(db.books, from, to, out, into, KapookTransaction, db.nextId, None, now);
    TransferEffect(db.books, from, to, out, into, KapookTransaction, db.nextId, None, now);
    var d := DebitEntry(db.books, from, out, KapookTransaction, db.nextId, None, now);
    var c := CreditEntry(db.books, to, into, KapookTransaction, db.nextId, None, now);
    PairBalances(d, c, row);
    BalancedGroupKeepsReferences(db.books.ledger, db.rows, db.nextId, [d, c], [row], db.nextId + 1);
    QuietEntriesKeepPaidOnce(db.books.ledger, db.holdings, [d, c]);
  }

  lemma {:induction false} MovedKeepsGoals(db: Db, g: nat, goal: Goal, from: nat, to: nat, out: int, into: int,
          row: Row, now: Stamp)
    requires GoalsLaw(db.goals, db.books.accounts, db.products, db.clock)
    requires RowsLaw(db.rows, db.goals, db.holdings, db.clock) && FeeLaw(db.rows, db.goals)
    requires MoveOk(db, g, goal, from, to, out, into, row, now) && from != to && Later(db, now)
    ensures var db' := Moved(db, g, goal, from, to, out, into, row, now);
            && GoalsLaw(db'.goals, db'.books.accounts, db'.products, db'.clock)
            && RowsLaw(db'.rows, db'.goals, db'.holdings, db'.clock) && FeeLaw(db'.rows, db'.goals)
  {
    var db' := Moved(db, g, goal, from, to, out, into, row, now);
    TransferEffect(db.books, from, to, out, into, KapookTransaction, db.nextId, None, now);
    GoalUpdateKeepsGoals(db.goals, g, goal, db.books.accounts, db'.books.accounts, db.products, db.clock, now);
    RowKeepsRows(db.rows, db.goals, db'.goals, db.holdings, db.clock, row, now);
    RowKeepsFees(db.rows, db.goals, db'.goals, row);
  }

  lemma {:induction false} MovedKeepsCash(db: Db, g: nat, goal: Goal, from: nat, to: nat, out: int, into: int,
          row: Row, now: Stamp)
    requires GoalsLaw(db.goals, db.books.accounts, db.products, db.clock) &&
             CashLaw(db.goals, db.books.accounts, db.rows)
    requires SalakLaw(db.goals, db.books.accounts, db.rows, db.holdings)
    requires forall j :: 0 <= j < |db.rows| ==> db.rows[j].amount > 0
    requires MoveOk(db, g, goal, from, to, out, into, row, now) && from != to
    ensures var db' := Moved(db, g, goal, from, to, out, into, row, now);
            && CashLaw(db'.goals, db'.books.accounts, db'.rows)
            && SalakLaw(db'.goals, db'.books.accounts, db'.rows, db'.holdings)
  {
    hide CashLaw, SalakLaw, GoalsLaw;
    var db' := Moved(db, g, goal, from, to, out, into, row, now);
    ActiveGoalHolds(db.goals, db.books.accounts, db.products, db.clock, db.rows, g);
    TransferEffect(db.books, from, to, out, into, KapookTransaction, db.nextId, None, now);
    RowKeepsBuys(db.rows, row);
    BoughtIsLivePlusExpired(db.goals, db.books.accounts, db.rows, db.holdings, g);
    GoalUpdateKeepsCash(db.goals, g, goal, db.books.accounts, db'.books.accounts, db.products, db.clock, db.rows,
        db'.rows);
    OtherRowKeepsSalak(db.goals, db'.goals, db.books.accounts, db'.books.accounts, db.rows, row, db.holdings);
  }

  lemma {:induction false} MovedKeepsInv(db: Db, g: nat, goal: Goal, from: nat, to: nat, out: int, into: int,
          row: Row, now: Stamp)
    requires Inv(db) && Later(db, now) && MoveOk(db, g, goal, from, to, out, into, row, now) && from != to
    ensures Inv(Moved(db, g, goal, from, to, out, into, row, now))
  {
    hide BooksLaw, AccountsLaw, ReferenceLaw, GoalsLaw, CashLaw, SalakLaw, PaidOnceLaw, HoldingsLaw, FeeLaw;
    var db' := Moved(db, g, goal, from, to, out, into, row, now);
    MovedKeepsBooks(db, g, goal, from, to, out, into, row, now);
    MovedKeepsGoals(db, g, goal, from, to, out, into, row, now);
    MovedKeepsCash(db, g, goal, from, to, out, into, row, now);
    TransferEffect(db.books, from, to, out, into, KapookTransaction, db.nextId, None, now);
    PostsKeepAccounts(db.books.accounts, db'.books.accounts);
    BalancesKeepHoldings(db.holdings, db.books.accounts, db'.books.accounts, db.products, db.cursors);
  }

  /** The goal and the row a deposit writes. */
  function DepositGoal(goal: Goal, amount: int, now: Stamp): Goal {
    var saving := goal.saving + amount;
    goal.(saving := saving, reachedAt := if saving == goal.target then Some(now) else goal.reachedAt)
  }

  lemma {:induction false} DepositGuards(db: Db, user: nat, kapook: nat, savings: nat, amount: int,
          now: Stamp) returns (g: nat)
    requires GoalsLaw(db.goals, db.books.accounts, db.products, db.clock)
    requires Deposit(db, user, kapook, savings, amount, now).Done?
    ensures g == Deposit(db, user, kapook, savings, amount, now).value && g < |db.goals|
    ensures db.goals[g].active && db.goals[g].account == kapook && kapook != savings
    ensures var row := Row(db.nextId, DepositRow, amount, kapook, g, Some(savings), None, None, now);
            var goal := DepositGoal(db.goals[g], amount, now);
            && MoveOk(db, g, goal, savings, kapook, amount, amount, row, now)
            && Deposit(db, user, kapook, savings, amount, now).db ==
               Moved(db, g, goal, savings, kapook, amount, amount, row, now)
  {
    g := Deposit(db, user, kapook, savings, amount, now).value;
    assert GoalLaw(db.goals[g]);
  }

  lemma {:induction false} DepositKeepsInv(db: Db, user: nat, kapook: nat, savings: nat, amount: int, now: Stamp)
    requires Inv(db) && Later(db, now) && Deposit(db, user, kapook, savings, amount, now).Done?
    ensures Inv(Deposit(db, user, kapook, savings, amount, now).db)
  {
    hide BooksLaw, AccountsLaw, ReferenceLaw, GoalsLaw, RowsLaw, CashLaw, SalakLaw, PaidOnceLaw, HoldingsLaw, FeeLaw;
    var g := DepositGuards(db, user, kapook, savings, amount, now);
    var row := Row(db.nextId, DepositRow, amount, kapook, g, Some(savings), None, None, now);
    MovedKeepsInv(db, g, DepositGoal(db.goals[g], amount, now), savings, kapook, amount, amount, row, now);
  }

  function WithdrawGoal(goal: Goal, amount: int): Goal {
    goal.(saving := goal.saving - amount, active := goal.reachedAt.None?)
  }

  lemma {:induction false} WithdrawGuards(db: Db, user: nat, kapook: nat, amount: int, now: Stamp) returns (g: nat,
          savings: nat)
    requires GoalsLaw(db.goals, db.books.accounts, db.products, db.clock) && AccountsLaw(db.books.accounts)
    requires Withdraw(db, user, kapook, amount, now).Done?
    ensures g == Withdraw(db, user, kapook, amount, now).value.goal && g < |db.goals|
    ensures db.goals[g].active && db.goals[g].account == kapook && kapook != savings
    ensures var charged := FeeDue(db, g, now);
            var net := Fees.ComputeWithdrawalFee(amount, charged).1;
            var kind := if charged then WithdrawWithFeeRow else WithdrawRow;
            var row := Row(db.nextId, kind, amount, kapook, g, Some(savings), None, None, now);
            var goal := WithdrawGoal(db.goals[g], amount);
            && MoveOk(db, g, goal, kapook, savings, amount, net, row, now)
            && Withdraw(db, user, kapook, amount, now).db == Moved(db, g, goal, kapook, savings, amount, net, row, now)
  {
    g := Withdraw(db, user, kapook, amount, now).value.goal;
    savings := Primary(db.books.accounts, user).value;
    assert GoalLaw(db.goals[g]) && db.books.accounts[savings].kind == Savings;
    hide GoalsLaw, AccountsLaw, Window, CountWithdrawals;
    Fees.FeeIsNearest(amount);
  }

  lemma {:induction false} WithdrawKeepsInv(db: Db, user: nat, kapook: nat, amount: int, now: Stamp)
    requires Inv(db) && Later(db, now) && Withdraw(db, user, kapook, amount, now).Done?
    ensures Inv(Withdraw(db, user, kapook, amount, now).db)
  {
    hide BooksLaw, AccountsLaw, ReferenceLaw, GoalsLaw, RowsLaw, CashLaw, SalakLaw, PaidOnceLaw, HoldingsLaw, FeeLaw;
    var g, savings := WithdrawGuards(db, user, kapook, amount, now);
    var charged := FeeDue(db, g, now);
    var kind := if charged then WithdrawWithFeeRow else WithdrawRow;
    var row := Row(db.nextId, kind, amount, kapook, g, Some(savings), None, None, now);
    MovedKeepsInv(db, g, WithdrawGoal(db.goals[g], amount), kapook, savings, amount,
                  Fees.ComputeWithdrawalFee(amount, charged).1, row, now);
  }

  lemma {:induction false} BalancesKeepHoldings(holdings: seq<Holding>, accounts: seq<Account>, accounts': seq<Account>,
                             products: seq<Product>, cursors: seq<Tickets.Cursor>)
    requires HoldingsLaw(holdings, accounts, products, cursors) && SameHolders(accounts, accounts')
    ensures HoldingsLaw(holdings, accounts', products, cursors)
  {}
}
