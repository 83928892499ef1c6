/** What each call answers, as a table of checks in the order they are made: a
    call is accepted exactly when all of them pass, and is otherwise refused
    with the error of the first that does not. Each check is put in terms of the
    rows a caller could look at beforehand. */
module Answers {
  import opened Outcomes
  import opened Calendar
  import opened Database
  import opened Steps
  import opened Laws
  import opened Worker
  import opened Consequences
  import Tickets

  datatype Check = Check(passes: bool, error: Error)

  /** Check `k` fails and none before it does. */
  predicate FirstFails(checks: seq<Check>, k: nat) {
    k < |checks| && !checks[k].passes && forall i :: 0 <= i < k ==> checks[i].passes
  }

  ghost predicate AllPass(checks: seq<Check>) {
    forall k :: 0 <= k < |checks| ==> checks[k].passes
  }

  ghost predicate AnsweredBy<T>(checks: seq<Check>, r: Outcome<T>) {
    && (r.Done? <==> AllPass(checks))
    && (r.Refused? ==> exists k: nat :: FirstFails(checks, k) && checks[k].error == r.error)
  }

  lemma {:induction false} SomeFirstFails(checks: seq<Check>) returns (k: nat)
    ensures AllPass(checks) || FirstFails(checks, k)
  {
    k := 0;
    while k < |checks| && checks[k].passes
      invariant k <= |checks| && forall i :: 0 <= i < k ==> checks[i].passes
    {
      k := k + 1;
    }
  }

  // ---- what the checks look at

  predicate Belongs(db: Db, user: nat, a: nat) {
    a < |db.books.accounts| && db.books.accounts[a].user == user
  }

  predicate IsOf(db: Db, a: nat, kind: Kind) {
    a < |db.books.accounts| && db.books.accounts[a].kind == kind
  }

  predicate Covers(db: Db, a: nat, amount: int) {
    a < |db.books.accounts| && amount <= db.books.accounts[a].balance
  }

  predicate HasPrimary(db: Db, user: nat) {
    exists a :: 0 <= a < |db.books.accounts| && db.books.accounts[a].primary && db.books.accounts[a].user == user
  }

  predicate OpenOn(db: Db, g: nat, account: nat) {
    g < |db.goals| && db.goals[g].active && db.goals[g].account == account
  }

  ghost predicate HasGoal(db: Db, account: nat) {
    exists g: nat :: OpenOn(db, g, account)
  }

  predicate Listed(db: Db, product: nat) {
    product < |db.products|
  }

  predicate OnSale(db: Db, product: nat) {
    product < |db.products| && db.products[product].active
  }

  predicate AtLeastMin(db: Db, product: nat, amount: int) {
    product < |db.products| && db.products[product].minPurchase <= amount
  }

  predicate AtMostMax(db: Db, product: nat, amount: int) {
    product < |db.products| && amount <= db.products[product].maxPurchase
  }

  predicate InSteps(db: Db, product: nat, amount: int) {
    product < |db.products| && db.products[product].step != 0 && amount % db.products[product].step == 0
  }

  predicate NoDrawOn(db: Db, product: nat, day: int) {
    product < |db.products| && day !in db.products[product].drawDays
  }

  /** The tickets that `amount` buys. */
  predicate Buys(db: Db, product: nat, amount: int, units: int) {
    product < |db.products| &&
    units * db.products[product].unitPrice <= amount < (units + 1) * db.products[product].unitPrice
  }

  ghost predicate WholeUnit(db: Db, product: nat, amount: int) {
    exists n :: n >= 1 && Buys(db, product, amount, n)
  }

  ghost predicate FitsALetter(db: Db, product: nat, amount: int) {
    exists n :: n <= 10_000_000 && Buys(db, product, amount, n)
  }

  /** The current letter has the tickets, or there is a next one. */
  ghost predicate LettersLeft(db: Db, product: nat, amount: int) {
    product < |db.cursors| &&
    exists n :: Buys(db, product, amount, n) &&
      (db.cursors[product].number + n <= 10_000_000 || db.cursors[product].letter != 0x0E2E)
  }

  /** The range neither ends its letter's block nor is a single ticket. */
  ghost predicate PassesTheTables(db: Db, product: nat, amount: int) {
    product < |db.cursors| &&
    exists n :: Buys(db, product, amount, n) &&
      2 <= n < 10_000_000 && db.cursors[product].number + n != 10_000_000
  }

  // ---- the tables of checks

  ghost function DepositChecks(db: Db, user: nat, kapook: nat, savings: nat, amount: int): seq<Check> {
    [Check(kapook != savings, SameAccount),
     Check(Belongs(db, user, kapook), AccountNotFound),
     Check(IsOf(db, kapook, Kapook), WrongAccountKind),
     Check(Belongs(db, user, savings), AccountNotFound),
     Check(IsOf(db, savings, Savings), WrongAccountKind),
     Check(amount > 0, AmountNotPositive),
     Check(HasGoal(db, kapook), NoActiveGoal),
     Check(exists g: nat :: OpenOn(db, g, kapook) && db.goals[g].saving + amount <= db.goals[g].target,
           DepositExceedsTarget),
     Check(Covers(db, savings, amount), InsufficientFunds)]
  }

  ghost function WithdrawChecks(db: Db, user: nat, kapook: nat, amount: int): seq<Check> {
    [Check(Belongs(db, user, kapook), AccountNotFound),
     Check(IsOf(db, kapook, Kapook), WrongAccountKind),
     Check(HasPrimary(db, user), NoPrimaryAccount),
     Check(amount > 0, AmountNotPositive),
     Check(HasGoal(db, kapook), NoActiveGoal),
     Check(exists g: nat :: OpenOn(db, g, kapook) && amount <= db.goals[g].saving - db.goals[g].salak,
           WithdrawalExceedsBalance),
     Check(exists g: nat :: OpenOn(db, g, kapook) &&
                            (db.goals[g].reachedAt.Some? ==> amount >= db.goals[g].saving - db.goals[g].salak),
           WithdrawalMustBeFull),
     Check(Covers(db, kapook, amount), InsufficientFunds)]
  }

  ghost function BuySalakChecks(db: Db, user: nat, funding: nat, salak: nat, product: nat, amount: int,
          now: Stamp): seq<Check> {
    [Check(funding != salak, SameAccount),
     Check(Belongs(db, user, funding), AccountNotFound),
     Check(IsOf(db, funding, Savings), WrongAccountKind),
     Check(Belongs(db, user, salak), AccountNotFound),
     Check(IsOf(db, salak, Salak), WrongAccountKind),
     Check(Listed(db, product), ProductNotFound),
     Check(OnSale(db, product), ProductInactive),
     Check(amount > 0, AmountNotPositive),
     Check(AtLeastMin(db, product, amount), BelowMinimum),
     Check(AtMostMax(db, product, amount), AboveMaximum),
     Check(InSteps(db, product, amount), NotStepMultiple),
     Check(NoDrawOn(db, product, Day(now)), DrawDay),
     Check(Covers(db, funding, amount), InsufficientFunds),
     Check(WholeUnit(db, product, amount), NoWholeUnits),
     Check(FitsALetter(db, product, amount), CannotReserve(Tickets.UnitsExceedLetter)),
     Check(LettersLeft(db, product, amount), CannotReserve(Tickets.NoNextLetter(Tickets.CycleExhausted))),
     Check(PassesTheTables(db, product, amount), CheckViolated)]
  }

  ghost function BuyFromGoalChecks(db: Db, user: nat, kapook: nat, salak: nat, amount: int): seq<Check> {
    [Check(kapook != salak, SameAccount),
     Check(Belongs(db, user, kapook), AccountNotFound),
     Check(IsOf(db, kapook, Kapook), WrongAccountKind),
     Check(Belongs(db, user, salak), AccountNotFound),
     Check(IsOf(db, salak, Salak), WrongAccountKind),
     Check(amount > 0, AmountNotPositive),
     Check(HasGoal(db, kapook), NoActiveGoal)]
  }

  /** The checks that follow once the account's goal `g` is found. */
  ghost function GoalSaleChecks(db: Db, g: nat, amount: int, now: Stamp): seq<Check>
    requires g < |db.goals|
  {
    var goal := db.goals[g];
    [Check(Listed(db, goal.product), ProductNotFound),
     Check(OnSale(db, goal.product), ProductInactive),
     Check(AtLeastMin(db, goal.product, goal.saving - goal.salak), BalanceBelowMinimum),
     Check(AtLeastMin(db, goal.product, amount), BelowMinimum),
     Check(AtMostMax(db, goal.product, amount), AboveMaximum),
     Check(InSteps(db, goal.product, amount), NotStepMultiple),
     Check(amount <= goal.saving - goal.salak, BuyExceedsBalance),
     Check(NoDrawOn(db, goal.product, Day(now)), DrawDay),
     Check(Covers(db, goal.account, amount), InsufficientFunds),
     Check(WholeUnit(db, goal.product, amount), NoWholeUnits),
     Check(FitsALetter(db, goal.product, amount), CannotReserve(Tickets.UnitsExceedLetter)),
     Check(LettersLeft(db, goal.product, amount), CannotReserve(Tickets.NoNextLetter(Tickets.CycleExhausted))),
     Check(PassesTheTables(db, goal.product, amount), CheckViolated)]
  }

  ghost function CreateGoalChecks(db: Db, user: nat, account: nat, product: nat, target: int): seq<Check> {
    [Check(Belongs(db, user, account), AccountNotFound),
     Check(IsOf(db, account, Kapook), WrongAccountKind),
     Check(user in db.accepted, TermsNotAccepted),
     Check(!HasGoal(db, account), GoalAlreadyExists),
     Check(Listed(db, product), ProductNotFound),
     Check(OnSale(db, product), ProductInactive),
     Check(target > 0, AmountNotPositive),
     Check(AtLeastMin(db, product, target), BelowMinimum),
     Check(AtMostMax(db, product, target), AboveMaximum),
     Check(InSteps(db, product, target), NotStepMultiple)]
  }

  ghost function SettleChecks(db: Db, h: nat): seq<Check> {
    [Check(h < |db.holdings|, HoldingNotFound),
     Check(h < |db.holdings| && db.holdings[h].settledAt.None?, AlreadySettled),
     Check(h < |db.holdings| && Listed(db, db.holdings[h].product), ProductNotFound),
     Check(h < |db.holdings| && OnSale(db, db.holdings[h].product), ProductInactive),
     Check(h < |db.holdings| && db.holdings[h].account < |db.books.accounts| &&
           HasPrimary(db, db.books.accounts[db.holdings[h].account].user), NoPrimaryAccount),
     Check(h < |db.holdings| && Listed(db, db.holdings[h].product) &&
           db.products[db.holdings[h].product].interest * db.holdings[h].units >= 50, CheckViolated)]
  }

  function OpenChecks(kind: Kind, opening: int, primary: bool, taken: bool): seq<Check> {
    [Check(opening >= 0, CheckViolated),
     Check(kind == Savings || !primary, CheckViolated),
     Check(kind == Savings || opening == 0, CheckViolated),
     Check(!primary || !taken, CheckViolated)]
  }

  // ---- the answers

  lemma {:induction false} DepositAnswers(db: Db, user: nat, kapook: nat, savings: nat, amount: int, now: Stamp)
    requires Inv(db)
    ensures AnsweredBy(DepositChecks(db, user, kapook, savings, amount),
            Deposit(db, user, kapook, savings, amount, now))
  {
    hide Inv, Deposited;
    OnlyOpen(db, kapook);
    var c := DepositChecks(db, user, kapook, savings, amount);
    var k := SomeFirstFails(c);
    assert c == [c[0], c[1], c[2], c[3], c[4], c[5], c[6], c[7], c[8]];
  }

  /** The open goal is the one the search finds. */
  lemma {:induction false} OnlyOpen(db: Db, account: nat)
    requires Inv(db)
    ensures HasGoal(db, account) <==> ActiveGoal(db.goals, account).Some?
    ensures forall g: nat :: OpenOn(db, g, account) ==> ActiveGoal(db.goals, account) == Some(g)
  {
    hide Inv;
    forall g: nat | OpenOn(db, g, account) ensures ActiveGoal(db.goals, account) == Some(g) {
      ActiveGoalCash(db, g);
    }
    if ActiveGoal(db.goals, account).Some? {
      assert OpenOn(db, ActiveGoal(db.goals, account).value, account);
    }
  }

  lemma {:induction false} WithdrawAnswers(db: Db, user: nat, kapook: nat, amount: int, now: Stamp)
    requires Inv(db)
    ensures AnsweredBy(WithdrawChecks(db, user, kapook, amount), Withdraw(db, user, kapook, amount, now))
  {
    hide Inv, Withdrawn, FeeDue;
    OnlyOpen(db, kapook);
    var c := WithdrawChecks(db, user, kapook, amount);
    var k := SomeFirstFails(c);
    assert c == [c[0], c[1], c[2], c[3], c[4], c[5], c[6], c[7]];
  }

  /** The tickets an amount buys are its quotient by the price. */
  lemma {:induction false} SalesArithmetic(db: Db, product: nat, amount: int)
    requires Tables(db) && product < |db.products|
    ensures forall n :: Buys(db, product, amount, n) <==> n == amount / db.products[product].unitPrice
  {
    var price := db.products[product].unitPrice;
    forall n ensures Buys(db, product, amount, n) <==> n == amount / price {
      UnitsAreQuotient(amount, price, n);
    }
  }

  lemma {:induction false} ProductsAscend(m: int, n: int, price: int)
    requires m <= n && price > 0
    ensures m * price <= n * price
  {
    assert n * price - m * price == (n - m) * price;
  }

  lemma {:induction false} UnitsAreQuotient(amount: int, price: int, n: int)
    requires price > 0
    ensures n * price <= amount < (n + 1) * price <==> n == amount / price
  {
    var q := amount / price;
    assert q * price <= amount < (q + 1) * price;
    if n > q {
      ProductsAscend(q + 1, n, price);
    } else if n < q {
      ProductsAscend(n + 1, q, price);
    }
  }

  /** Minting is refused by the first of the ticket checks that fails. */
  lemma {:induction false} MintRefusals(db: Db, salak: nat, product: nat, amount: int, now: Stamp)
    requires Tables(db) && product < |db.products| && Tickets.ValidCursor(db.cursors[product])
    ensures var r := Mint(db, salak, product, amount, now);
            var (whole, fits) := (WholeUnit(db, product, amount), FitsALetter(db, product, amount));
            var (left, passes) := (LettersLeft(db, product, amount), PassesTheTables(db, product, amount));
            && (r.Success? <==> whole && fits && left && passes)
            && (r == Failure(NoWholeUnits) <==> !whole)
            && (r == Failure(CannotReserve(Tickets.UnitsExceedLetter)) <==> whole && !fits)
            && (r == Failure(CannotReserve(Tickets.NoNextLetter(Tickets.CycleExhausted))) <==> whole && fits && !left)
            && (r == Failure(CheckViolated) <==> whole && fits && left && !passes)
  {
    SalesArithmetic(db, product, amount);
    var n := amount / db.products[product].unitPrice;
    assert Buys(db, product, amount, n);
    hide Buys;
  }

  lemma {:induction false} HoldingsHaveCursors(db: Db, product: nat)
    requires Inv(db) && product < |db.products|
    ensures product < |db.cursors| && Tickets.ValidCursor(db.cursors[product])
  {
    hide BooksLaw, AccountsLaw, ReferenceLaw, GoalsLaw, RowsLaw, CashLaw, SalakLaw, PaidOnceLaw, FeeLaw;
  }

  lemma {:induction false} BuySalakAnswers(db: Db, user: nat, funding: nat, salak: nat, product: nat, amount: int,
          now: Stamp)
    requires Tables(db) && Inv(db)
    ensures AnsweredBy(BuySalakChecks(db, user, funding, salak, product, amount, now),
                       BuySalak(db, user, funding, salak, product, amount, now))
  {
    hide Inv, Steps.Purchased, Mint, WholeUnit, FitsALetter, LettersLeft, PassesTheTables;
    if product < |db.products| {
      HoldingsHaveCursors(db, product);
      MintRefusals(db, salak, product, amount, now);
    }
    var c := BuySalakChecks(db, user, funding, salak, product, amount, now);
    var k := SomeFirstFails(c);
    assert c == [c[0], c[1], c[2], c[3], c[4], c[5], c[6], c[7], c[8], c[9], c[10], c[11], c[12], c[13], c[14],
                 c[15], c[16]];
  }

  lemma {:induction false} BuyFromAnswers(db: Db, kapook: nat, salak: nat, g: nat, amount: int, automatic: bool,
          now: Stamp)
    requires Tables(db) && Inv(db) && amount > 0 && g < |db.goals| && db.goals[g].account == kapook
    requires kapook < |db.books.accounts| && salak < |db.books.accounts|
    ensures AnsweredBy(GoalSaleChecks(db, g, amount, now), BuyFrom(db, kapook, salak, g, amount, automatic, now))
  {
    hide Inv, Steps.Purchased, Converted, Mint, WholeUnit, FitsALetter, LettersLeft, PassesTheTables;
    var product := db.goals[g].product;
    if product < |db.products| {
      HoldingsHaveCursors(db, product);
      MintRefusals(db, salak, product, amount, now);
    }
    var c := GoalSaleChecks(db, g, amount, now);
    var k := SomeFirstFails(c);
    assert c == [c[0], c[1], c[2], c[3], c[4], c[5], c[6], c[7], c[8], c[9], c[10], c[11], c[12]];
  }

  /** A purchase from a goal makes the first table's checks, and, once these have
      found the goal, the second's. */
  lemma {:induction false} BuyFromGoalAnswers(db: Db, user: nat, kapook: nat, salak: nat, amount: int,
          automatic: bool, now: Stamp)
    requires Tables(db) && Inv(db)
    ensures var first, r := BuyFromGoalChecks(db, user, kapook, salak, amount),
                BuyFromGoal(db, user, kapook, salak, amount, automatic, now);
            && (!AllPass(first) ==> AnsweredBy(first, r))
            && (AllPass(first) ==> exists g: nat :: OpenOn(db, g, kapook) &&
                                     AnsweredBy(GoalSaleChecks(db, g, amount, now), r))
  {
    hide Inv, BuyFrom, GoalSaleChecks;
    OnlyOpen(db, kapook);
    var c := BuyFromGoalChecks(db, user, kapook, salak, amount);
    var k := SomeFirstFails(c);
    assert c == [c[0], c[1], c[2], c[3], c[4], c[5], c[6]];
    if AllPass(c) {
      var g := ActiveGoal(db.goals, kapook).value;
      BuyFromAnswers(db, kapook, salak, g, amount, automatic, now);
      assert OpenOn(db, g, kapook);
    }
  }

  lemma {:induction false} CreateGoalAnswers(db: Db, user: nat, account: nat, product: nat, target: int, now: Stamp)
    requires Tables(db) && Inv(db)
    ensures AnsweredBy(CreateGoalChecks(db, user, account, product, target),
                       CreateGoal(db, user, account, product, target, now))
  {
    hide Inv;
    OnlyOpen(db, account);
    var c := CreateGoalChecks(db, user, account, product, target);
    var k := SomeFirstFails(c);
    assert c == [c[0], c[1], c[2], c[3], c[4], c[5], c[6], c[7], c[8], c[9]];
  }

  /** The debit of a settlement is not among its checks: it never fails. */
  lemma {:induction false} SettleAnswers(db: Db, h: nat, now: Stamp)
    requires Inv(db)
    requires (forall i :: 0 <= i < |db.holdings| ==> db.holdings[i].account < |db.books.accounts|)
             && (forall j :: 0 <= j < |db.rows| ==> db.rows[j].goal < |db.goals|)
    ensures AnsweredBy(SettleChecks(db, h), Settle(db, h, now))
  {
    hide Inv, Paid, Expired;
    SettleExactlyWhen(db, h, now);
    var c := SettleChecks(db, h);
    var k := SomeFirstFails(c);
    assert c == [c[0], c[1], c[2], c[3], c[4], c[5]];
  }

  lemma {:induction false} OpenAccountAnswers(db: Db, user: nat, kind: Kind, opening: int, primary: bool, now: Stamp)
    ensures AnsweredBy(OpenChecks(kind, opening, primary, HasPrimary(db, user)),
                       OpenAccount(db, user, kind, opening, primary, now))
  {
    var c := OpenChecks(kind, opening, primary, HasPrimary(db, user));
    var k := SomeFirstFails(c);
    assert c == [c[0], c[1], c[2], c[3]];
  }

  function TermsChecks(p: Product): seq<Check> {
    [Check(p.unitPrice > 0, CheckViolated), Check(p.minPurchase > 0, CheckViolated),
     Check(p.maxPurchase >= p.minPurchase, CheckViolated), Check(p.step > 0, CheckViolated),
     Check(p.interest > 0, CheckViolated)]
  }

  lemma {:induction false} ProductAnswers(db: Db, product: nat, p: Product, now: Stamp)
    ensures AnsweredBy(TermsChecks(p), AddProduct(db, p, now))
    ensures AnsweredBy([Check(Listed(db, product), ProductNotFound)] + TermsChecks(p),
            ReviseProduct(db, product, p, now))
    ensures forall user :: AcceptTerms(db, user, now).Done?
  {
    var c := TermsChecks(p);
    var k := SomeFirstFails(c);
    assert c == [c[0], c[1], c[2], c[3], c[4]];
    var d := [Check(Listed(db, product), ProductNotFound)] + c;
    var l := SomeFirstFails(d);
    assert d == [d[0], c[0], c[1], c[2], c[3], c[4]];
    assert d == [d[0], d[1], d[2], d[3], d[4], d[5]];
  }

  // ---- the worker's attempt

  predicate HasSalak(db: Db, user: nat) {
    exists a :: 0 <= a < |db.books.accounts| && db.books.accounts[a].kind == Salak && db.books.accounts[a].user == user
  }

  predicate FreeDaySoon(db: Db, product: nat, today: int) {
    product < |db.products| && exists d :: today < d <= today + 45 && d !in db.products[product].drawDays
  }

  /** What an attempt comes to, given what a purchase of the goal would be
      refused for. */
  function AfterRefusal(db: Db, product: nat, today: int, e: Error): Attempt {
    if e != DrawDay then Failed(e)
    else if FreeDaySoon(db, product, today) then Deferred
    else Failed(NoAvailableDate)
  }

  lemma {:induction false} SalakFound(accounts: seq<Account>, user: nat)
    ensures FirstSalak(accounts, user).None? ==>
              forall a :: 0 <= a < |accounts| ==> !(accounts[a].kind == Salak && accounts[a].user == user)
    ensures FirstSalak(accounts, user).Some? ==>
              forall a :: 0 <= a < FirstSalak(accounts, user).value ==>
                !(accounts[a].kind == Salak && accounts[a].user == user)
  {
    if accounts != [] {
      var n := |accounts| - 1;
      SalakFound(accounts[..n], user);
      forall a | 0 <= a < n ensures accounts[..n][a] == accounts[a] {}
    }
  }

  /** An attempt on a reached goal makes the checks of a purchase of all that is
      left: it buys when all pass, is deferred when the first to fail is the draw
      day and one of the next 45 days has none, and otherwise fails with the
      error of that check. */
  lemma {:induction false} AttemptAnswers(db: Db, g: nat, now: Stamp)
    requires Tables(db) && Inv(db) && g < |db.goals| && db.goals[g].active && db.goals[g].reachedAt.Some?
    ensures db.goals[g].account < |db.books.accounts|
    ensures var goal := db.goals[g];
            var user := db.books.accounts[goal.account].user;
            var sale, attempt := GoalSaleChecks(db, g, goal.saving - goal.salak, now), ProcessGoal(db, g, goal, now).1;
            && (!HasSalak(db, user) ==> attempt == Failed(NoSalakAccount))
            && (HasSalak(db, user) ==> (attempt == Attempt.Purchased <==> AllPass(sale)))
            && (HasSalak(db, user) ==> forall k: nat :: FirstFails(sale, k) ==>
                  attempt == AfterRefusal(db, goal.product, Day(now), sale[k].error))
  {
    hide Inv, BuyFrom, GoalSaleChecks, ProcessGoal, FreeDaySoon;
    var goal := db.goals[g];
    ReachedGoal(db, g);
    SalakFound(db.books.accounts, db.books.accounts[goal.account].user);
    AttemptIsPurchase(db, g, now);
    var salak := FirstSalak(db.books.accounts, db.books.accounts[goal.account].user);
    if salak.Some? {
      BuyFromAnswers(db, goal.account, salak.value, g, goal.Available(), true, now);
      FirstIsOne(GoalSaleChecks(db, g, goal.Available(), now));
    }
  }

  /** The attempt goes as the purchase of all that is left does. */
  lemma {:induction false} AttemptIsPurchase(db: Db, g: nat, now: Stamp)
    requires Tables(db) && g < |db.goals| && db.goals[g].account < |db.books.accounts|
    requires ActiveGoal(db.goals, db.goals[g].account) == Some(g) && db.goals[g].Available() > 0
    requires db.books.accounts[db.goals[g].account].kind == Kapook
    ensures var goal := db.goals[g];
            var salak, attempt := FirstSalak(db.books.accounts, db.books.accounts[goal.account].user),
                ProcessGoal(db, g, goal, now).1;
            match salak
            case None => attempt == Failed(NoSalakAccount)
            case Some(a) =>
              attempt == match BuyFrom(db, goal.account, a, g, goal.Available(), true, now)
                         case Done(_, _) => Attempt.Purchased
                         case Refused(e) => AfterRefusal(db, goal.product, Day(now), e)
  {
    hide BuyFrom;
    var goal := db.goals[g];
    var salak := FirstSalak(db.books.accounts, db.books.accounts[goal.account].user);
    if salak.Some? && BuyFrom(db, goal.account, salak.value, g, goal.Available(), true, now) == Refused(DrawDay) {
      DrawDayMeansProduct(db, g, goal.account, salak.value, goal.Available(), now);
    }
  }

  lemma {:induction false} FirstIsOne(checks: seq<Check>)
    ensures forall j: nat, k: nat :: FirstFails(checks, j) && FirstFails(checks, k) ==> j == k
    ensures forall j: nat :: FirstFails(checks, j) ==> !AllPass(checks)
  {}

  lemma {:induction false} DrawDayMeansProduct(db: Db, g: nat, kapook: nat, salak: nat, amount: int, now: Stamp)
    requires Tables(db) && g < |db.goals| && kapook < |db.books.accounts| && salak < |db.books.accounts|
    requires BuyFrom(db, kapook, salak, g, amount, true, now) == Refused(DrawDay)
    ensures CheckProduct(db.products, db.goals[g].product).None?
  {
    hide Steps.Purchased, Converted;
  }

  lemma {:induction false} ReachedGoal(db: Db, g: nat)
    requires Inv(db) && g < |db.goals| && db.goals[g].active && db.goals[g].reachedAt.Some?
    ensures db.goals[g].account < |db.books.accounts| && db.goals[g].product < |db.products|
    ensures db.books.accounts[db.goals[g].account].kind == Kapook && db.goals[g].Available() > 0
    ensures ActiveGoal(db.goals, db.goals[g].account) == Some(g)
  {
    hide BooksLaw, AccountsLaw, ReferenceLaw, RowsLaw, SalakLaw, PaidOnceLaw, HoldingsLaw, FeeLaw;
    GoalFacts(db, g);
  }
}
