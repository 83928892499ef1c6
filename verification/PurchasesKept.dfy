/** Purchases and settlements keep every law. */
module PurchasesKept {
  import opened Outcomes
  import opened Calendar
  import opened Sums
  import opened Database
  import opened Steps
  import opened Laws
  import opened LawsKept
  import opened StepsKept

  // ---- minting

  /** What the guards before the money moves leave true of a purchase. */
  ghost predicate MintOk(db: Db, funding: nat, salak: nat, product: nat, amount: int, now: Stamp) {
    && Tables(db) && product < |db.products|
    && funding < |db.books.accounts| && salak < |db.books.accounts|
    && db.books.accounts[funding].kind != Salak && db.books.accounts[salak].kind == Salak
    && 0 < amount <= db.books.accounts[funding].balance
    && Mint(db, salak, product, amount, now).Success?
  }

  function Minted(db: Db, funding: nat, salak: nat, product: nat, amount: int, now: Stamp): Db
    requires MintOk(db, funding, salak, product, amount, now)
  {
    var (holding, next) := Mint(db, salak, product, amount, now).value;
    Purchased(db, funding, salak, product, amount, holding, next, now)
  }

  lemma {:induction false} MintKeepsPaidOnce(ledger: seq<Entry>, holdings: seq<Holding>, h: Holding, d: Entry, c: Entry)
    requires PaidOnceLaw(ledger, holdings) && h.settledAt.None?
    requires d.refType == c.refType == BuySalakRef && d.holding == c.holding == Some(|holdings|)
    ensures PaidOnceLaw(ledger + [d, c], holdings + [h])
  {
    var ledger', holdings' := ledger + [d, c], holdings + [h];
    forall k: nat | k < |holdings'|
      ensures Sum(ledger', PrincipalPaid(k)) == if holdings'[k].settledAt.Some? then holdings'[k].amount else 0
    {
      SumConcat(ledger, [d, c], PrincipalPaid(k));
      SumOf2(d, c, PrincipalPaid(k));
      if k == |holdings| {
        SumZero(ledger, PrincipalPaid(k));
      }
    }
  }

  lemma {:induction false} MintedKeepsBooks(db: Db, funding: nat, salak: nat, product: nat, amount: int, now: Stamp)
    requires MintOk(db, funding, salak, product, amount, now)
    requires BooksLaw(db.books) && ReferenceLaw(db.books.ledger, db.rows, db.nextId) &&
             PaidOnceLaw(db.books.ledger, db.holdings)
    ensures var db' := Minted(db, funding, salak, product, amount, now);
            && BooksLaw(db'.books) && ReferenceLaw(db'.books.ledger, db'.rows, db'.nextId)
            && PaidOnceLaw(db'.books.ledger, db'.holdings)
  {
    hide BooksLaw, ReferenceLaw, PaidOnceLaw;
    var h := Some(|db.holdings|);
    TransferKeepsBooks(db.books, funding, salak, amount, amount, BuySalakRef, db.nextId, h, now);
    TransferEffect(db.books, funding, salak, amount, amount, BuySalakRef, db.nextId, h, now);
    var d := DebitEntry(db.books, funding, amount, BuySalakRef, db.nextId, h, now);
    var c := CreditEntry(db.books, salak, amount, BuySalakRef, db.nextId, h, now);
    EvenPairBalances(d, c);
    BalancedGroupKeepsReferences(db.books.ledger, db.rows, db.nextId, [d, c], [], db.nextId + 1);
    assert db.rows + [] == db.rows;
    MintKeepsPaidOnce(db.books.ledger, db.holdings, Mint(db, salak, product, amount, now).value.0, d, c);
  }

  lemma {:induction false} MintedKeepsGoals(db: Db, funding: nat, salak: nat, product: nat, amount: int, now: Stamp)
    requires MintOk(db, funding, salak, product, amount, now) && Later(db, now)
    requires AccountsLaw(db.books.accounts) && GoalsLaw(db.goals, db.books.accounts, db.products, db.clock)
    requires RowsLaw(db.rows, db.goals, db.holdings, db.clock) && FeeLaw(db.rows, db.goals)
    ensures var db' := Minted(db, funding, salak, product, amount, now);
            && AccountsLaw(db'.books.accounts) && GoalsLaw(db'.goals, db'.books.accounts, db'.products, db'.clock)
            && RowsLaw(db'.rows, db'.goals, db'.holdings, db'.clock) && FeeLaw(db'.rows, db'.goals)
  {
    TransferEffect(db.books, funding, salak, amount, amount, BuySalakRef, db.nextId, Some(|db.holdings|), now);
  }

  lemma {:induction false} MintedKeepsSalak(db: Db, funding: nat, salak: nat, product: nat, amount: int, now: Stamp)
    requires MintOk(db, funding, salak, product, amount, now)
    requires RowsLaw(db.rows, db.goals, db.holdings, db.clock)
    requires SalakLaw(db.goals, db.books.accounts, db.rows, db.holdings)
    requires HoldingsLaw(db.holdings, db.books.accounts, db.products, db.cursors)
    ensures var db' := Minted(db, funding, salak, product, amount, now);
            && SalakLaw(db'.goals, db'.books.accounts, db'.rows, db'.holdings)
            && HoldingsLaw(db'.holdings, db'.books.accounts, db'.products, db'.cursors)
  {
    var db' := Minted(db, funding, salak, product, amount, now);
    var (h, next) := Mint(db, salak, product, amount, now).value;
    TransferEffect(db.books, funding, salak, amount, amount, BuySalakRef, db.nextId, Some(|db.holdings|), now);
    MintedIsFresh(db, salak, product, amount, now);
    MintKeepsSalak(db.goals, db.books.accounts, db'.books.accounts, db.rows, db.holdings, h, db.clock);
    MintKeepsHoldings(db.holdings, db.books.accounts, db'.books.accounts, db.products, db.cursors, h, next);
  }

  lemma {:induction false} BuySalakGuards(db: Db, user: nat, funding: nat, salak: nat, product: nat, amount: int,
          now: Stamp)
    requires Tables(db) && BuySalak(db, user, funding, salak, product, amount, now).Done?
    ensures MintOk(db, funding, salak, product, amount, now) && db.books.accounts[funding].kind == Savings
    ensures BuySalak(db, user, funding, salak, product, amount, now) ==
            Done(Minted(db, funding, salak, product, amount, now), |db.holdings|)
  {}

  lemma {:induction false} MintedKeepsCash(db: Db, funding: nat, salak: nat, product: nat, amount: int, now: Stamp)
    requires MintOk(db, funding, salak, product, amount, now) && db.books.accounts[funding].kind == Savings
    requires GoalsLaw(db.goals, db.books.accounts, db.products, db.clock) &&
             CashLaw(db.goals, db.books.accounts, db.rows)
    ensures var db' := Minted(db, funding, salak, product, amount, now);
            CashLaw(db'.goals, db'.books.accounts, db'.rows)
  {}

  lemma {:induction false} BuySalakKeepsInv(db: Db, user: nat, funding: nat, salak: nat, product: nat, amount: int,
          now: Stamp)
    requires Inv(db) && Later(db, now) && Tables(db) && BuySalak(db, user, funding, salak, product, amount, now).Done?
    ensures Inv(BuySalak(db, user, funding, salak, product, amount, now).db)
  {
    hide BooksLaw, AccountsLaw, ReferenceLaw, GoalsLaw, RowsLaw, CashLaw, SalakLaw, PaidOnceLaw, HoldingsLaw, FeeLaw;
    BuySalakGuards(db, user, funding, salak, product, amount, now);
    MintedKeepsBooks(db, funding, salak, product, amount, now);
    MintedKeepsGoals(db, funding, salak, product, amount, now);
    MintedKeepsSalak(db, funding, salak, product, amount, now);
    MintedKeepsCash(db, funding, salak, product, amount, now);
  }

  // ---- buying from a goal

  ghost predicate BuyOk(db: Db, kapook: nat, salak: nat, g: nat, amount: int, now: Stamp) {
    && g < |db.goals| && db.goals[g].active && db.goals[g].account == kapook
    && amount <= db.goals[g].Available()
    && MintOk(db, kapook, salak, db.goals[g].product, amount, now)
    && db.books.accounts[kapook].kind == Kapook
  }

  function BoughtDb(db: Db, kapook: nat, salak: nat, g: nat, amount: int, automatic: bool, now: Stamp): Db
    requires BuyOk(db, kapook, salak, g, amount, now)
  {
    Converted(Minted(db, kapook, salak, db.goals[g].product, amount, now), g, kapook, amount, |db.holdings|,
        automatic, now)
  }

  /** A purchase that passed its guards is exactly the mint and the conversion. */
  lemma {:induction false} BuyGuards(db: Db, user: nat, kapook: nat, salak: nat, amount: int, automatic: bool,
          now: Stamp)
    returns (g: nat)
    requires Tables(db) && BuyFromGoal(db, user, kapook, salak, amount, automatic, now).Done?
    ensures ActiveGoal(db.goals, kapook) == Some(g) && BuyOk(db, kapook, salak, g, amount, now)
    ensures BuyFromGoal(db, user, kapook, salak, amount, automatic, now) ==
            Done(BoughtDb(db, kapook, salak, g, amount, automatic, now),
                 Bought(g, |db.holdings|, db.goals[g].salak + amount >= db.goals[g].target))
  {
    g := ActiveGoal(db.goals, kapook).value;
  }

  lemma {:induction false} BoughtKeepsReferences(db: Db, kapook: nat, salak: nat, g: nat, amount: int,
          automatic: bool, now: Stamp)
    requires BuyOk(db, kapook, salak, g, amount, now)
    requires BooksLaw(db.books) && ReferenceLaw(db.books.ledger, db.rows, db.nextId) &&
             PaidOnceLaw(db.books.ledger, db.holdings)
    ensures var db' := BoughtDb(db, kapook, salak, g, amount, automatic, now);
            && BooksLaw(db'.books) && ReferenceLaw(db'.books.ledger, db'.rows, db'.nextId)
            && PaidOnceLaw(db'.books.ledger, db'.holdings)
  {
    hide BooksLaw, ReferenceLaw, PaidOnceLaw;
    var paid := Minted(db, kapook, salak, db.goals[g].product, amount, now);
    MintedKeepsBooks(db, kapook, salak, db.goals[g].product, amount, now);
    var row := Row(paid.nextId, BuySalakRow, amount, kapook, g, None, Some(|db.holdings|), Some(automatic), now);
    FreeRowBalances(row);
    BalancedGroupKeepsReferences(paid.books.ledger, paid.rows, paid.nextId, [], [row], paid.nextId + 1);
    assert paid.books.ledger + [] == paid.books.ledger;
  }

  function ConvertedGoal(goal: Goal, amount: int): Goal {
    goal.(salak := goal.salak + amount, active := goal.salak + amount < goal.target, deferredUntil := None,
          attempts := 0, lastError := None, lastAttempt := None)
  }

  function BuyingRow(db: Db, kapook: nat, g: nat, amount: int, automatic: bool, now: Stamp): Row {
    Row(db.nextId + 1, BuySalakRow, amount, kapook, g, None, Some(|db.holdings|), Some(automatic), now)
  }

  lemma {:induction false} BoughtShape(db: Db, kapook: nat, salak: nat, g: nat, amount: int, automatic: bool,
          now: Stamp)
    requires BuyOk(db, kapook, salak, g, amount, now)
    ensures var db' := BoughtDb(db, kapook, salak, g, amount, automatic, now);
            var h := Mint(db, salak, db.goals[g].product, amount, now).value.0;
            && h.amount == amount && h.product == db.goals[g].product && h.settledAt.None?
            && db'.goals == db.goals[g := ConvertedGoal(db.goals[g], amount)]
            && db'.rows == db.rows + [BuyingRow(db, kapook, g, amount, automatic, now)]
            && db'.holdings == db.holdings + [h] && db'.products == db.products && db'.clock == now
            && SameHolders(db.books.accounts, db'.books.accounts)
            && db'.books.accounts[kapook].balance == db.books.accounts[kapook].balance - amount
            && (forall a :: 0 <= a < |db.books.accounts| && a != kapook && a != salak ==>
                  db'.books.accounts[a] == db.books.accounts[a])
  {}

  lemma {:induction false} MintKeepsRows(rows: seq<Row>, goals: seq<Goal>, holdings: seq<Holding>, clock: Stamp,
          h: Holding)
    requires RowsLaw(rows, goals, holdings, clock)
    ensures RowsLaw(rows, goals, holdings + [h], clock)
    ensures forall j :: 0 <= j < |rows| && rows[j].kind == BuySalakRow ==> rows[j].holding != Some(|holdings|)
  {}

  lemma {:induction false} BoughtKeepsGoals(db: Db, kapook: nat, salak: nat, g: nat, amount: int, automatic: bool,
          now: Stamp)
    requires BuyOk(db, kapook, salak, g, amount, now) && Later(db, now)
    requires AccountsLaw(db.books.accounts) && GoalsLaw(db.goals, db.books.accounts, db.products, db.clock)
    requires RowsLaw(db.rows, db.goals, db.holdings, db.clock) && FeeLaw(db.rows, db.goals)
    ensures var db' := BoughtDb(db, kapook, salak, g, amount, automatic, now);
            && AccountsLaw(db'.books.accounts) && GoalsLaw(db'.goals, db'.books.accounts, db'.products, db'.clock)
            && RowsLaw(db'.rows, db'.goals, db'.holdings, db'.clock) && FeeLaw(db'.rows, db'.goals)
  {
    BoughtShape(db, kapook, salak, g, amount, automatic, now);
    BoughtPiecesKeepGoals(db, BoughtDb(db, kapook, salak, g, amount, automatic, now), kapook, g, amount,
                          Mint(db, salak, db.goals[g].product, amount, now).value.0,
                          BuyingRow(db, kapook, g, amount, automatic, now), now);
  }

  lemma {:induction false} BoughtPiecesKeepGoals(db: Db, db': Db, kapook: nat, g: nat, amount: int, h: Holding,
          row: Row, now: Stamp)
    requires AccountsLaw(db.books.accounts) && GoalsLaw(db.goals, db.books.accounts, db.products, db.clock)
    requires RowsLaw(db.rows, db.goals, db.holdings, db.clock) && FeeLaw(db.rows, db.goals) && Later(db, now)
    requires g < |db.goals| && db.goals[g].active && db.goals[g].account == kapook
    requires 0 < amount <= db.goals[g].Available() && h.amount == amount && h.product == db.goals[g].product
    requires row.kind == BuySalakRow && row.goal == g && row.account == kapook && row.amount == amount
    requires row.holding == Some(|db.holdings|) && row.createdAt == now
    requires db'.goals == db.goals[g := ConvertedGoal(db.goals[g], amount)] && db'.rows == db.rows + [row]
    requires db'.holdings == db.holdings + [h] && db'.products == db.products && db'.clock == now
    requires SameHolders(db.books.accounts, db'.books.accounts)
    ensures AccountsLaw(db'.books.accounts) && GoalsLaw(db'.goals, db'.books.accounts, db'.products, db'.clock)
    ensures RowsLaw(db'.rows, db'.goals, db'.holdings, db'.clock) && FeeLaw(db'.rows, db'.goals)
  {
    var goal := ConvertedGoal(db.goals[g], amount);
    assert GoalLaw(db.goals[g]) && GoalLaw(goal);
    PostsKeepAccounts(db.books.accounts, db'.books.accounts);
    GoalUpdateKeepsGoals(db.goals, g, goal, db.books.accounts, db'.books.accounts, db.products, db.clock, now);
    MintKeepsRows(db.rows, db.goals, db.holdings, db.clock, h);
    RowKeepsRows(db.rows, db.goals, db'.goals, db'.holdings, db.clock, row, now);
    RowKeepsFees(db.rows, db.goals, db'.goals, row);
  }

  lemma {:induction false} BoughtKeepsSalak(db: Db, kapook: nat, salak: nat, g: nat, amount: int, automatic: bool,
          now: Stamp)
    requires BuyOk(db, kapook, salak, g, amount, now)
    requires RowsLaw(db.rows, db.goals, db.holdings, db.clock)
    requires SalakLaw(db.goals, db.books.accounts, db.rows, db.holdings)
    requires HoldingsLaw(db.holdings, db.books.accounts, db.products, db.cursors)
    ensures var db' := BoughtDb(db, kapook, salak, g, amount, automatic, now);
            && SalakLaw(db'.goals, db'.books.accounts, db'.rows, db'.holdings)
            && HoldingsLaw(db'.holdings, db'.books.accounts, db'.products, db'.cursors)
  {
    hide SalakLaw, HoldingsLaw, RowsLaw;
    var paid := Minted(db, kapook, salak, db.goals[g].product, amount, now);
    MintedKeepsSalak(db, kapook, salak, db.goals[g].product, amount, now);
    var goal := ConvertedGoal(db.goals[g], amount);
    var row := Row(paid.nextId, BuySalakRow, amount, kapook, g, None, Some(|db.holdings|), Some(automatic), now);
    BuyRowKeepsSalak(paid.goals, g, goal, paid.books.accounts, paid.rows, row, paid.holdings);
  }

  /** A purchase that fills the goal empties the kapook account: all that was
      saved has been bought, so nothing can have expired on the way. */
  lemma {:induction false} BoughtKeepsCash(db: Db, kapook: nat, salak: nat, g: nat, amount: int, automatic: bool,
          now: Stamp)
    requires BuyOk(db, kapook, salak, g, amount, now)
    requires GoalsLaw(db.goals, db.books.accounts, db.products, db.clock)
    requires CashLaw(db.goals, db.books.accounts, db.rows) &&
             SalakLaw(db.goals, db.books.accounts, db.rows, db.holdings)
    requires forall j :: 0 <= j < |db.rows| ==> db.rows[j].amount > 0
    ensures var db' := BoughtDb(db, kapook, salak, g, amount, automatic, now);
            CashLaw(db'.goals, db'.books.accounts, db'.rows)
  {
    var row := BuyingRow(db, kapook, g, amount, automatic, now);
    BoughtShape(db, kapook, salak, g, amount, automatic, now);
    BoughtPiecesKeepCash(db, BoughtDb(db, kapook, salak, g, amount, automatic, now).books.accounts, g, amount, row);
  }

  lemma {:induction false} BoughtPiecesKeepCash(db: Db, accounts': seq<Account>, g: nat, amount: int, row: Row)
    requires GoalsLaw(db.goals, db.books.accounts, db.products, db.clock)
    requires CashLaw(db.goals, db.books.accounts, db.rows) &&
             SalakLaw(db.goals, db.books.accounts, db.rows, db.holdings)
    requires forall j :: 0 <= j < |db.rows| ==> db.rows[j].amount > 0
    requires g < |db.goals| && db.goals[g].active && db.goals[g].account < |db.books.accounts|
    requires 0 < amount <= db.goals[g].Available() && amount <= db.books.accounts[db.goals[g].account].balance
    requires row.kind == BuySalakRow && row.goal == g && row.amount == amount
    requires SameCash(db.books.accounts, accounts', db.goals[g].account)
    requires accounts'[db.goals[g].account].balance == db.books.accounts[db.goals[g].account].balance - amount
    ensures CashLaw(db.goals[g := ConvertedGoal(db.goals[g], amount)], accounts', db.rows + [row])
  {
    RowKeepsBuys(db.rows, row);
    RowAddsBuys(db.rows, row, g);
    BoughtIsLivePlusExpired(db.goals, db.books.accounts, db.rows, db.holdings, g);
    assert GoalLaw(db.goals[g]);
    GoalUpdateKeepsCash(db.goals, g, ConvertedGoal(db.goals[g], amount), db.books.accounts, accounts', db.products,
        db.clock,
                        db.rows, db.rows + [row]);
  }

  lemma {:induction false} BuyFromGoalKeepsInv(db: Db, user: nat, kapook: nat, salak: nat, amount: int,
          automatic: bool, now: Stamp)
    requires Inv(db) && Later(db, now) && Tables(db) &&
             BuyFromGoal(db, user, kapook, salak, amount, automatic, now).Done?
    ensures Inv(BuyFromGoal(db, user, kapook, salak, amount, automatic, now).db)
  {
    hide BooksLaw, AccountsLaw, ReferenceLaw, GoalsLaw, CashLaw, SalakLaw, PaidOnceLaw, HoldingsLaw, FeeLaw;
    var g := BuyGuards(db, user, kapook, salak, amount, automatic, now);
    BoughtKeepsReferences(db, kapook, salak, g, amount, automatic, now);
    BoughtKeepsGoals(db, kapook, salak, g, amount, automatic, now);
    BoughtKeepsSalak(db, kapook, salak, g, amount, automatic, now);
    BoughtKeepsCash(db, kapook, salak, g, amount, automatic, now);
  }

  // ---- settling

  ghost predicate PayOk(db: Db, h: nat, primary: nat, interest: int) {
    && h < |db.holdings| && db.holdings[h].settledAt.None? && primary < |db.books.accounts|
    && db.books.accounts[primary].kind == Savings && interest > 0
    && db.holdings[h].account < |db.books.accounts| && db.books.accounts[db.holdings[h].account].kind == Salak
    && 0 < db.holdings[h].amount <= db.books.accounts[db.holdings[h].account].balance
  }

  /** Settlement's debit is always covered, because the salak account holds
      every unsettled holding; and its goal's salak covers it too. */
  lemma {:induction false} SettlementIsCovered(db: Db, h: nat)
    requires HoldingsLaw(db.holdings, db.books.accounts, db.products, db.cursors)
    requires SalakLaw(db.goals, db.books.accounts, db.rows, db.holdings)
    requires RowsLaw(db.rows, db.goals, db.holdings, db.clock)
    requires h < |db.holdings| && db.holdings[h].settledAt.None?
    ensures HoldingLaw(db.holdings[h], db.books.accounts, db.cursors)
    ensures 0 < db.holdings[h].amount <= db.books.accounts[db.holdings[h].account].balance
    ensures forall j :: 0 <= j < |db.rows| && IsBuyRow(db.rows[j], h) ==>
              db.rows[j].goal < |db.goals| && db.holdings[h].amount <= db.goals[db.rows[j].goal].salak
  {
    forall i | 0 <= i < |db.holdings| ensures HoldingLaw(db.holdings[i], db.books.accounts, db.cursors) {}
    SumCovers(db.holdings, h, LiveOf(db.holdings[h].account));
    forall j | 0 <= j < |db.rows| && IsBuyRow(db.rows[j], h)
      ensures db.rows[j].goal < |db.goals| && db.holdings[h].amount <= db.goals[db.rows[j].goal].salak
    {
      SumCovers(db.rows, j, LiveIn(db.rows[j].goal, db.holdings));
    }
  }

  lemma {:induction false} PaidEffect(db: Db, h: nat, primary: nat, interest: int, now: Stamp) returns (d: Entry,
          c: Entry, i: Entry)
    requires PayOk(db, h, primary, interest)
    ensures var db' := Paid(db, h, primary, interest, now);
            var salak := db.holdings[h].account;
            && SameHolders(db.books.accounts, db'.books.accounts)
            && db'.books.accounts[salak].balance == db.books.accounts[salak].balance - db.holdings[h].amount
            && (forall a :: 0 <= a < |db.books.accounts| && a != salak && a != primary ==>
                  db'.books.accounts[a] == db.books.accounts[a])
            && db'.books.ledger == db.books.ledger + [d, c, i]
    ensures d.debit && !c.debit && !i.debit && d.ref == c.ref == i.ref == db.nextId
    ensures d.amount == c.amount == db.holdings[h].amount && d.holding == c.holding == i.holding == Some(h)
    ensures d.refType == c.refType == SalakMaturity && i.refType == SalakMaturityInterest
  {
    var holding := db.holdings[h];
    TransferEffect(db.books, holding.account, primary, holding.amount, holding.amount, SalakMaturity, db.nextId,
        Some(h), now);
    var ledger := Paid(db, h, primary, interest, now).books.ledger;
    var n := |db.books.ledger|;
    d, c, i := ledger[n], ledger[n + 1], ledger[n + 2];
  }

  lemma {:induction false} PayoutIsPaidOnce(ledger: seq<Entry>, holdings: seq<Holding>, h: nat, now: Stamp, d: Entry,
          c: Entry, i: Entry)
    requires PaidOnceLaw(ledger, holdings) && h < |holdings| && holdings[h].settledAt.None?
    requires d.debit && !c.debit && !i.debit && d.amount == holdings[h].amount && d.refType == SalakMaturity
    requires i.refType == SalakMaturityInterest && d.holding == c.holding == i.holding == Some(h)
    ensures PaidOnceLaw(ledger + [d, c, i], holdings[h := holdings[h].(settledAt := Some(now))])
  {
    forall k: nat | k < |holdings|
      ensures Sum(ledger + [d, c, i], PrincipalPaid(k)) ==
              Sum(ledger, PrincipalPaid(k)) + (if k == h then holdings[h].amount else 0)
    {
      SumConcat(ledger, [d, c, i], PrincipalPaid(k));
      SumOf3(d, c, i, PrincipalPaid(k));
    }
  }

  lemma {:induction false} PaidKeepsBooks(db: Db, h: nat, primary: nat, interest: int, now: Stamp)
    requires PayOk(db, h, primary, interest)
    requires BooksLaw(db.books) && ReferenceLaw(db.books.ledger, db.rows, db.nextId) &&
             PaidOnceLaw(db.books.ledger, db.holdings)
    ensures var db' := Paid(db, h, primary, interest, now);
            && BooksLaw(db'.books) && ReferenceLaw(db'.books.ledger, db'.rows, db'.nextId)
            && PaidOnceLaw(db'.books.ledger, db'.holdings)
  {
    hide BooksLaw, ReferenceLaw, PaidOnceLaw;
    var holding, id := db.holdings[h], db.nextId;
    TransferKeepsBooks(db.books, holding.account, primary, holding.amount, holding.amount, SalakMaturity, id, Some(h),
        now);
    TransferEffect(db.books, holding.account, primary, holding.amount, holding.amount, SalakMaturity, id, Some(h), now);
    var b := Transfer(db.books, holding.account, primary, holding.amount, holding.amount, SalakMaturity, id, Some(h),
        now);
    PostKeepsBooks(b, primary, false, interest, SalakMaturityInterest, id, Some(h), now);
    var d, c, i := PaidEffect(db, h, primary, interest, now);
    PayoutBalances(d, c, i);
    BalancedGroupKeepsReferences(db.books.ledger, db.rows, id, [d, c, i], [], id + 1);
    assert db.rows + [] == db.rows;
    PayoutIsPaidOnce(db.books.ledger, db.holdings, h, now, d, c, i);
  }

  /** Settling holding `h` moves its one buy row from live to settled. */
  lemma {:induction false} SettledMovesRow(rows: seq<Row>, holdings: seq<Holding>, h: nat, now: Stamp, g: nat)
    requires h < |holdings| && holdings[h].settledAt.None?
    requires forall j, k :: 0 <= j < k < |rows| && rows[j].kind == BuySalakRow && rows[k].kind == BuySalakRow ==>
               rows[j].holding != rows[k].holding
    ensures var holdings' := SettledHoldings(holdings, h, now);
            var moved := match BuyRow(rows, h) case None => 0 case Some(j) => if rows[j].goal == g
                then rows[j].amount else 0;
            && Sum(rows, LiveIn(g, holdings')) == Sum(rows, LiveIn(g, holdings)) - moved
            && Sum(rows, SettledIn(g, holdings')) == Sum(rows, SettledIn(g, holdings)) + moved
  {
    var holdings' := SettledHoldings(holdings, h, now);
    match BuyRow(rows, h)
    case None =>
      SumExt(rows, LiveIn(g, holdings'), LiveIn(g, holdings));
      SumExt(rows, SettledIn(g, holdings'), SettledIn(g, holdings));
    case Some(j) =>
      SumDiffAt(rows, j, LiveIn(g, holdings), LiveIn(g, holdings'));
      SumDiffAt(rows, j, SettledIn(g, holdings), SettledIn(g, holdings'));
  }

  lemma {:induction false} SettledLowersAccount(holdings: seq<Holding>, h: nat, now: Stamp, a: nat)
    requires h < |holdings| && holdings[h].settledAt.None?
    ensures Sum(SettledHoldings(holdings, h, now), LiveOf(a)) ==
            Sum(holdings, LiveOf(a)) - (if holdings[h].account == a then holdings[h].amount else 0)
  {
    SumUpdate(holdings, h, holdings[h].(settledAt := Some(now)), LiveOf(a));
  }

  function SettledDb(db: Db, h: nat, primary: nat, interest: int, now: Stamp): Db
    requires PayOk(db, h, primary, interest) && RowsLaw(db.rows, db.goals, db.holdings, db.clock)
  {
    Expired(Paid(db, h, primary, interest, now), h, now)
  }

  function SettledHoldings(holdings: seq<Holding>, h: nat, now: Stamp): seq<Holding>
    requires h < |holdings|
  {
    holdings[h := holdings[h].(settledAt := Some(now))]
  }

  function ExpiredGoal(goal: Goal, amount: int): Goal {
    goal.(salak := goal.salak - amount)
  }

  lemma {:induction false} SettledShape(db: Db, h: nat, primary: nat, interest: int, now: Stamp)
    requires PayOk(db, h, primary, interest) && RowsLaw(db.rows, db.goals, db.holdings, db.clock)
    ensures var db' := SettledDb(db, h, primary, interest, now);
            && db'.books == Paid(db, h, primary, interest, now).books
            && Paid(db, h, primary, interest, now).rows == db.rows &&
               Paid(db, h, primary, interest, now).nextId == db.nextId + 1
            && Paid(db, h, primary, interest, now).holdings == db'.holdings && db'.products == db.products &&
               db'.clock == now
            && db'.holdings == SettledHoldings(db.holdings, h, now) && db'.cursors == db.cursors
            && match BuyRow(db.rows, h)
               case None => db'.goals == db.goals && db'.rows == db.rows && db'.nextId == db.nextId + 1
               case Some(j) =>
                 var g := db.rows[j].goal;
                 && db'.nextId == db.nextId + 2
                 && db'.goals == db.goals[g := ExpiredGoal(db.goals[g], db.rows[j].amount)]
                 && db'.rows == db.rows + [Row(db.nextId + 1, SalakExpirationRow, db.rows[j].amount, db.rows[j].account,
                                               g, None, Some(h), None, now)]
  {}

  lemma {:induction false} ExpirationKeepsSalak(rows: seq<Row>, holdings: seq<Holding>, h: nat, now: Stamp, g: nat,
          row: Row)
    requires h < |holdings| && holdings[h].settledAt.None?
    requires forall j, k :: 0 <= j < k < |rows| && rows[j].kind == BuySalakRow && rows[k].kind == BuySalakRow ==>
               rows[j].holding != rows[k].holding
    requires BuyRow(rows, h).Some?
    requires var buy := rows[BuyRow(rows, h).value];
             row.kind == SalakExpirationRow && row.goal == buy.goal && row.amount == buy.amount
    ensures var holdings' := SettledHoldings(holdings, h, now);
            var moved := if row.goal == g then row.amount else 0;
            && Sum(rows + [row], LiveIn(g, holdings')) == Sum(rows, LiveIn(g, holdings)) - moved
            && Sum(rows + [row], SettledIn(g, holdings')) == Sum(rows, SettledIn(g, holdings)) + moved
            && Sum(rows + [row], ExpiredIn(g)) == Sum(rows, ExpiredIn(g)) + moved
  {
    var holdings' := SettledHoldings(holdings, h, now);
    SettledMovesRow(rows, holdings, h, now, g);
    SumSnoc(rows, row, LiveIn(g, holdings'));
    SumSnoc(rows, row, SettledIn(g, holdings'));
    SumSnoc(rows, row, ExpiredIn(g));
  }

  lemma {:induction false} SettledGoalsKeepSalak(goals: seq<Goal>, accounts: seq<Account>, rows: seq<Row>,
          holdings: seq<Holding>,
                                                 clock: Stamp, h: nat, now: Stamp, goals': seq<Goal>, rows': seq<Row>,
                                                     g: nat)
    requires RowsLaw(rows, goals, holdings, clock) && SalakLaw(goals, accounts, rows, holdings)
    requires h < |holdings| && holdings[h].settledAt.None? && g < |goals|
    requires match BuyRow(rows, h)
             case None => goals' == goals && rows' == rows
             case Some(j) =>
               && goals' == goals[rows[j].goal := ExpiredGoal(goals[rows[j].goal], rows[j].amount)]
               && |rows'| == |rows| + 1 && rows' == rows + [rows'[|rows|]]
               && rows'[|rows|].kind == SalakExpirationRow && rows'[|rows|].goal == rows[j].goal
               && rows'[|rows|].amount == rows[j].amount
    ensures goals'[g].salak == Sum(rows', LiveIn(g, SettledHoldings(holdings, h, now)))
    ensures Sum(rows', ExpiredIn(g)) == Sum(rows', SettledIn(g, SettledHoldings(holdings, h, now)))
  {
    if BuyRow(rows, h).Some? {
      ExpirationKeepsSalak(rows, holdings, h, now, g, rows'[|rows|]);
    } else {
      SettledMovesRow(rows, holdings, h, now, g);
    }
  }

  lemma {:induction false} SettledKeepsSalak(db: Db, h: nat, primary: nat, interest: int, now: Stamp)
    requires PayOk(db, h, primary, interest) && RowsLaw(db.rows, db.goals, db.holdings, db.clock)
    requires SalakLaw(db.goals, db.books.accounts, db.rows, db.holdings)
    ensures var db' := SettledDb(db, h, primary, interest, now);
            SalakLaw(db'.goals, db'.books.accounts, db'.rows, db'.holdings)
  {
    hide Paid, Expired, SettledDb;
    var db' := SettledDb(db, h, primary, interest, now);
    SettledShape(db, h, primary, interest, now);
    var d, c, i := PaidEffect(db, h, primary, interest, now);
    forall g: nat | g < |db'.goals|
      ensures db'.goals[g].salak == Sum(db'.rows, LiveIn(g, db'.holdings))
      ensures Sum(db'.rows, ExpiredIn(g)) == Sum(db'.rows, SettledIn(g, db'.holdings))
    {
      SettledGoalsKeepSalak(db.goals, db.books.accounts, db.rows, db.holdings, db.clock, h, now, db'.goals, db'.rows,
          g);
    }
    forall a: nat | a < |db'.books.accounts| && db'.books.accounts[a].kind == Salak
      ensures db'.books.accounts[a].balance == Sum(db'.holdings, LiveOf(a))
    {
      SettledLowersAccount(db.holdings, h, now, a);
    }
  }

  lemma {:induction false} SettlingKeepsRows(rows: seq<Row>, goals: seq<Goal>, holdings: seq<Holding>, clock: Stamp,
          h: nat, now: Stamp)
    requires RowsLaw(rows, goals, holdings, clock) && h < |holdings| && Instant(clock) <= Instant(now)
    ensures RowsLaw(rows, goals, SettledHoldings(holdings, h, now), now)
  {}

  lemma {:induction false} SettledKeepsGoals(db: Db, h: nat, primary: nat, interest: int, now: Stamp)
    requires PayOk(db, h, primary, interest) && Later(db, now)
    requires AccountsLaw(db.books.accounts) && GoalsLaw(db.goals, db.books.accounts, db.products, db.clock)
    requires RowsLaw(db.rows, db.goals, db.holdings, db.clock) && FeeLaw(db.rows, db.goals)
    requires BuyRow(db.rows, h).Some? ==>
               db.holdings[h].amount <= db.goals[db.rows[BuyRow(db.rows, h).value].goal].salak
    ensures var db' := SettledDb(db, h, primary, interest, now);
            && AccountsLaw(db'.books.accounts) && GoalsLaw(db'.goals, db'.books.accounts, db'.products, db'.clock)
            && RowsLaw(db'.rows, db'.goals, db'.holdings, db'.clock) && FeeLaw(db'.rows, db'.goals)
  {
    var db' := SettledDb(db, h, primary, interest, now);
    SettledShape(db, h, primary, interest, now);
    var d, c, i := PaidEffect(db, h, primary, interest, now);
    PostsKeepAccounts(db.books.accounts, db'.books.accounts);
    SettlingKeepsRows(db.rows, db.goals, db.holdings, db.clock, h, now);
    if BuyRow(db.rows, h).Some? {
      var j := BuyRow(db.rows, h).value;
      ExpirationKeepsGoals(db, db'.books.accounts, db.rows[j].goal, db.rows[j].amount, db'.holdings,
          db'.rows[|db.rows|], now);
    }
  }

  lemma {:induction false} ExpirationKeepsGoals(db: Db, accounts': seq<Account>, g: nat, amount: int,
          holdings': seq<Holding>, row: Row, now: Stamp)
    requires GoalsLaw(db.goals, db.books.accounts, db.products, db.clock) && Later(db, now)
    requires RowsLaw(db.rows, db.goals, holdings', now) && FeeLaw(db.rows, db.goals)
    requires SameHolders(db.books.accounts, accounts')
    requires g < |db.goals| && 0 < amount <= db.goals[g].salak
    requires row.kind == SalakExpirationRow && row.goal == g && row.amount == amount &&
             row.account == db.goals[g].account
    requires row.createdAt == now
    ensures var goals' := db.goals[g := ExpiredGoal(db.goals[g], amount)];
            && GoalsLaw(goals', accounts', db.products, now)
            && RowsLaw(db.rows + [row], goals', holdings', now) && FeeLaw(db.rows + [row], goals')
  {
    var goal := ExpiredGoal(db.goals[g], amount);
    assert GoalLaw(db.goals[g]) && GoalLaw(goal);
    GoalUpdateKeepsGoals(db.goals, g, goal, db.books.accounts, accounts', db.products, db.clock, now);
    RowKeepsRows(db.rows, db.goals, db.goals[g := goal], holdings', now, row, now);
    RowKeepsFees(db.rows, db.goals, db.goals[g := goal], row);
  }

  lemma {:induction false} SettledKeepsCash(db: Db, h: nat, primary: nat, interest: int, now: Stamp)
    requires PayOk(db, h, primary, interest) && RowsLaw(db.rows, db.goals, db.holdings, db.clock)
    requires GoalsLaw(db.goals, db.books.accounts, db.products, db.clock) &&
             CashLaw(db.goals, db.books.accounts, db.rows)
    ensures var db' := SettledDb(db, h, primary, interest, now);
            CashLaw(db'.goals, db'.books.accounts, db'.rows)
  {
    hide Paid, Expired, SettledDb, CashLaw;
    SettledShape(db, h, primary, interest, now);
    var db' := SettledDb(db, h, primary, interest, now);
    var d, c, i := PaidEffect(db, h, primary, interest, now);
    if BuyRow(db.rows, h).Some? {
      RowKeepsBuys(db.rows, db'.rows[|db.rows|]);
    }
    QuietKeepsCash(db.goals, db'.goals, db.books.accounts, db'.books.accounts, db.rows, db'.rows);
  }

  lemma {:induction false} SettledKeepsReferences(db: Db, h: nat, primary: nat, interest: int, now: Stamp)
    requires PayOk(db, h, primary, interest) && RowsLaw(db.rows, db.goals, db.holdings, db.clock)
    requires BooksLaw(db.books) && ReferenceLaw(db.books.ledger, db.rows, db.nextId) &&
             PaidOnceLaw(db.books.ledger, db.holdings)
    ensures var db' := SettledDb(db, h, primary, interest, now);
            && BooksLaw(db'.books) && ReferenceLaw(db'.books.ledger, db'.rows, db'.nextId)
            && PaidOnceLaw(db'.books.ledger, db'.holdings)
  {
    hide Paid, Expired, SettledDb, BooksLaw, ReferenceLaw, PaidOnceLaw;
    SettledShape(db, h, primary, interest, now);
    PaidKeepsBooks(db, h, primary, interest, now);
    var paid, db' := Paid(db, h, primary, interest, now), SettledDb(db, h, primary, interest, now);
    if BuyRow(db.rows, h).Some? {
      var row := db'.rows[|db.rows|];
      FreeRowBalances(row);
      BalancedGroupKeepsReferences(paid.books.ledger, paid.rows, paid.nextId, [], [row], paid.nextId + 1);
      assert paid.books.ledger + [] == paid.books.ledger;
    }
  }

  lemma {:induction false} SettledKeepsHoldings(db: Db, h: nat, primary: nat, interest: int, now: Stamp)
    requires PayOk(db, h, primary, interest) && RowsLaw(db.rows, db.goals, db.holdings, db.clock)
    requires HoldingsLaw(db.holdings, db.books.accounts, db.products, db.cursors)
    ensures var db' := SettledDb(db, h, primary, interest, now);
            HoldingsLaw(db'.holdings, db'.books.accounts, db'.products, db'.cursors)
  {
    SettledShape(db, h, primary, interest, now);
    hide Paid, Expired, SettledDb;
    var db' := SettledDb(db, h, primary, interest, now);
    var d, c, i := PaidEffect(db, h, primary, interest, now);
    forall k | 0 <= k < |db'.holdings| ensures HoldingLaw(db'.holdings[k], db'.books.accounts, db'.cursors) {
      assert HoldingLaw(db.holdings[k], db.books.accounts, db.cursors);
    }
    forall k, l | 0 <= k < l < |db'.holdings| ensures Disjoint(db'.holdings[k], db'.holdings[l]) {
      assert Disjoint(db.holdings[k], db.holdings[l]);
    }
  }

  /** A settlement that passed its guards is exactly the payout and the expiration. */
  lemma {:induction false} SettleGuards(db: Db, h: nat, now: Stamp) returns (primary: nat, interest: int)
    requires AccountsLaw(db.books.accounts) && HoldingsLaw(db.holdings, db.books.accounts, db.products, db.cursors)
    requires SalakLaw(db.goals, db.books.accounts, db.rows, db.holdings)
    requires RowsLaw(db.rows, db.goals, db.holdings, db.clock)
    requires forall i :: 0 <= i < |db.holdings| ==> db.holdings[i].account < |db.books.accounts|
    requires Settle(db, h, now).Done?
    ensures PayOk(db, h, primary, interest)
    ensures Settle(db, h, now) == Done(SettledDb(db, h, primary, interest, now),
            Settlement(db.holdings[h].amount, interest, primary))
  {
    SettlementIsCovered(db, h);
    var Done(_, s) := Settle(db, h, now);
    primary, interest := s.primary, s.interest;
  }

  lemma {:induction false} SettleKeepsInv(db: Db, h: nat, now: Stamp)
    requires Inv(db) && Later(db, now)
    requires forall i :: 0 <= i < |db.holdings| ==> db.holdings[i].account < |db.books.accounts|
    requires Settle(db, h, now).Done?
    ensures Inv(Settle(db, h, now).db)
  {
    hide BooksLaw, AccountsLaw, ReferenceLaw, GoalsLaw, RowsLaw, CashLaw, SalakLaw, PaidOnceLaw, HoldingsLaw, FeeLaw;
    var primary, interest := SettleGuards(db, h, now);
    SettlementIsCovered(db, h);
    SettledKeepsReferences(db, h, primary, interest, now);
    SettledKeepsGoals(db, h, primary, interest, now);
    SettledKeepsCash(db, h, primary, interest, now);
    SettledKeepsSalak(db, h, primary, interest, now);
    SettledKeepsHoldings(db, h, primary, interest, now);
  }

  // ---- the worker's bookkeeping

  /** Deferrals and failure records touch nothing any law speaks of. */
  lemma {:induction false} SameOwnersKeepFees(rows: seq<Row>, goals: seq<Goal>, goals': seq<Goal>)
    requires FeeLaw(rows, goals) && SameOwners(goals, goals')
    ensures FeeLaw(rows, goals')
  {}

  lemma {:induction false} SameSalakKeepsSalak(goals: seq<Goal>, goals': seq<Goal>, accounts: seq<Account>,
          rows: seq<Row>, holdings: seq<Holding>)
    requires SalakLaw(goals, accounts, rows, holdings) && |goals'| == |goals|
    requires forall i :: 0 <= i < |goals| ==> goals'[i].salak == goals[i].salak
    ensures SalakLaw(goals', accounts, rows, holdings)
  {}

  lemma {:induction false} SameOwnersKeepRows(rows: seq<Row>, goals: seq<Goal>, goals': seq<Goal>,
          holdings: seq<Holding>, clock: Stamp, now: Stamp)
    requires RowsLaw(rows, goals, holdings, clock) && SameOwners(goals, goals') && Instant(clock) <= Instant(now)
    ensures RowsLaw(rows, goals', holdings, now)
  {}

  /** Deferrals and failure records touch nothing any law speaks of. */
  lemma {:induction false} BookkeepingKeepsInv(db: Db, g: nat, goal: Goal, now: Stamp)
    requires Inv(db) && Later(db, now) && g < |db.goals|
    requires goal == db.goals[g].(deferredUntil := goal.deferredUntil, attempts := goal.attempts,
                                  lastError := goal.lastError, lastAttempt := goal.lastAttempt)
    ensures Inv(db.(goals := db.goals[g := goal], clock := now))
  {
    hide BooksLaw, AccountsLaw, ReferenceLaw, RowsLaw, CashLaw, SalakLaw, PaidOnceLaw, HoldingsLaw, FeeLaw;
    var goals' := db.goals[g := goal];
    assert GoalLaw(db.goals[g]);
    GoalUpdateKeepsGoals(db.goals, g, goal, db.books.accounts, db.books.accounts, db.products, db.clock, now);
    QuietKeepsCash(db.goals, goals', db.books.accounts, db.books.accounts, db.rows, db.rows);
    SameOwnersKeepFees(db.rows, db.goals, goals');
    SameOwnersKeepRows(db.rows, db.goals, goals', db.holdings, db.clock, now);
    SameSalakKeepsSalak(db.goals, goals', db.books.accounts, db.rows, db.holdings);
  }
}
