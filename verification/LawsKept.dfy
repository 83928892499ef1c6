/** How each law survives each kind of write. */
module LawsKept {
  import opened Outcomes
  import opened Calendar
  import opened Sums
  import opened Database
  import opened Steps
  import opened Laws
  import Tickets

  // ---- the books

  lemma {:induction false} PostKeepsExplained(b: Books, a: nat, debit: bool, amount: int, refType: RefType, ref: nat,
                                              holding: Option<nat>, now: Stamp)
    requires Explained(b) && a < |b.accounts| && (debit ==> amount <= b.accounts[a].balance) && amount > 0
    ensures Explained(Post(b, a, debit, amount, refType, ref, holding, now))
  {}

  lemma {:induction false} PostKeepsShown(b: Books, a: nat, debit: bool, amount: int, refType: RefType, ref: nat,
                                          holding: Option<nat>, now: Stamp)
    requires Explained(b) && Shown(b) && a < |b.accounts| && amount > 0
    ensures Shown(Post(b, a, debit, amount, refType, ref, holding, now))
  {
    var b' := Post(b, a, debit, amount, refType, ref, holding, now);
    var n := |b.ledger|;
    forall i | 0 <= i <= n
      ensures b'.ledger[i].account < |b'.accounts| && b'.ledger[i].amount > 0
      ensures b'.ledger[i].balanceAfter ==
              b'.accounts[b'.ledger[i].account].opening + Sum(b'.ledger[..i + 1], SignedFor(b'.ledger[i].account))
    {
      if i < n {
        assert b'.ledger[i] == b.ledger[i] && b'.ledger[..i + 1] == b.ledger[..i + 1];
      } else {
        assert b'.ledger[..n + 1] == b'.ledger;
        SumSnoc(b.ledger, b'.ledger[n], SignedFor(a));
      }
    }
  }

  /** A post leaves every balance explained by its ledger, provided a debit is
      covered. */
  lemma {:induction false} PostKeepsBooks(b: Books, a: nat, debit: bool, amount: int, refType: RefType, ref: nat,
                                          holding: Option<nat>, now: Stamp)
    requires BooksLaw(b) && a < |b.accounts| && amount > 0
    requires debit ==> amount <= b.accounts[a].balance
    ensures BooksLaw(Post(b, a, debit, amount, refType, ref, holding, now))
  {
    hide Explained, Shown, Post;
    PostKeepsExplained(b, a, debit, amount, refType, ref, holding, now);
    PostKeepsShown(b, a, debit, amount, refType, ref, holding, now);
    PostKeepsTotal(b, a, debit, amount, refType, ref, holding, now);
  }

  lemma {:induction false} PostKeepsTotal(b: Books, a: nat, debit: bool, amount: int, refType: RefType, ref: nat,
                                          holding: Option<nat>, now: Stamp)
    requires a < |b.accounts|
    requires Sum(b.accounts, Balances()) == Sum(b.accounts, Openings()) + Sum(b.ledger, SignedAny())
    ensures var b' := Post(b, a, debit, amount, refType, ref, holding, now);
            Sum(b'.accounts, Balances()) == Sum(b'.accounts, Openings()) + Sum(b'.ledger, SignedAny())
  {
    hide Sum;
    var b' := Post(b, a, debit, amount, refType, ref, holding, now);
    SumUpdate(b.accounts, a, b'.accounts[a], Balances());
    SumUpdate(b.accounts, a, b'.accounts[a], Openings());
    SumSnoc(b.ledger, b'.ledger[|b.ledger|], SignedAny());
  }

  lemma {:induction false} PostsKeepAccounts(accounts: seq<Account>, accounts': seq<Account>)
    requires AccountsLaw(accounts) && SameHolders(accounts, accounts')
    ensures AccountsLaw(accounts')
  {}

  ghost predicate SameHolders(accounts: seq<Account>, accounts': seq<Account>) {
    && |accounts| == |accounts'|
    && forall a :: 0 <= a < |accounts| ==> accounts'[a] == accounts[a].(balance := accounts'[a].balance)
  }

  /** A group of entries and rows that balances under every reference. */
  ghost predicate Balanced(entries: seq<Entry>, rows: seq<Row>) {
    && (forall ref: nat :: Sum(entries, EntryGap(ref)) + Sum(rows, FeeOfRef(ref)) == 0)
    && Sum(entries, SignedAny()) == Sum(entries, InterestPaid()) - Sum(rows, FeesCharged())
  }

  lemma {:induction false} BalancedGroupKeepsReferences(ledger: seq<Entry>, rows: seq<Row>, nextId: nat,
                                     entries: seq<Entry>, added: seq<Row>, nextId': nat)
    requires ReferenceLaw(ledger, rows, nextId) && Balanced(entries, added) && nextId <= nextId'
    requires forall i :: 0 <= i < |entries| ==> entries[i].ref < nextId'
    requires forall i :: 0 <= i < |added| ==> added[i].id < nextId'
    ensures ReferenceLaw(ledger + entries, rows + added, nextId')
  {
    forall ref: nat ensures Sum(ledger + entries, EntryGap(ref)) + Sum(rows + added, FeeOfRef(ref)) == 0 {
      SumConcat(ledger, entries, EntryGap(ref));
      SumConcat(rows, added, FeeOfRef(ref));
    }
    SumConcat(ledger, entries, SignedAny());
    SumConcat(ledger, entries, InterestPaid());
    SumConcat(rows, added, FeesCharged());
  }

  /** A debit and a credit whose difference is the row's fee. */
  lemma {:induction false} PairBalances(d: Entry, c: Entry, r: Row)
    requires d.debit && !c.debit && d.ref == c.ref == r.id
    requires d.refType != SalakMaturityInterest && c.refType != SalakMaturityInterest
    requires d.amount == c.amount + RowFee(r)
    ensures Balanced([d, c], [r])
  {
    forall ref: nat ensures Sum([d, c], EntryGap(ref)) + Sum([r], FeeOfRef(ref)) == 0 {
      SumOf2(d, c, EntryGap(ref));
      SumOf1(r, FeeOfRef(ref));
    }
    SumOf2(d, c, SignedAny());
    SumOf2(d, c, InterestPaid());
    SumOf1(r, FeesCharged());
  }

  lemma {:induction false} EvenPairBalances(d: Entry, c: Entry)
    requires d.debit && !c.debit && d.ref == c.ref && d.amount == c.amount
    requires d.refType != SalakMaturityInterest && c.refType != SalakMaturityInterest
    ensures Balanced([d, c], [])
  {
    forall ref: nat ensures Sum([d, c], EntryGap(ref)) == 0 {
      SumOf2(d, c, EntryGap(ref));
    }
    SumOf2(d, c, SignedAny());
    SumOf2(d, c, InterestPaid());
  }

  lemma {:induction false} PayoutBalances(d: Entry, c: Entry, i: Entry)
    requires d.debit && !c.debit && !i.debit && d.ref == c.ref == i.ref && d.amount == c.amount
    requires d.refType == c.refType == SalakMaturity && i.refType == SalakMaturityInterest
    ensures Balanced([d, c, i], [])
  {
    forall ref: nat ensures Sum([d, c, i], EntryGap(ref)) == 0 {
      SumOf3(d, c, i, EntryGap(ref));
    }
    SumOf3(d, c, i, SignedAny());
    SumOf3(d, c, i, InterestPaid());
  }

  /** A row that charges no fee balances on its own. */
  lemma {:induction false} FreeRowBalances(r: Row)
    requires r.kind != WithdrawWithFeeRow
    ensures Balanced([], [r])
  {}

  lemma {:induction false} QuietEntriesKeepPaidOnce(ledger: seq<Entry>, holdings: seq<Holding>, entries: seq<Entry>)
    requires PaidOnceLaw(ledger, holdings)
    requires forall i :: 0 <= i < |entries| ==> entries[i].refType != SalakMaturity
    requires forall i :: 0 <= i < |entries| && entries[i].holding.Some? ==> entries[i].holding.value < |holdings|
    ensures PaidOnceLaw(ledger + entries, holdings)
  {
    forall h: nat | h < |holdings| ensures Sum(ledger + entries, PrincipalPaid(h)) == Sum(ledger, PrincipalPaid(h)) {
      SumConcat(ledger, entries, PrincipalPaid(h));
      SumZero(entries, PrincipalPaid(h));
    }
  }

  // ---- goals and their rows

  /** What no step changes about a goal. */
  ghost predicate SameOwners(goals: seq<Goal>, goals': seq<Goal>) {
    && |goals| == |goals'|
    && forall i :: 0 <= i < |goals| ==>
         && goals'[i].account == goals[i].account && goals'[i].product == goals[i].product
         && goals'[i].createdAt == goals[i].createdAt
  }

  lemma {:induction false} GoalUpdateKeepsGoals(goals: seq<Goal>, g: nat, goal: Goal, accounts: seq<Account>,
          accounts': seq<Account>,
                             products: seq<Product>, clock: Stamp, now: Stamp)
    requires GoalsLaw(goals, accounts, products, clock) && SameHolders(accounts, accounts')
    requires Instant(clock) <= Instant(now) && g < |goals| && GoalLaw(goal)
    requires goal.account == goals[g].account && goal.product == goals[g].product &&
             goal.createdAt == goals[g].createdAt
    requires goal.active ==> goals[g].active
    ensures GoalsLaw(goals[g := goal], accounts', products, now)
  {}

  lemma {:induction false} RowKeepsRows(rows: seq<Row>, goals: seq<Goal>, goals': seq<Goal>, holdings: seq<Holding>,
          clock: Stamp,
                     r: Row, now: Stamp)
    requires RowsLaw(rows, goals, holdings, clock) && SameOwners(goals, goals')
    requires Instant(clock) <= Instant(now) && r.createdAt == now
    requires r.goal < |goals| && r.account == goals[r.goal].account && r.amount > 0
    requires Instant(goals[r.goal].createdAt) <= Instant(clock)
    requires r.kind == BuySalakRow ==>
               && r.holding.Some? && r.holding.value < |holdings| && holdings[r.holding.value].amount == r.amount
               && holdings[r.holding.value].product == goals[r.goal].product
               && forall j :: 0 <= j < |rows| && rows[j].kind == BuySalakRow ==> rows[j].holding != r.holding
    ensures RowsLaw(rows + [r], goals', holdings, now)
  {}

  /** Counting looks only at the earlier rows and the goal's creation instant. */
  lemma {:induction false} RowKeepsFees(rows: seq<Row>, goals: seq<Goal>, goals': seq<Goal>, r: Row)
    requires FeeLaw(rows, goals) && SameOwners(goals, goals')
    requires r.goal < |goals|
    requires var w := Window(goals[r.goal].createdAt, r.createdAt);
             var used := CountWithdrawals(rows, r.goal, w.0, w.1);
             && (r.kind == WithdrawWithFeeRow ==> used >= FREE_WITHDRAWALS)
             && (r.kind == WithdrawRow ==> used < FREE_WITHDRAWALS)
    ensures FeeLaw(rows + [r], goals')
  {
    var n := |rows|;
    var rows' := rows + [r];
    assert rows'[..n] == rows;
    forall j: nat | j < n && rows'[j].goal < |goals'|
      ensures EarlierInWindow(rows', goals', j) == EarlierInWindow(rows, goals, j)
    {
      assert rows'[..j] == rows[..j];
    }
  }

  // ---- cash

  ghost predicate SameCash(accounts: seq<Account>, accounts': seq<Account>, but: nat) {
    && SameHolders(accounts, accounts')
    && forall a :: 0 <= a < |accounts| && accounts[a].kind == Kapook && a != but ==>
         accounts'[a].balance == accounts[a].balance
  }

  lemma {:induction false} ActiveGoalHolds(goals: seq<Goal>, accounts: seq<Account>, products: seq<Product>,
          clock: Stamp,
                                           rows: seq<Row>, g: nat)
    requires GoalsLaw(goals, accounts, products, clock) && CashLaw(goals, accounts, rows) && g < |goals| &&
             goals[g].active
    ensures GoalLaw(goals[g]) && goals[g].account < |accounts| && accounts[goals[g].account].kind == Kapook
    ensures accounts[goals[g].account].balance == goals[g].saving - Sum(rows, BoughtIn(g))
  {}

  ghost predicate SameBuys(rows: seq<Row>, rows': seq<Row>, but: int) {
    forall i: nat :: i != but ==> Sum(rows', BoughtIn(i)) == Sum(rows, BoughtIn(i))
  }

  lemma {:induction false} GoalUpdateKeepsEmpty(goals: seq<Goal>, g: nat, goal: Goal, accounts: seq<Account>,
          accounts': seq<Account>, a: nat)
    requires g < |goals| && goals[g].active && goal.account == goals[g].account
    requires SameCash(accounts, accounts', goal.account) && a < |accounts| && accounts[a].kind == Kapook
    requires ActiveGoal(goals, a).None? ==> accounts[a].balance == 0
    requires goal.account < |accounts| && (!goal.active ==> accounts'[goal.account].balance == 0)
    requires ActiveGoal(goals[g := goal], a).None?
    ensures accounts'[a].balance == 0
  {
    var goals' := goals[g := goal];
    if a == goal.account {
      assert !goals'[g].active;
    } else {
      forall i | 0 <= i < |goals| ensures !(goals[i].active && goals[i].account == a) {
        assert i != g ==> goals'[i] == goals[i];
      }
      assert ActiveGoal(goals, a).None?;
    }
  }

  /** A write to the active goal `g`, its account and its purchases keeps the
      cash law if it agrees with it on `g`. */
  lemma {:induction false} GoalUpdateKeepsCash(goals: seq<Goal>, g: nat, goal: Goal, accounts: seq<Account>,
          accounts': seq<Account>,
                            products: seq<Product>, clock: Stamp, rows: seq<Row>, rows': seq<Row>)
    requires GoalsLaw(goals, accounts, products, clock) && CashLaw(goals, accounts, rows)
    requires g < |goals| && goals[g].active && goal.account == goals[g].account
    requires SameCash(accounts, accounts', goal.account) && SameBuys(rows, rows', g)
    requires accounts'[goal.account].balance == goal.saving - Sum(rows', BoughtIn(g))
    requires !goal.active ==> accounts'[goal.account].balance == 0
    ensures CashLaw(goals[g := goal], accounts', rows')
  {
    var goals' := goals[g := goal];
    forall i: nat | i < |goals'| && goals'[i].active && goals'[i].account < |accounts'|
      ensures accounts'[goals'[i].account].balance == goals'[i].saving - Sum(rows', BoughtIn(i))
    {
      if i != g {
        assert goals[i].account != goals[g].account;
      }
    }
    forall a | 0 <= a < |accounts'| && accounts'[a].kind == Kapook && ActiveGoal(goals', a).None?
      ensures accounts'[a].balance == 0
    {
      GoalUpdateKeepsEmpty(goals, g, goal, accounts, accounts', a);
    }
  }

  /** A write that leaves savings, activity, purchases and kapook balances alone. */
  lemma {:induction false} QuietKeepsCash(goals: seq<Goal>, goals': seq<Goal>, accounts: seq<Account>,
          accounts': seq<Account>,
                       rows: seq<Row>, rows': seq<Row>)
    requires CashLaw(goals, accounts, rows) && SameHolders(accounts, accounts')
    requires SameBuys(rows, rows', -1) && |goals'| == |goals|
    requires forall i :: 0 <= i < |goals| ==>
               goals'[i].account == goals[i].account && goals'[i].active == goals[i].active &&
                   goals'[i].saving == goals[i].saving
    requires forall i :: 0 <= i < |goals| ==> goals[i].account < |accounts| && accounts[goals[i].account].kind == Kapook
    requires forall a :: 0 <= a < |accounts| && accounts[a].kind == Kapook ==>
             accounts'[a].balance == accounts[a].balance
    ensures CashLaw(goals', accounts', rows')
  {}

  lemma {:induction false} RowAddsBuys(rows: seq<Row>, r: Row, i: nat)
    ensures Sum(rows + [r], BoughtIn(i)) ==
            Sum(rows, BoughtIn(i)) + (if r.kind == BuySalakRow && r.goal == i then r.amount else 0)
    ensures Sum(rows + [r], ExpiredIn(i)) ==
            Sum(rows, ExpiredIn(i)) + (if r.kind == SalakExpirationRow && r.goal == i then r.amount else 0)
  {}

  lemma {:induction false} RowKeepsBuys(rows: seq<Row>, r: Row)
    ensures SameBuys(rows, rows + [r], if r.kind == BuySalakRow then r.goal else -1)
  {}

  /** All a goal bought is what is live plus what has expired. */
  lemma {:induction false} BoughtIsLivePlusExpired(goals: seq<Goal>, accounts: seq<Account>, rows: seq<Row>,
          holdings: seq<Holding>, g: nat)
    requires SalakLaw(goals, accounts, rows, holdings) && g < |goals|
    requires forall j :: 0 <= j < |rows| ==> rows[j].amount > 0
    ensures Sum(rows, BoughtIn(g)) == goals[g].salak + Sum(rows, ExpiredIn(g))
    ensures 0 <= Sum(rows, ExpiredIn(g))
  {
    SumSplit(rows, LiveIn(g, holdings), SettledIn(g, holdings), BoughtIn(g));
    SumNonNegative(rows, ExpiredIn(g));
  }

  // ---- salak

  /** Rows that neither buy nor expire do not touch the salak law. */
  lemma {:induction false} OtherRowKeepsSalak(goals: seq<Goal>, goals': seq<Goal>, accounts: seq<Account>,
          accounts': seq<Account>,
                           rows: seq<Row>, r: Row, holdings: seq<Holding>)
    requires SalakLaw(goals, accounts, rows, holdings) && SameHolders(accounts, accounts')
    requires |goals'| == |goals| && forall i :: 0 <= i < |goals| ==> goals'[i].salak == goals[i].salak
    requires forall a :: 0 <= a < |accounts| && accounts[a].kind == Salak ==>
             accounts'[a].balance == accounts[a].balance
    requires r.kind !in {BuySalakRow, SalakExpirationRow}
    ensures SalakLaw(goals', accounts', rows + [r], holdings)
  {}

  /** Minting raises its salak account by the new holding and no goal's salak. */
  lemma {:induction false} MintKeepsSalak(goals: seq<Goal>, accounts: seq<Account>, accounts': seq<Account>,
          rows: seq<Row>,
                       holdings: seq<Holding>, h: Holding, clock: Stamp)
    requires SalakLaw(goals, accounts, rows, holdings) && SameHolders(accounts, accounts')
    requires RowsLaw(rows, goals, holdings, clock)
    requires h.account < |accounts| && accounts[h.account].kind == Salak && h.settledAt.None?
    requires accounts'[h.account].balance == accounts[h.account].balance + h.amount
    requires forall a :: 0 <= a < |accounts| && accounts[a].kind == Salak && a != h.account ==>
               accounts'[a].balance == accounts[a].balance
    ensures SalakLaw(goals, accounts', rows, holdings + [h])
  {
    var holdings' := holdings + [h];
    forall g: nat | g < |goals|
      ensures Sum(rows, LiveIn(g, holdings')) == Sum(rows, LiveIn(g, holdings))
      ensures Sum(rows, SettledIn(g, holdings')) == Sum(rows, SettledIn(g, holdings))
    {
      SumExt(rows, LiveIn(g, holdings'), LiveIn(g, holdings));
      SumExt(rows, SettledIn(g, holdings'), SettledIn(g, holdings));
    }
    forall a: nat | a < |accounts'| && accounts'[a].kind == Salak
      ensures accounts'[a].balance == Sum(holdings', LiveOf(a))
    {
      SumSnoc(holdings, h, LiveOf(a));
    }
  }

  /** The buy row moves the goal's salak by the same amount. */
  lemma {:induction false} BuyRowKeepsSalak(goals: seq<Goal>, g: nat, goal: Goal, accounts: seq<Account>,
          rows: seq<Row>, r: Row,
                         holdings: seq<Holding>)
    requires SalakLaw(goals, accounts, rows, holdings)
    requires g < |goals| && r.kind == BuySalakRow && r.goal == g && !SettledRow(r, holdings)
    requires goal.salak == goals[g].salak + r.amount
    ensures SalakLaw(goals[g := goal], accounts, rows + [r], holdings)
  {}

  // ---- tickets

  /** The next range starts at or beyond the cursor, hence beyond every ticket
      sold, so the overlap constraint can never refuse it. */
  lemma {:induction false} MintedIsFresh(db: Db, salak: nat, product: nat, amount: int, now: Stamp)
    requires HoldingsLaw(db.holdings, db.books.accounts, db.products, db.cursors)
    requires product < |db.products| && salak < |db.books.accounts| && db.books.accounts[salak].kind == Salak &&
             amount > 0
    requires Mint(db, salak, product, amount, now).Success?
    ensures var (h, next) := Mint(db, salak, product, amount, now).value;
            && HoldingLaw(h, db.books.accounts, db.cursors[product := next]) && h.settledAt.None?
            && h.account == salak && h.amount == amount && h.product == product
            && Tickets.Place(db.cursors[product]) <= Tickets.Position(h.letter, h.start)
            && Tickets.ValidCursor(next) && Tickets.Place(db.cursors[product]) <= Tickets.Place(next)
            && forall i :: 0 <= i < |db.holdings| ==> Disjoint(db.holdings[i], h)
  {}

  lemma {:induction false} MintKeepsHoldings(holdings: seq<Holding>, accounts: seq<Account>, accounts': seq<Account>,
          products: seq<Product>,
                          cursors: seq<Tickets.Cursor>, h: Holding, next: Tickets.Cursor)
    requires HoldingsLaw(holdings, accounts, products, cursors) && SameHolders(accounts, accounts')
    requires h.product < |cursors| && HoldingLaw(h, accounts, cursors[h.product := next])
    requires Tickets.ValidCursor(next) && Tickets.Place(cursors[h.product]) <= Tickets.Place(next)
    requires forall i :: 0 <= i < |holdings| ==> Disjoint(holdings[i], h)
    ensures HoldingsLaw(holdings + [h], accounts', products, cursors[h.product := next])
  {}
}
