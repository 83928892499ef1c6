/** What each accepted call changes, row by row, in amounts a customer could
    check: every balance, every goal, every log, and nothing besides. */
module Effects {
  import opened Outcomes
  import opened Calendar
  import opened Database
  import opened Steps
  import opened Laws
  import opened StepsKept
  import opened Worker
  import opened Runs
  import Answers
  import Fees
  import Tickets

  /** One line of the ledger: the amount, and the side it is on. */
  datatype Line = Line(account: nat, debit: bool, amount: int, refType: RefType, holding: Option<nat>)

  /** What the lines add to account `a`. */
  function Added(lines: seq<Line>, a: nat): int {
    if lines == [] then 0 else Added(lines[..|lines| - 1], a) + On(lines[|lines| - 1], a)
  }

  function On(l: Line, a: nat): int {
    if l.account != a then 0 else if l.debit then -l.amount else l.amount
  }

  /** The ledger has exactly these new lines, under one reference not used
      before, and every balance has moved by its own. */
  ghost predicate Posted(before: Books, after: Books, ref: nat, lines: seq<Line>, now: Stamp) {
    && before.ledger <= after.ledger && |after.ledger| == |before.ledger| + |lines|
    && (forall k :: 0 <= k < |lines| ==>
          var e := after.ledger[|before.ledger| + k];
          && Line(e.account, e.debit, e.amount, e.refType, e.holding) == lines[k]
          && e.ref == ref && e.createdAt == now)
    && |after.accounts| == |before.accounts|
    && (forall a: nat :: a < |before.accounts| ==>
          after.accounts[a] == before.accounts[a].(balance := before.accounts[a].balance + Added(lines, a)))
  }

  /** The call added this row to the log of kapook transactions, under an id not
      used before, and ids go on after it. */
  ghost predicate Row1(db: Db, db': Db, row: Row, now: Stamp) {
    && |db'.rows| == |db.rows| + 1 && db.rows <= db'.rows
    && db.nextId <= db'.rows[|db.rows|].id < db'.nextId
    && db'.rows[|db.rows|] == row.(id := db'.rows[|db.rows|].id, createdAt := now)
  }

  /** Goal `g` alone is another. */
  ghost predicate Goal1(db: Db, db': Db, g: nat, goal: Goal) {
    && |db'.goals| == |db.goals| && g < |db.goals| && db'.goals[g] == goal
    && forall i :: 0 <= i < |db.goals| && i != g ==> db'.goals[i] == db.goals[i]
  }

  predicate SameSales(db: Db, db': Db) {
    db'.holdings == db.holdings && db'.cursors == db.cursors
  }

  predicate SameCatalogue(db: Db, db': Db) {
    db'.products == db.products && db'.accepted == db.accepted
  }

  lemma {:induction false} AddedSnoc(lines: seq<Line>, l: Line, a: nat)
    ensures Added(lines + [l], a) == Added(lines, a) + On(l, a)
  {
    assert (lines + [l])[..|lines|] == lines;
  }

  lemma {:induction false} Added2(x: Line, y: Line, a: nat)
    ensures Added([x, y], a) == On(x, a) + On(y, a)
  {
    AddedSnoc([], x, a);
    AddedSnoc([x], y, a);
    assert [] + [x] == [x] && [x] + [y] == [x, y];
  }

  lemma {:induction false} TransferPosts(db: Db, db': Db, from: nat, to: nat, out: int, into: int, refType: RefType,
                                            holding: Option<nat>, now: Stamp)
    requires from < |db.books.accounts| && to < |db.books.accounts| && from != to
    requires db'.books == Transfer(db.books, from, to, out, into, refType, db.nextId, holding, now)
    ensures Posted(db.books, db'.books, db.nextId,
            [Line(from, true, out, refType, holding), Line(to, false, into, refType, holding)], now)
  {
    var x, y := Line(from, true, out, refType, holding), Line(to, false, into, refType, holding);
    forall a: nat | a < |db.books.accounts|
      ensures db'.books.accounts[a] ==
              db.books.accounts[a].(balance := db.books.accounts[a].balance + Added([x, y], a))
    {
      Added2(x, y, a);
    }
  }

  /** A deposit moves its amount from the savings account into the kapook account
      and the goal; the one that reaches the target stamps it. */
  ghost predicate DepositDone(db: Db, after: Db, kapook: nat, savings: nat, g: nat, amount: int, now: Stamp) {
    && Answers.OpenOn(db, g, kapook) && after.clock == now && SameSales(db, after) && SameCatalogue(db, after)
    && Posted(db.books, after.books, db.nextId, [Line(savings, true, amount, KapookTransaction, None),
                          Line(kapook, false, amount, KapookTransaction, None)], now)
    && Goal1(db, after, g, db.goals[g].(saving := db.goals[g].saving + amount,
                                        reachedAt := if db.goals[g].saving + amount == db.goals[g].target
                                                     then Some(now) else None))
    && Row1(db, after, Row(0, DepositRow, amount, kapook, g, Some(savings), None, None, now), now)
    && after.rows[|db.rows|].id == db.nextId
  }

  lemma {:induction false} DepositMoves(db: Db, user: nat, kapook: nat, savings: nat, amount: int, now: Stamp)
    requires Inv(db) && Deposit(db, user, kapook, savings, amount, now).Done?
    ensures var r := Deposit(db, user, kapook, savings, amount, now);
            DepositDone(db, r.db, kapook, savings, r.value, amount, now)
  {
    hide BooksLaw, AccountsLaw, ReferenceLaw, RowsLaw, CashLaw, SalakLaw, PaidOnceLaw, HoldingsLaw, FeeLaw, Posted;
    var r := Deposit(db, user, kapook, savings, amount, now);
    assert GoalLaw(db.goals[r.value]);
    TransferPosts(db, r.db, savings, kapook, amount, amount, KapookTransaction, None, now);
  }

  /** The withdrawals of a goal in its anniversary window around `now`. */
  function EarlierOnes(db: Db, g: nat, now: Stamp): set<nat>
    requires g < |db.goals|
  {
    var w := Window(db.goals[g].createdAt, now);
    set j: nat | j < |db.rows| && db.rows[j].goal == g && db.rows[j].kind in {WithdrawRow, WithdrawWithFeeRow} &&
                 Instant(w.0) <= Instant(db.rows[j].createdAt) < Instant(w.1) :: j
  }

  function CountedRows(rows: seq<Row>, g: nat, from: Stamp, to: Stamp): set<nat> {
    set j: nat | j < |rows| && Counted(rows[j], g, from, to) :: j
  }

  lemma {:induction false} CountIsSize(rows: seq<Row>, g: nat, from: Stamp, to: Stamp)
    ensures CountWithdrawals(rows, g, from, to) == |CountedRows(rows, g, from, to)|
  {
    hide Counted;
    if rows == [] {
      assert CountedRows(rows, g, from, to) == {};
    } else {
      CountIsSize(rows[..|rows| - 1], g, from, to);
      CountedSnoc(rows, g, from, to);
    }
  }

  lemma {:induction false} CountedSnoc(rows: seq<Row>, g: nat, from: Stamp, to: Stamp)
    requires rows != []
    ensures var n: nat := |rows| - 1;
            var earlier := CountedRows(rows[..n], g, from, to);
            && n !in earlier
            && CountedRows(rows, g, from, to) == if Counted(rows[n], g, from, to) then earlier + {n} else earlier
  {
    hide Counted;
  }

  /** The charge of an amount: nothing for the first two of a window, two percent
      to the nearest satang, a half going up, for the others. */
  predicate Charge(earlier: nat, amount: int, fee: int) {
    if earlier < 2 then fee == 0 else -25 < 50 * fee - amount <= 25
  }

  /** A withdrawal takes its amount out of the kapook account and the goal, keeps
      the charge, and pays the rest into the primary account; a reached goal
      closes with it. */
  ghost predicate WithdrawDone(db: Db, after: Db, kapook: nat, primary: nat, amount: int, w: Withdrawal, now: Stamp) {
    && Answers.OpenOn(db, w.goal, kapook) && after.clock == now && SameSales(db, after) && SameCatalogue(db, after)
    && Charge(|EarlierOnes(db, w.goal, now)|, amount, w.fee) && w.net == amount - w.fee
    && (w.charged <==> |EarlierOnes(db, w.goal, now)| >= 2)
    && (w.closed <==> db.goals[w.goal].reachedAt.Some?)
    && Posted(db.books, after.books, db.nextId, [Line(kapook, true, amount, KapookTransaction, None),
                          Line(primary, false, amount - w.fee, KapookTransaction, None)], now)
    && Goal1(db, after, w.goal, db.goals[w.goal].(saving := db.goals[w.goal].saving - amount, active := !w.closed))
    && Row1(db, after, Row(0, if w.charged then WithdrawWithFeeRow else WithdrawRow, amount, kapook, w.goal,
                           Some(primary), None, None, now), now)
    && after.rows[|db.rows|].id == db.nextId
  }

  lemma {:induction false} ChargeIsDue(db: Db, g: nat, amount: int, now: Stamp)
    requires g < |db.goals| && amount > 0
    ensures FeeDue(db, g, now) <==> |EarlierOnes(db, g, now)| >= 2
    ensures Charge(|EarlierOnes(db, g, now)|, amount, Fees.ComputeWithdrawalFee(amount, FeeDue(db, g, now)).0)
  {
    hide Window, Instant;
    var w := Window(db.goals[g].createdAt, now);
    CountIsSize(db.rows, g, w.0, w.1);
    assert EarlierOnes(db, g, now) == CountedRows(db.rows, g, w.0, w.1);
    Fees.FeeIsNearest(amount);
  }

  lemma {:induction false} WithdrawMoves(db: Db, user: nat, kapook: nat, amount: int, now: Stamp)
    requires Inv(db) && Withdraw(db, user, kapook, amount, now).Done?
    ensures Primary(db.books.accounts, user).Some?
    ensures var r := Withdraw(db, user, kapook, amount, now);
            WithdrawDone(db, r.db, kapook, Primary(db.books.accounts, user).value, amount, r.value, now)
  {
    hide BooksLaw, ReferenceLaw, RowsLaw, CashLaw, SalakLaw, PaidOnceLaw, HoldingsLaw, FeeLaw, GoalsLaw;
    hide Posted, Transfer, FeeDue, EarlierOnes, Charge, Fees.ComputeWithdrawalFee;
    var r := Withdraw(db, user, kapook, amount, now);
    ChargeIsDue(db, r.value.goal, amount, now);
    var primary := Primary(db.books.accounts, user).value;
    assert primary != kapook;
    TransferPosts(db, r.db, kapook, primary, amount, r.value.net, KapookTransaction, None, now);
  }

  /** The tickets that were sold: as many as the amount buys, dated today, of one
      letter, and next in line. */
  ghost predicate Sale(db: Db, db': Db, salak: nat, product: nat, amount: int, now: Stamp) {
    && |db'.holdings| == |db.holdings| + 1 && db.holdings <= db'.holdings && product < |db.cursors|
    && var h := db'.holdings[|db.holdings|];
       && h.account == salak && h.product == product && h.amount == amount && h.settledAt.None?
       && h.purchasedOn == Day(now) && Answers.Buys(db, product, amount, h.units)
       && h.units == h.end - h.start + 1
       && |db'.cursors| == |db.cursors| && (forall p :: 0 <= p < |db.cursors| && p != product ==>
             db'.cursors[p] == db.cursors[p])
       && Tickets.Reserve(db.cursors[product], h.units) ==
          Success((Tickets.Grant(h.letter, h.start, h.end), db'.cursors[product]))
  }

  lemma {:induction false} PurchaseMoves(db: Db, funding: nat, salak: nat, product: nat, amount: int, now: Stamp)
    requires Tables(db) && product < |db.products| && Tickets.ValidCursor(db.cursors[product])
    requires funding < |db.books.accounts| && salak < |db.books.accounts| && funding != salak
    requires Purchase(db, funding, salak, product, amount, now).Done?
    ensures var after := Purchase(db, funding, salak, product, amount, now).db;
            && Purchase(db, funding, salak, product, amount, now).value == |db.holdings|
            && Sale(db, after, salak, product, amount, now)
            && Posted(db.books, after.books, db.nextId, [Line(funding, true, amount, BuySalakRef, Some(|db.holdings|)),
                                  Line(salak, false, amount, BuySalakRef, Some(|db.holdings|))], now)
            && after.goals == db.goals && after.rows == db.rows && SameCatalogue(db, after) && after.clock == now
            && after.nextId == db.nextId + 1
  {
    hide Transfer, Posted;
    var after := Purchase(db, funding, salak, product, amount, now).db;
    Answers.SalesArithmetic(db, product, amount);
    TransferPosts(db, after, funding, salak, amount, amount, BuySalakRef, Some(|db.holdings|),
        now);
  }

  lemma {:induction false} BuySalakMoves(db: Db, user: nat, funding: nat, salak: nat, product: nat, amount: int,
          now: Stamp)
    requires Tables(db) && Inv(db) && BuySalak(db, user, funding, salak, product, amount, now).Done?
    ensures var r := BuySalak(db, user, funding, salak, product, amount, now);
            && r.value == |db.holdings| && Sale(db, r.db, salak, product, amount, now)
            && Posted(db.books, r.db.books, db.nextId, [Line(funding, true, amount, BuySalakRef, Some(|db.holdings|)),
                                 Line(salak, false, amount, BuySalakRef, Some(|db.holdings|))], now)
            && r.db.goals == db.goals && r.db.rows == db.rows && SameCatalogue(db, r.db) && r.db.clock == now
  {
    hide Inv, Purchase, Sale, Posted;
    Answers.HoldingsHaveCursors(db, product);
    PurchaseMoves(db, funding, salak, product, amount, now);
  }

  /** A purchase from a goal is a sale paid by its kapook account; what the goal
      has in tickets grows by the amount, which closes it at the target, and its
      retry date and failure streak are cleared. */
  ghost predicate BuyFromGoalDone(db: Db, after: Db, kapook: nat, salak: nat, amount: int, automatic: bool, b: Bought,
          now: Stamp) {
    && Answers.OpenOn(db, b.goal, kapook) && b.holding == |db.holdings|
    && Sale(db, after, salak, db.goals[b.goal].product, amount, now)
    && Posted(db.books, after.books, db.nextId, [Line(kapook, true, amount, BuySalakRef, Some(b.holding)),
                          Line(salak, false, amount, BuySalakRef, Some(b.holding))], now)
    && (b.completed <==> db.goals[b.goal].salak + amount == db.goals[b.goal].target)
    && Goal1(db, after, b.goal, db.goals[b.goal].(salak := db.goals[b.goal].salak + amount, active := !b.completed,
                                                  deferredUntil := None, attempts := 0, lastError := None,
                                                  lastAttempt := None))
    && Row1(db, after, Row(0, BuySalakRow, amount, kapook, b.goal, None, Some(b.holding), Some(automatic), now), now)
    && SameCatalogue(db, after) && after.clock == now
  }

  lemma {:induction false} BuyFromGoalMoves(db: Db, user: nat, kapook: nat, salak: nat, amount: int, automatic: bool,
          now: Stamp)
    requires Tables(db) && Inv(db) && BuyFromGoal(db, user, kapook, salak, amount, automatic, now).Done?
    ensures var r := BuyFromGoal(db, user, kapook, salak, amount, automatic, now);
            BuyFromGoalDone(db, r.db, kapook, salak, amount, automatic, r.value, now)
  {
    hide BooksLaw, AccountsLaw, ReferenceLaw, RowsLaw, CashLaw, SalakLaw, PaidOnceLaw, HoldingsLaw, FeeLaw;
    hide Purchase, Sale, Posted;
    var r := BuyFromGoal(db, user, kapook, salak, amount, automatic, now);
    var product := db.goals[r.value.goal].product;
    assert GoalLaw(db.goals[r.value.goal]);
    Answers.HoldingsHaveCursors(db, product);
    PurchaseMoves(db, kapook, salak, product, amount, now);
    var paid := Purchase(db, kapook, salak, product, amount, now).db;
    SaleGoesOn(db, paid, r.db, kapook, salak, product, amount, now);
  }

  /** What a sale did to books and holdings is still so after the goal's part. */
  lemma {:induction false} SaleGoesOn(db: Db, paid: Db, after: Db, funding: nat, salak: nat, product: nat, amount: int,
          now: Stamp)
    requires Sale(db, paid, salak, product, amount, now)
    requires after.holdings == paid.holdings && after.cursors == paid.cursors
    ensures Sale(db, after, salak, product, amount, now)
  {}

  /** A new goal starts open, with nothing saved. */
  lemma {:induction false} CreateGoalMoves(db: Db, user: nat, account: nat, product: nat, target: int, now: Stamp)
    requires Tables(db) && CreateGoal(db, user, account, product, target, now).Done?
    ensures var r := CreateGoal(db, user, account, product, target, now);
            && r.value == |db.goals| && |r.db.goals| == |db.goals| + 1
            && r.db.goals[r.value] == Goal(account, product, target, 0, 0, true, None, None, 0, None, None, now)
            && r.db == db.(goals := r.db.goals, clock := now) && db.goals <= r.db.goals
  {}

  /** A settlement pays the holding's amount and its interest, to the nearest
      satang, a half going up, from the salak account and from the bank to the
      primary account; a goal that bought the holding has that much less in
      tickets. */
  ghost predicate SettleDone(db: Db, after: Db, h: nat, s: Settlement, now: Stamp) {
    && h < |db.holdings| && db.holdings[h].product < |db.products| && after.clock == now
    && after.holdings == db.holdings[h := db.holdings[h].(settledAt := Some(now))] && after.cursors == db.cursors
    && s.principal == db.holdings[h].amount && SameCatalogue(db, after)
    && -50 < 100 * s.interest - db.products[db.holdings[h].product].interest * db.holdings[h].units <= 50
    && db.holdings[h].account < |db.books.accounts|
    && Primary(db.books.accounts, db.books.accounts[db.holdings[h].account].user) == Some(s.primary)
    && Posted(db.books, after.books, db.nextId,
       [Line(db.holdings[h].account, true, s.principal, SalakMaturity, Some(h)),
                          Line(s.primary, false, s.principal, SalakMaturity, Some(h)),
                          Line(s.primary, false, s.interest, SalakMaturityInterest, Some(h))], now)
    && GoalSettled(db, after, h, s.principal, now)
  }

  ghost predicate GoalSettled(db: Db, after: Db, h: nat, principal: int, now: Stamp) {
    || ((forall j :: 0 <= j < |db.rows| ==> !(db.rows[j].kind == BuySalakRow && db.rows[j].holding == Some(h)))
        && after.goals == db.goals && after.rows == db.rows)
    || exists j: nat :: BoughtBy(db, after, h, j, principal, now)
  }

  ghost predicate BoughtBy(db: Db, after: Db, h: nat, j: nat, principal: int, now: Stamp) {
    && j < |db.rows| && db.rows[j].kind == BuySalakRow && db.rows[j].holding == Some(h)
    && db.rows[j].goal < |db.goals|
    && Goal1(db, after, db.rows[j].goal,
             db.goals[db.rows[j].goal].(salak := db.goals[db.rows[j].goal].salak - principal))
    && Row1(db, after, Row(0, SalakExpirationRow, principal, db.rows[j].account, db.rows[j].goal, None, Some(h), None,
                           now), now)
  }

  lemma {:induction false} Added3(x: Line, y: Line, z: Line, a: nat)
    ensures Added([x, y, z], a) == On(x, a) + On(y, a) + On(z, a)
  {
    Added2(x, y, a);
    AddedSnoc([x, y], z, a);
    assert [x, y] + [z] == [x, y, z];
  }

  lemma {:induction false} PaidPosts(db: Db, h: nat, primary: nat, interest: int, now: Stamp)
    requires h < |db.holdings| && db.holdings[h].account < |db.books.accounts| && primary < |db.books.accounts|
    requires db.holdings[h].account != primary
    ensures Posted(db.books, Paid(db, h, primary, interest, now).books, db.nextId,
                   [Line(db.holdings[h].account, true, db.holdings[h].amount, SalakMaturity, Some(h)),
                    Line(primary, false, db.holdings[h].amount, SalakMaturity, Some(h)),
                    Line(primary, false, interest, SalakMaturityInterest, Some(h))], now)
  {
    var after := Paid(db, h, primary, interest, now);
    var x := Line(db.holdings[h].account, true, db.holdings[h].amount, SalakMaturity, Some(h));
    var y := Line(primary, false, db.holdings[h].amount, SalakMaturity, Some(h));
    var z := Line(primary, false, interest, SalakMaturityInterest, Some(h));
    forall a: nat | a < |db.books.accounts|
      ensures after.books.accounts[a] ==
              db.books.accounts[a].(balance := db.books.accounts[a].balance + Added([x, y, z], a))
    {
      Added3(x, y, z, a);
    }
  }

  lemma {:induction false} SettleMoves(db: Db, h: nat, now: Stamp)
    requires Inv(db)
    requires (forall i :: 0 <= i < |db.holdings| ==> db.holdings[i].account < |db.books.accounts|)
             && (forall j :: 0 <= j < |db.rows| ==> db.rows[j].goal < |db.goals|)
    requires Settle(db, h, now).Done?
    ensures SettleDone(db, Settle(db, h, now).db, h, Settle(db, h, now).value, now)
  {
    hide BooksLaw, ReferenceLaw, GoalsLaw, RowsLaw, CashLaw, SalakLaw, PaidOnceLaw, FeeLaw, Posted, Paid;
    var s, after := Settle(db, h, now).value, Settle(db, h, now).db;
    var paid := Paid(db, h, s.primary, s.interest, now);
    assert HoldingLaw(db.holdings[h], db.books.accounts, db.cursors);
    PaidPosts(db, h, s.primary, s.interest, now);
    PaidLeaves(db, h, s.primary, s.interest, now);
    ExpiredIsSettled(db, paid, after, h, now);
  }

  lemma {:induction false} PaidLeaves(db: Db, h: nat, primary: nat, interest: int, now: Stamp)
    requires h < |db.holdings| && db.holdings[h].account < |db.books.accounts| && primary < |db.books.accounts|
    ensures var paid := Paid(db, h, primary, interest, now);
            && paid.goals == db.goals && paid.rows == db.rows && paid.cursors == db.cursors && SameCatalogue(db, paid)
            && paid.holdings == db.holdings[h := db.holdings[h].(settledAt := Some(now))] && paid.clock == now
            && paid.nextId == db.nextId + 1
  {}

  lemma {:induction false} ExpiredIsSettled(db: Db, paid: Db, after: Db, h: nat, now: Stamp)
    requires h < |db.holdings| && (forall j :: 0 <= j < |db.rows| ==> db.rows[j].goal < |db.goals|)
    requires paid.goals == db.goals && paid.rows == db.rows && paid.nextId == db.nextId + 1 && paid.clock == now
    requires paid.holdings == db.holdings[h := db.holdings[h].(settledAt := Some(now))]
    requires after == Expired(paid, h, now)
    ensures GoalSettled(db, after, h, db.holdings[h].amount, now) && after.books == paid.books
    ensures after.holdings == paid.holdings && after.cursors == paid.cursors && SameCatalogue(paid, after)
    ensures after.clock == now
  {
    var found := BuyRow(db.rows, h);
    if found.Some? {
      assert BoughtBy(db, after, h, found.value, db.holdings[h].amount, now);
    }
  }

  /** The calls that move no money change the one table they name. */
  lemma {:induction false} CatalogueMoves(db: Db, user: nat, kind: Kind, opening: int, primary: bool, p: Product,
          product: nat, now: Stamp)
    ensures var r := OpenAccount(db, user, kind, opening, primary, now);
            r.Done? ==> r.value == |db.books.accounts| && r.db == db.(clock := now, books := db.books.(accounts :=
                                    db.books.accounts + [Account(user, kind, opening, opening, primary)]))
    ensures var r := AddProduct(db, p, now);
            r.Done? ==> r.value == |db.products| &&
                        r.db == db.(clock := now, products := db.products + [p],
                                    cursors := db.cursors + [Tickets.Cursor(0x0E01, 0)])
    ensures var r := ReviseProduct(db, product, p, now);
            r.Done? ==> product < |db.products| && r.db == db.(clock := now, products := db.products[product := p])
    ensures AcceptTerms(db, user, now) == Done(db.(clock := now, accepted := db.accepted + {user}), ())
  {}

  // ---- every sale of a run

  /** The holding is of a product on sale, for an amount its terms allow, on a day
      without a draw, which is today. */
  ghost predicate ByTheRules(products: seq<Product>, h: Holding, now: Stamp) {
    && h.product < |products| && h.purchasedOn == Day(now) && h.settledAt.None?
    && var p := products[h.product];
       && p.active && p.minPurchase <= h.amount <= p.maxPurchase && p.step != 0 && h.amount % p.step == 0
       && Day(now) !in p.drawDays
       && h.units * p.unitPrice <= h.amount < (h.units + 1) * p.unitPrice
  }

  ghost predicate SellsByTheRules(db: Db, db': Db, now: Stamp) {
    |db.holdings| <= |db'.holdings| &&
    forall h :: |db.holdings| <= h < |db'.holdings| ==> ByTheRules(db.products, db'.holdings[h], now)
  }

  lemma {:induction false} SaleIsByTheRules(db: Db, after: Db, salak: nat, product: nat, amount: int, now: Stamp)
    requires Sale(db, after, salak, product, amount, now) && product < |db.products|
    requires db.products[product].active && ProductTerms(db.products[product])
    requires ValidAmount(db.products[product], amount) && Day(now) !in db.products[product].drawDays
    ensures SellsByTheRules(db, after, now)
  {}

  lemma {:induction false} BuySalakSells(db: Db, user: nat, funding: nat, salak: nat, product: nat, amount: int,
          now: Stamp)
    requires Tables(db) && Inv(db) && BuySalak(db, user, funding, salak, product, amount, now).Done?
    ensures SellsByTheRules(db, BuySalak(db, user, funding, salak, product, amount, now).db, now)
  {
    hide Inv, Sale, Posted, Purchase, SellsByTheRules;
    BuySalakMoves(db, user, funding, salak, product, amount, now);
    SaleIsByTheRules(db, BuySalak(db, user, funding, salak, product, amount, now).db, salak, product, amount, now);
  }

  lemma {:induction false} BuyFromGoalSells(db: Db, user: nat, kapook: nat, salak: nat, amount: int, automatic: bool,
          now: Stamp)
    requires Tables(db) && Inv(db) && BuyFromGoal(db, user, kapook, salak, amount, automatic, now).Done?
    ensures SellsByTheRules(db, BuyFromGoal(db, user, kapook, salak, amount, automatic, now).db, now)
  {
    hide Inv, Sale, Posted, Purchase, SellsByTheRules, Converted;
    var r := BuyFromGoal(db, user, kapook, salak, amount, automatic, now);
    BuyFromGoalMoves(db, user, kapook, salak, amount, automatic, now);
    SaleIsByTheRules(db, r.db, salak, db.goals[r.value.goal].product, amount, now);
  }

  lemma {:induction false} ProcessSells(mid: Db, g: nat, claimed: Goal, now: Stamp)
    requires Tables(mid) && Inv(mid) && g < |mid.goals| && claimed.account < |mid.books.accounts|
    ensures SellsByTheRules(mid, ProcessGoal(mid, g, claimed, now).0, now)
  {
    hide Inv, BuyFromGoal, ByTheRules;
    var user := mid.books.accounts[claimed.account].user;
    if ProcessGoal(mid, g, claimed, now).1 == Attempt.Purchased {
      BuyFromGoalSells(mid, user, claimed.account, FirstSalak(mid.books.accounts, user).value, claimed.Available(),
          true, now);
    } else {
      BookkeepingOnly(mid, g, claimed, now);
    }
  }

  lemma {:induction false} SalesAddUp(a: Db, b: Db, c: Db, now: Stamp)
    requires SellsByTheRules(a, b, now) && SellsByTheRules(b, c, now) && b.products == a.products
    requires b.holdings <= c.holdings
    ensures SellsByTheRules(a, c, now)
  {
    hide ByTheRules;
    forall h | |a.holdings| <= h < |c.holdings| ensures ByTheRules(a.products, c.holdings[h], now) {
      assert h < |b.holdings| ==> c.holdings[h] == b.holdings[h];
    }
  }

  lemma {:induction false} ProcessAddsHoldings(mid: Db, g: nat, claimed: Goal, now: Stamp)
    requires Tables(mid) && g < |mid.goals| && claimed.account < |mid.books.accounts|
    ensures mid.holdings <= ProcessGoal(mid, g, claimed, now).0.holdings
  {
    hide Transfer, Mint;
  }

  lemma {:induction false} PassSells(db: Db, claim: seq<int>, now: Stamp)
    requires Tables(db) && Claimable(db, claim) && Inv(db) && Later(db, now) && Claimed(db.goals, claim)
    ensures SellsByTheRules(db, Pass(db, claim, now).0, now)
  {
    hide Inv, ProcessGoal, SellsByTheRules;
    if claim == [] {
      NoSale(db, now);
    } else {
      var n := |claim| - 1;
      var mid := Pass(db, claim[..n], now).0;
      PassSells(db, claim[..n], now);
      PassMidway(db, claim[..n], now);
      ProcessSells(mid, claim[n], db.goals[claim[n]], now);
      ProcessAddsHoldings(mid, claim[n], db.goals[claim[n]], now);
      SalesAddUp(db, mid, Pass(db, claim, now).0, now);
    }
  }

  lemma {:induction false} NoSale(db: Db, now: Stamp)
    ensures SellsByTheRules(db, db, now)
  {}

  lemma {:induction false} OtherCallSellsNothing(db: Db, op: Op, now: Stamp)
    requires Ready(db) && !op.OpBuySalak? && !op.OpBuyFromGoal? && !op.OpWorkerPass?
    ensures SellsByTheRules(db, Apply(db, op, now), now)
  {
    hide Transfer, Post, Mint, ByTheRules;
  }

  lemma {:induction false} ApplySells(db: Db, op: Op, now: Stamp)
    requires Ready(db) && Inv(db) && Later(db, now)
    ensures SellsByTheRules(db, Apply(db, op, now), now)
  {
    hide Inv, Pass, SellsByTheRules, BuySalak, BuyFromGoal, IsClaim;
    NoSale(db, now);
    if Apply(db, op, now) != db {
      match op
      case OpBuySalak(user, funding, salak, product, amount) =>
        BuySalakSells(db, user, funding, salak, product, amount, now);
      case OpBuyFromGoal(user, kapook, salak, amount) =>
        BuyFromGoalSells(db, user, kapook, salak, amount, false, now);
      case OpWorkerPass(claim, countdown) =>
        ClaimIsClaimed(db.goals, now, countdown, {}, CLAIM_LIMIT, claim);
        PassSells(db, claim, now);
      case _ => OtherCallSellsNothing(db, op, now);
    }
  }

  /** Whatever a call of a run mints, a customer's or the worker's, it sells under
      the terms of its product at that call, and never on a draw day. */
  lemma {:induction false} RunSellsByTheRules(states: seq<Db>, events: seq<Event>, i: nat)
    requires IsRun(states, events) && Inv(states[0]) && i < |events|
    ensures SellsByTheRules(states[i], states[i + 1], events[i].now)
  {
    hide Inv, Apply, Ready, SellsByTheRules;
    RunKeepsInv(states, events, i);
    ApplySells(states[i], events[i].op, events[i].now);
  }
}
