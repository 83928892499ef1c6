/** What a worker pass has written but not committed. Each attempt runs on the
    committed database as it is then, with the pass's own writes laid over it,
    and records the rows it wrote; the commit publishes those records, whatever
    others have committed in between. */
module Publishing {
  import opened Outcomes
  import opened Calendar
  import opened Database
  import opened Steps
  import opened Laws
  import opened LawsKept
  import opened StepsKept
  import opened PurchasesKept
  import opened Worker
  import opened LockOrder
  import Tickets

  /** The rows an attempt leaves: a purchase of all that is left of `goal`, under
      the terms it read and with the range and cursor it got; or the goal's row. */
  datatype Write =
    | Buys(goal: Goal, terms: Product, salak: nat, range: Tickets.Grant, next: Tickets.Cursor)
    | Keeps(row: Goal)

  predicate Fits(db: Db, w: Write) {
    w.Buys? ==> w.goal.product < |db.cursors| && w.goal.account < |db.books.accounts| && w.salak < |db.books.accounts|
  }

  function SoldHolding(w: Write, now: Stamp): Holding
    requires w.Buys?
  {
    Holding(w.salak, w.goal.product, Tickets.Units(w.range), w.range.letter, w.range.start, w.range.end,
            w.goal.Available(), Day(now), None)
  }

  function Publish1(db: Db, g: nat, w: Write, now: Stamp): Db
    requires g < |db.goals| && Fits(db, w)
  {
    match w
    case Keeps(row) => db.(goals := db.goals[g := row], clock := now)
    case Buys(goal, _, salak, _, next) =>
      var paid := Steps.Purchased(db, goal.account, salak, goal.product, goal.Available(), SoldHolding(w, now), next,
          now);
      Converted(paid, g, goal.account, goal.Available(), |db.holdings|, true, now)
  }

  predicate AllFit(db: Db, claim: seq<int>, writes: seq<Write>) {
    && |writes| <= |claim|
    && forall k :: 0 <= k < |writes| ==> 0 <= claim[k] < |db.goals| && Fits(db, writes[k])
  }

  lemma {:induction false} Publish1Shape(db: Db, g: nat, w: Write, now: Stamp)
    requires g < |db.goals| && Fits(db, w)
    ensures var db' := Publish1(db, g, w, now);
            && |db'.goals| == |db.goals| && |db'.cursors| == |db.cursors| && db'.products == db.products
            && SameHolders(db.books.accounts, db'.books.accounts) && db'.clock == now
            && (forall i :: 0 <= i < |db.goals| && i != g ==> db'.goals[i] == db.goals[i])
            && (forall a :: 0 <= a < |db.books.accounts| && !(w.Buys? && a in {w.goal.account, w.salak}) ==>
                  db'.books.accounts[a] == db.books.accounts[a])
            && db'.cursors == NextCursors(db.cursors, w)
  {}

  function NextCursors(cursors: seq<Tickets.Cursor>, w: Write): (r: seq<Tickets.Cursor>)
    ensures |r| == |cursors|
  {
    if w.Buys? && w.goal.product < |cursors| then cursors[w.goal.product := w.next] else cursors
  }

  /** The database with what the pass wrote for the first goals of its claim. */
  function Publish(db: Db, claim: seq<int>, writes: seq<Write>, now: Stamp): (r: Db)
    requires AllFit(db, claim, writes)
    ensures |r.goals| == |db.goals| && |r.cursors| == |db.cursors| && r.products == db.products
    ensures SameHolders(db.books.accounts, r.books.accounts)
  {
    if writes == [] then db
    else
      var n := |writes| - 1;
      var mid := Publish(db, claim, writes[..n], now);
      Publish1Shape(mid, claim[n], writes[n], now);
      Publish1(mid, claim[n], writes[n], now)
  }

  /** Where earlier purchases of the pass leave the cursors. */
  function CursorsAfter(cursors: seq<Tickets.Cursor>, writes: seq<Write>): (r: seq<Tickets.Cursor>)
    ensures |r| == |cursors|
  {
    if writes == [] then cursors
    else NextCursors(CursorsAfter(cursors, writes[..|writes| - 1]), writes[|writes| - 1])
  }

  // ---- writes that stand

  predicate OnlyBookkeeping(goal: Goal, row: Goal) {
    row == goal.(deferredUntil := row.deferredUntil, attempts := row.attempts, lastError := row.lastError,
                 lastAttempt := row.lastAttempt)
  }

  /** The rows the write was made from are still as it read them: the goal's, the
      cash in its account, the salak account and, at `cursor`, the tickets. */
  predicate Stands(db: Db, cursor: Tickets.Cursor, g: nat, w: Write) {
    && g < |db.goals| && Fits(db, w)
    && match w
       case Keeps(row) => OnlyBookkeeping(db.goals[g], row)
       case Buys(goal, terms, salak, range, next) =>
         && goal == db.goals[g] && goal.active && 0 < goal.Available() <= db.books.accounts[goal.account].balance
         && db.books.accounts[goal.account].kind == Kapook && db.books.accounts[salak].kind == Salak
         && ProductTerms(terms) && Tickets.Units(range) == goal.Available() / terms.unitPrice > 0
         && Tickets.Reserve(cursor, Tickets.Units(range)) == Success((range, next))
         && next.number <= LAST_TICKET && range.start < range.end
  }

  /** The product a write took tickets of, and any for a write that took none. */
  function CursorOf(cursors: seq<Tickets.Cursor>, w: Write): Tickets.Cursor {
    if w.Buys? && w.goal.product < |cursors| then cursors[w.goal.product] else Tickets.Cursor(0, 0)
  }

  predicate AllStand(db: Db, claim: seq<int>, writes: seq<Write>) {
    && |writes| <= |claim|
    && forall k :: 0 <= k < |writes| ==>
         claim[k] >= 0 && Stands(db, CursorOf(CursorsAfter(db.cursors, writes[..k]), writes[k]), claim[k], writes[k])
  }

  lemma {:induction false} StandingFits(db: Db, claim: seq<int>, writes: seq<Write>)
    requires AllStand(db, claim, writes)
    ensures AllFit(db, claim, writes)
  {
    forall k | 0 <= k < |writes| ensures 0 <= claim[k] < |db.goals| && Fits(db, writes[k]) {
      assert Stands(db, CursorOf(CursorsAfter(db.cursors, writes[..k]), writes[k]), claim[k], writes[k]);
    }
  }

  /** A purchase that stands is the purchase of a database with the terms it read. */
  lemma {:induction false} StandingIsBought(db: Db, g: nat, w: Write, now: Stamp)
    requires Tables(db) && w.Buys? && Fits(db, w) && Stands(db, CursorOf(db.cursors, w), g, w)
    ensures var goal := w.goal;
            var then_ := db.(products := db.products[goal.product := w.terms]);
            && BuyOk(then_, goal.account, w.salak, g, goal.Available(), now)
            && Publish1(db, g, w, now) ==
               BoughtDb(then_, goal.account, w.salak, g, goal.Available(), true, now).(products := db.products)
  {
    var goal := w.goal;
    var then_ := db.(products := db.products[goal.product := w.terms]);
    assert Tables(then_);
    assert Mint(then_, w.salak, goal.product, goal.Available(), now) == Success((SoldHolding(w, now), w.next));
  }

  lemma {:induction false} TermsDoNotMatter(db: Db, product: nat, terms: Product)
    requires Inv(db) && product < |db.products| && ProductTerms(terms)
    ensures Inv(db.(products := db.products[product := terms]))
  {
    hide Inv;
    ReviseProductKeepsInv(db, product, terms, db.clock);
    assert ReviseProduct(db, product, terms, db.clock).db == db.(products := db.products[product := terms]);
  }

  lemma {:induction false} BoughtKeepsInv(db: Db, kapook: nat, salak: nat, g: nat, amount: int, now: Stamp)
    requires Inv(db) && Later(db, now) && BuyOk(db, kapook, salak, g, amount, now)
    ensures Inv(BoughtDb(db, kapook, salak, g, amount, true, now))
  {
    hide BooksLaw, AccountsLaw, ReferenceLaw, GoalsLaw, CashLaw, SalakLaw, PaidOnceLaw, HoldingsLaw, FeeLaw;
    BoughtKeepsReferences(db, kapook, salak, g, amount, true, now);
    BoughtKeepsGoals(db, kapook, salak, g, amount, true, now);
    BoughtKeepsSalak(db, kapook, salak, g, amount, true, now);
    BoughtKeepsCash(db, kapook, salak, g, amount, true, now);
  }

  lemma {:induction false} StandingKeepsInv(db: Db, g: nat, w: Write, now: Stamp)
    requires Inv(db) && Tables(db) && Later(db, now) && Stands(db, CursorOf(db.cursors, w), g, w)
    ensures Inv(Publish1(db, g, w, now))
  {
    hide Inv, BuyOk, BoughtDb, Mint;
    match w
    case Keeps(row) => BookkeepingKeepsInv(db, g, row, now);
    case Buys(goal, terms, salak, _, _) =>
      var then_ := db.(products := db.products[goal.product := terms]);
      StandingIsBought(db, g, w, now);
      TermsDoNotMatter(db, goal.product, terms);
      BoughtKeepsInv(then_, goal.account, salak, g, goal.Available(), now);
      BoughtKeepsProducts(then_, goal.account, salak, g, goal.Available(), now);
      BackToTerms(db, BoughtDb(then_, goal.account, salak, g, goal.Available(), true, now), goal.product, terms);
  }

  lemma {:induction false} BoughtKeepsProducts(db: Db, kapook: nat, salak: nat, g: nat, amount: int, now: Stamp)
    requires BuyOk(db, kapook, salak, g, amount, now)
    ensures BoughtDb(db, kapook, salak, g, amount, true, now).products == db.products
  {
    BoughtShape(db, kapook, salak, g, amount, true, now);
  }

  lemma {:induction false} BackToTerms(db: Db, bought: Db, product: nat, terms: Product)
    requires Tables(db) && product < |db.products|
    requires Inv(bought) && bought.products == db.products[product := terms]
    ensures Inv(bought.(products := db.products))
  {
    hide Inv;
    TermsDoNotMatter(bought, product, db.products[product]);
    assert bought.products[product := db.products[product]] == db.products;
  }

  // ---- publishing keeps the laws

  /** What others rely on while `done` is published: the cash of goals not yet done. */
  ghost predicate CashWaits(db: Db, mid: Db, done: seq<int>) {
    && SameHolders(db.books.accounts, mid.books.accounts)
    && forall g :: 0 <= g < |db.goals| && db.goals[g].active && g !in Members(done) &&
                   db.goals[g].account < |db.books.accounts| ==>
         mid.books.accounts[db.goals[g].account].balance == db.books.accounts[db.goals[g].account].balance
  }

  /** Each write stands where its turn comes. */
  lemma {:induction false} StandsInTurn(db: Db, mid: Db, claim: seq<int>, k: nat, w: Write, now: Stamp)
    requires Inv(db) && k < |claim| && Claimed(db.goals, claim)
    requires Midway(db, mid, claim[..k], now) && CashWaits(db, mid, claim[..k])
    requires |mid.cursors| == |db.cursors| && Stands(db, CursorOf(mid.cursors, w), claim[k], w)
    ensures Stands(mid, CursorOf(mid.cursors, w), claim[k], w) && claim[k] !in Members(claim[..k])
  {
    hide Inv;
    assert claim[..k + 1][..k] == claim[..k];
    NotYetDone(claim[..k + 1]);
  }

  lemma {:induction false} StandingKeepsCash(db: Db, mid: Db, done: seq<int>, g: nat, w: Write, now: Stamp)
    requires GoalsLaw(db.goals, db.books.accounts, db.products, db.clock) && |mid.goals| == |db.goals|
    requires CashWaits(db, mid, done) && g < |db.goals| && Stands(mid, CursorOf(mid.cursors, w), g, w)
    requires db.goals[g].active && mid.goals[g] == db.goals[g]
    ensures CashWaits(db, Publish1(mid, g, w, now), done + [g])
  {
    hide Publish1;
    var after := Publish1(mid, g, w, now);
    Publish1Shape(mid, g, w, now);
    MembersSnoc(done, g);
  }

  lemma {:induction false} StandingIsMidway(db: Db, mid: Db, done: seq<int>, g: nat, w: Write, now: Stamp)
    requires Midway(db, mid, done, now) && g < |db.goals| && |mid.goals| == |db.goals|
    requires Stands(mid, CursorOf(mid.cursors, w), g, w)
    ensures Midway(db, Publish1(mid, g, w, now), done + [g], now)
  {
    hide Inv, Publish1;
    StandingKeepsInv(mid, g, w, now);
    Publish1Shape(mid, g, w, now);
    MembersSnoc(done, g);
  }

  /** At every point of a pass, whatever was committed since its attempts, its
      writes leave every law, and every goal it has not come to, as they were. */
  lemma {:induction false} PublishMidway(db: Db, claim: seq<int>, writes: seq<Write>, now: Stamp)
    requires Inv(db) && Tables(db) && Later(db, now) && Claimed(db.goals, claim) && AllStand(db, claim, writes)
    ensures AllFit(db, claim, writes)
    ensures Midway(db, Publish(db, claim, writes, now), claim[..|writes|], now)
    ensures CashWaits(db, Publish(db, claim, writes, now), claim[..|writes|])
    ensures Publish(db, claim, writes, now).cursors == CursorsAfter(db.cursors, writes)
  {
    hide Inv, Stands, Publish1, Midway, CashWaits, Claimed;
    StandingFits(db, claim, writes);
    if writes == [] {
      NothingPublished(db, now);
    } else {
      var n := |writes| - 1;
      AllStandPrefix(db, claim, writes);
      PublishMidway(db, claim, writes[..n], now);
      PublishedInTurn(db, Publish(db, claim, writes[..n], now), claim, n, writes[n], now);
    }
  }

  lemma {:induction false} NothingPublished(db: Db, now: Stamp)
    requires Inv(db) && Tables(db) && Later(db, now)
    ensures Midway(db, db, [], now) && CashWaits(db, db, [])
  {
    hide Inv;
  }

  lemma {:induction false} AllStandPrefix(db: Db, claim: seq<int>, writes: seq<Write>)
    requires AllStand(db, claim, writes) && writes != []
    ensures AllStand(db, claim, writes[..|writes| - 1])
  {
    hide Stands;
    var n := |writes| - 1;
    forall k | 0 <= k < n
      ensures Stands(db, CursorOf(CursorsAfter(db.cursors, writes[..n][..k]), writes[k]), claim[k], writes[k])
    {
      assert writes[..n][..k] == writes[..k];
    }
  }

  lemma {:induction false} PublishedInTurn(db: Db, mid: Db, claim: seq<int>, n: nat, w: Write, now: Stamp)
    requires Inv(db) && n < |claim| && Claimed(db.goals, claim) && 0 <= claim[n] < |db.goals|
    requires Midway(db, mid, claim[..n], now) && CashWaits(db, mid, claim[..n]) && |mid.cursors| == |db.cursors|
    requires Stands(db, CursorOf(mid.cursors, w), claim[n], w) && |mid.goals| == |db.goals| && Fits(mid, w)
    ensures Midway(db, Publish1(mid, claim[n], w, now), claim[..n + 1], now)
    ensures CashWaits(db, Publish1(mid, claim[n], w, now), claim[..n + 1])
    ensures Publish1(mid, claim[n], w, now).cursors == NextCursors(mid.cursors, w)
  {
    hide BooksLaw, AccountsLaw, ReferenceLaw, RowsLaw, CashLaw, SalakLaw, PaidOnceLaw, HoldingsLaw, FeeLaw;
    hide Stands, Publish1, CashWaits, GoalsLaw;
    var g := claim[n];
    StandsInTurn(db, mid, claim, n, w, now);
    Publish1Shape(mid, g, w, now);
    StandingIsMidway(db, mid, claim[..n], g, w, now);
    StandingKeepsCash(db, mid, claim[..n], g, w, now);
    assert claim[..n] + [g] == claim[..n + 1];
  }

  // ---- attempts

  /** What an attempt on goal `g` writes, on the pass's view of the database. */
  ghost predicate Attempted(view: Db, g: nat, now: Stamp, w: Write)
    requires Tables(view) && g < |view.goals| && view.goals[g].account < |view.books.accounts|
  {
    var goal := view.goals[g];
    var (after, attempt) := ProcessGoal(view, g, goal, now);
    if attempt == Attempt.Purchased then
      && w.Buys? && w.goal == goal && goal.product < |view.products| && w.terms == view.products[goal.product]
      && FirstSalak(view.books.accounts, view.books.accounts[goal.account].user) == Some(w.salak)
      && Mint(view, w.salak, goal.product, goal.Available(), now) == Success((SoldHolding(w, now), w.next))
    else
      w == Keeps(after.goals[g])
  }

  /** A purchase writes what it says, so the pass goes on from where it left. */
  lemma {:induction false} PurchaseIsWritten(view: Db, g: nat, now: Stamp, w: Write)
    requires Tables(view) && g < |view.goals| && view.goals[g].account < |view.books.accounts|
    requires ActiveGoal(view.goals, view.goals[g].account) == Some(g)
    requires ProcessGoal(view, g, view.goals[g], now).1 == Attempt.Purchased && Attempted(view, g, now, w)
    ensures Stands(view, CursorOf(view.cursors, w), g, w)
    ensures Publish1(view, g, w, now) == ProcessGoal(view, g, view.goals[g], now).0
  {
    var goal := view.goals[g];
    var user := view.books.accounts[goal.account].user;
    var h := BuyGuards(view, user, goal.account, w.salak, goal.Available(), true, now);
  }

  lemma {:induction false} BookkeepingIsWritten(view: Db, g: nat, now: Stamp, w: Write)
    requires Tables(view) && g < |view.goals| && view.goals[g].account < |view.books.accounts|
    requires ProcessGoal(view, g, view.goals[g], now).1 != Attempt.Purchased && Attempted(view, g, now, w)
    ensures Stands(view, CursorOf(view.cursors, w), g, w)
    ensures Publish1(view, g, w, now) == ProcessGoal(view, g, view.goals[g], now).0
  {
    BookkeepingOnly(view, g, view.goals[g], now);
    hide ProcessGoal;
  }

  lemma {:induction false} AttemptIsWritten(view: Db, g: nat, now: Stamp, w: Write)
    requires Inv(view) && Tables(view) && g < |view.goals| && view.goals[g].active
    requires view.goals[g].account < |view.books.accounts| && Attempted(view, g, now, w)
    ensures Stands(view, CursorOf(view.cursors, w), g, w)
    ensures Publish1(view, g, w, now) == ProcessGoal(view, g, view.goals[g], now).0
  {
    hide BooksLaw, AccountsLaw, ReferenceLaw, GoalsLaw, RowsLaw, CashLaw, SalakLaw, PaidOnceLaw, HoldingsLaw, FeeLaw;
    hide ProcessGoal, Attempted, Stands, Publish1;
    GoalFacts(view, g);
    if ProcessGoal(view, g, view.goals[g], now).1 == Attempt.Purchased {
      PurchaseIsWritten(view, g, now, w);
    } else {
      BookkeepingIsWritten(view, g, now, w);
    }
  }

  /** Every attempt has something to write. */
  lemma {:induction false} AttemptHasWrite(view: Db, g: nat, now: Stamp) returns (w: Write)
    requires Tables(view) && g < |view.goals| && view.goals[g].account < |view.books.accounts|
    requires ActiveGoal(view.goals, view.goals[g].account) == Some(g)
    ensures Attempted(view, g, now, w)
  {
    var goal := view.goals[g];
    var (after, attempt) := ProcessGoal(view, g, goal, now);
    if attempt == Attempt.Purchased {
      var user := view.books.accounts[goal.account].user;
      var salak := FirstSalak(view.books.accounts, user).value;
      var h := BuyGuards(view, user, goal.account, salak, goal.Available(), true, now);
      var (holding, next) := Mint(view, salak, goal.product, goal.Available(), now).value;
      w := Buys(goal, view.products[goal.product], salak,
                Tickets.Grant(holding.letter, holding.start, holding.end), next);
    } else {
      w := Keeps(after.goals[g]);
    }
  }

  ghost predicate AttemptedInTurn(db: Db, claim: seq<int>, k: nat, now: Stamp, w: Write)
    requires Tables(db) && Claimable(db, claim) && k < |claim|
  {
    var mid := Pass(db, claim[..k], now).0;
    mid.goals[claim[k]].account < |mid.books.accounts| && Attempted(mid, claim[k], now, w)
  }

  /** A pass that nobody disturbs between its attempts and its commit publishes
      exactly what processing its claim at once would leave. */
  lemma {:induction false} UndisturbedIsPass(db: Db, claim: seq<int>, writes: seq<Write>, now: Stamp)
    requires Inv(db) && Tables(db) && Later(db, now) && Claimed(db.goals, claim) && Claimable(db, claim)
    requires |writes| == |claim| && AllFit(db, claim, writes)
    requires forall k :: 0 <= k < |claim| ==> AttemptedInTurn(db, claim, k, now, writes[k])
    ensures Publish(db, claim, writes, now) == Pass(db, claim, now).0
  {
    hide Inv, ProcessGoal, Publish1, AttemptedInTurn, Pass;
    if claim == [] {
      NoPass(db, now);
    } else {
      var n := |claim| - 1;
      forall k | 0 <= k < n ensures AttemptedInTurn(db, claim[..n], k, now, writes[..n][k]) {
        assert AttemptedInTurn(db, claim, k, now, writes[k]);
        EarlierAttempt(db, claim, n, k, now, writes[k]);
      }
      UndisturbedIsPass(db, claim[..n], writes[..n], now);
      PublishIgnoresRest(db, claim, writes[..n], now);
      LastAttempt(db, Pass(db, claim[..n], now).0, claim, claim[n], now, writes[n]);
    }
  }

  lemma {:induction false} NoPass(db: Db, now: Stamp)
    requires Tables(db)
    ensures Pass(db, [], now).0 == db
  {}

  lemma {:induction false} EarlierAttempt(db: Db, claim: seq<int>, n: nat, k: nat, now: Stamp, w: Write)
    requires Tables(db) && Claimable(db, claim) && k < n <= |claim| && AttemptedInTurn(db, claim, k, now, w)
    ensures AttemptedInTurn(db, claim[..n], k, now, w)
  {
    hide Pass, Attempted;
    assert claim[..n][..k] == claim[..k];
  }

  lemma {:induction false} LastAttempt(db: Db, mid: Db, claim: seq<int>, g: nat, now: Stamp, w: Write)
    requires Inv(db) && Tables(db) && Later(db, now) && Claimed(db.goals, claim) && Claimable(db, claim)
    requires claim != [] && Claimed(db.goals, claim[..|claim| - 1]) && Claimable(db, claim[..|claim| - 1])
    requires g == claim[|claim| - 1] && mid == Pass(db, claim[..|claim| - 1], now).0
    requires AttemptedInTurn(db, claim, |claim| - 1, now, w) && g < |mid.goals| && Fits(mid, w)
    ensures Publish1(mid, g, w, now) == Pass(db, claim, now).0
  {
    hide Inv, ProcessGoal, Publish1, Attempted;
    PassMidway(db, claim[..|claim| - 1], now);
    NotYetDone(claim);
    AttemptIsWritten(mid, g, now, w);
  }

  lemma {:induction false} PublishIgnoresRest(db: Db, claim: seq<int>, writes: seq<Write>, now: Stamp)
    requires AllFit(db, claim, writes)
    ensures Publish(db, claim, writes, now) == Publish(db, claim[..|writes|], writes, now)
    decreases |writes|
  {
    hide Publish1, Fits;
    if writes != [] {
      var n := |writes| - 1;
      PublishIgnoresRest(db, claim, writes[..n], now);
      PublishIgnoresRest(db, claim[..|writes|], writes[..n], now);
      assert claim[..|writes|][..n] == claim[..n];
    }
  }

  // ---- locks

  /** What a purchase holds to the end of its pass, besides its goal. */
  function TakenBy(w: Write): set<Lock> {
    match w
    case Keeps(_) => {}
    case Buys(goal, _, salak, _, _) =>
      {AccountLock(Kapook, goal.account), CursorLock(goal.product), AccountLock(Salak, salak)}
  }

  /** A pass claims its goals first and writes for them in that order. */
  datatype Progress = Progress(claim: seq<int>, writes: seq<Write>)

  const IDLE := Progress([], [])

  predicate Holds(pass: Progress, l: Lock) {
    || (l.GoalLock? && l.id in pass.claim)
    || exists k :: 0 <= k < |pass.writes| && l in TakenBy(pass.writes[k])
  }

  /** The row behind the lock has not changed. */
  predicate SameRow(db: Db, db': Db, l: Lock) {
    match l
    case GoalLock(g) => g < |db.goals| ==> g < |db'.goals| && db'.goals[g] == db.goals[g]
    case AccountLock(_, a) =>
      a < |db.books.accounts| ==> a < |db'.books.accounts| && db'.books.accounts[a] == db.books.accounts[a]
    case CursorLock(p) => p < |db.cursors| ==> p < |db'.cursors| && db'.cursors[p] == db.cursors[p]
    case HoldingLock(_) => true
  }

  ghost predicate LeavesHeld(db: Db, db': Db, pass: Progress) {
    forall l :: Holds(pass, l) ==> SameRow(db, db', l)
  }

  lemma {:induction false} SameCursorAfter(cursors: seq<Tickets.Cursor>, cursors': seq<Tickets.Cursor>,
                                           writes: seq<Write>, p: nat)
    requires p < |cursors| && p < |cursors'| && cursors'[p] == cursors[p]
    ensures CursorsAfter(cursors', writes)[p] == CursorsAfter(cursors, writes)[p]
  {
    if writes != [] {
      SameCursorAfter(cursors, cursors', writes[..|writes| - 1], p);
    }
  }

  /** Writes stand as long as nobody changes what the pass holds. */
  lemma {:induction false} StillStands(db: Db, db': Db, pass: Progress)
    requires AllStand(db, pass.claim, pass.writes) && LeavesHeld(db, db', pass)
    ensures AllStand(db', pass.claim, pass.writes)
  {
    hide Stands;
    forall k | 0 <= k < |pass.writes|
      ensures Stands(db', CursorOf(CursorsAfter(db'.cursors, pass.writes[..k]), pass.writes[k]), pass.claim[k],
                     pass.writes[k])
    {
      assert Stands(db, CursorOf(CursorsAfter(db.cursors, pass.writes[..k]), pass.writes[k]), pass.claim[k],
                    pass.writes[k]);
      WriteStillStands(db, db', pass, k);
    }
  }

  lemma {:induction false} WriteStillStands(db: Db, db': Db, pass: Progress, k: nat)
    requires k < |pass.writes| && |pass.writes| <= |pass.claim| && pass.claim[k] >= 0 && LeavesHeld(db, db', pass)
    requires Stands(db, CursorOf(CursorsAfter(db.cursors, pass.writes[..k]), pass.writes[k]), pass.claim[k],
                    pass.writes[k])
    ensures Stands(db', CursorOf(CursorsAfter(db'.cursors, pass.writes[..k]), pass.writes[k]), pass.claim[k],
                   pass.writes[k])
  {
    var w := pass.writes[k];
    assert Holds(pass, GoalLock(pass.claim[k])) && SameRow(db, db', GoalLock(pass.claim[k]));
    if w.Buys? {
      forall l | l in TakenBy(w) ensures SameRow(db, db', l) {
        assert Holds(pass, l);
      }
      assert SameRow(db, db', AccountLock(Kapook, w.goal.account)) && SameRow(db, db', CursorLock(w.goal.product))
          && SameRow(db, db', AccountLock(Salak, w.salak));
      SameCursorAfter(db.cursors, db'.cursors, pass.writes[..k], w.goal.product);
    }
  }

  /** A lock whose kind is its account's. */
  predicate Tagged(db: Db, l: Lock) {
    l.AccountLock? && l.id < |db.books.accounts| ==> db.books.accounts[l.id].kind == l.kind
  }

  lemma {:induction false} Publish1Leaves(db: Db, g: nat, w: Write, now: Stamp, l: Lock)
    requires g < |db.goals| && Fits(db, w) && Tagged(db, l)
    requires w.Buys? ==> db.books.accounts[w.goal.account].kind == Kapook && db.books.accounts[w.salak].kind == Salak
    requires l != GoalLock(g) && l !in TakenBy(w)
    ensures SameRow(db, Publish1(db, g, w, now), l) && Tagged(Publish1(db, g, w, now), l)
  {
    hide Publish1;
    Publish1Shape(db, g, w, now);
  }

  lemma {:induction false} SameRowTwice(a: Db, b: Db, c: Db, l: Lock)
    requires SameRow(a, b, l) && SameRow(b, c, l)
    ensures SameRow(a, c, l)
  {}

  lemma {:induction false} LeavesNext(db: Db, mid: Db, cursor: Tickets.Cursor, g: nat, w: Write, now: Stamp, l: Lock)
    requires Stands(db, cursor, g, w) && SameHolders(db.books.accounts, mid.books.accounts)
    requires |mid.goals| == |db.goals| && |mid.cursors| == |db.cursors| && SameRow(db, mid, l) && Tagged(mid, l)
    requires l != GoalLock(g) && l !in TakenBy(w)
    ensures Fits(mid, w) && SameRow(db, Publish1(mid, g, w, now), l) && Tagged(Publish1(mid, g, w, now), l)
  {
    hide Publish1, SameRow, Tagged, TakenBy;
    Publish1Leaves(mid, g, w, now, l);
    SameRowTwice(db, mid, Publish1(mid, g, w, now), l);
  }

  /** What a pass does not hold, its commit leaves as it was. */
  lemma {:induction false} PublishLeaves(db: Db, claim: seq<int>, writes: seq<Write>, now: Stamp, l: Lock)
    requires AllStand(db, claim, writes) && AllFit(db, claim, writes) && Tagged(db, l)
    requires !Holds(Progress(claim, writes), l)
    ensures SameRow(db, Publish(db, claim, writes, now), l) && Tagged(Publish(db, claim, writes, now), l)
  {
    hide Publish1, Stands, SameRow, Tagged, Holds, TakenBy;
    if writes == [] {
      SameRowAlways(db, l);
    } else {
      var n := |writes| - 1;
      AllStandPrefix(db, claim, writes);
      HoldsPrefix(claim, writes, l);
      PublishLeaves(db, claim, writes[..n], now, l);
      var mid := Publish(db, claim, writes[..n], now);
      LeavesNext(db, mid, CursorOf(CursorsAfter(db.cursors, writes[..n]), writes[n]), claim[n], writes[n], now, l);
    }
  }

  lemma {:induction false} SameRowAlways(db: Db, l: Lock)
    ensures SameRow(db, db, l)
  {}

  lemma {:induction false} HoldsPrefix(claim: seq<int>, writes: seq<Write>, l: Lock)
    requires writes != [] && |writes| <= |claim| && !Holds(Progress(claim, writes), l)
    ensures !Holds(Progress(claim, writes[..|writes| - 1]), l)
    ensures l !in TakenBy(writes[|writes| - 1]) && forall g: nat :: g == claim[|writes| - 1] ==> l != GoalLock(g)
  {
    hide TakenBy;
  }

}
