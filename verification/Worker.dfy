/** One pass of the unattended worker over the goals it claimed. */
module Worker {
  import opened Outcomes
  import opened Calendar
  import opened Sums
  import opened Database
  import opened Steps
  import opened Laws
  import opened LawsKept
  import opened StepsKept
  import opened PurchasesKept
  import DrawDays
  import Tickets

  const CLAIM_LIMIT := 20

  datatype Attempt = Purchased | Deferred | Failed(error: Error)

  // ---- claiming

  /** The predicate of the claiming query. */
  predicate Due(g: Goal, now: Stamp, countdown: int) {
    && g.active && g.reachedAt.Some? && Instant(g.reachedAt.value) <= Instant(now) - countdown
    && (g.deferredUntil.None? || g.deferredUntil.value <= Day(now))
  }

  function DueGoals(goals: seq<Goal>, now: Stamp, countdown: int): set<int> {
    set g | 0 <= g < |goals| && Due(goals[g], now, countdown)
  }

  function Members(claim: seq<int>): set<int> {
    set i | 0 <= i < |claim| :: claim[i]
  }

  ghost predicate Distinct(claim: seq<int>) {
    forall i, j :: 0 <= i < j < |claim| ==> claim[i] != claim[j]
  }

  /** What the claiming query may return: due rows nobody else has locked, the
      longest-waiting first, as many as there are up to the limit. */
  ghost predicate IsClaim(goals: seq<Goal>, now: Stamp, countdown: int, locked: set<int>, limit: nat, claim: seq<int>) {
    && Distinct(claim) && Members(claim) <= DueGoals(goals, now, countdown) - locked
    && |claim| <= limit && (|claim| < limit ==> Members(claim) == DueGoals(goals, now, countdown) - locked)
    && (forall i, j :: 0 <= i < j < |claim| ==> ReachedBy(goals, claim[i], claim[j]))
    && (forall i, g :: 0 <= i < |claim| && g in DueGoals(goals, now, countdown) - locked - Members(claim) ==>
          ReachedBy(goals, claim[i], g))
  }

  predicate ReachedBy(goals: seq<Goal>, g: int, h: int) {
    && 0 <= g < |goals| && 0 <= h < |goals| && goals[g].reachedAt.Some? && goals[h].reachedAt.Some?
    && Instant(goals[g].reachedAt.value) <= Instant(goals[h].reachedAt.value)
  }

  // ---- one goal

  /** The draw-day answer: persist the date to retry on, or record why not. */
  function DeferGoal(db: Db, g: nat, product: nat, now: Stamp): (Db, Attempt)
    requires g < |db.goals|
  {
    match CheckProduct(db.products, product)
    case Some(e) => (RecordFailure(db, g, e, now), Failed(e))
    case None =>
      match DrawDays.NextAvailable(db.products[product].drawDays, Day(now))
      case None => (RecordFailure(db, g, NoAvailableDate, now), Failed(NoAvailableDate))
      case Some(until) => (Defer(db, g, until, now), Deferred)
  }

  /** processGoal on a claimed row `claimed` of goal `g`. */
  function ProcessGoal(db: Db, g: nat, claimed: Goal, now: Stamp): (Db, Attempt)
    requires Tables(db) && g < |db.goals| && claimed.account < |db.books.accounts|
  {
    var user := db.books.accounts[claimed.account].user;
    match FirstSalak(db.books.accounts, user)
    case None => (RecordFailure(db, g, NoSalakAccount, now), Failed(NoSalakAccount))
    case Some(salak) =>
      match BuyFromGoal(db, user, claimed.account, salak, claimed.Available(), true, now)
      case Done(db', _) => (db', Purchased)
      case Refused(DrawDay) => DeferGoal(db, g, claimed.product, now)
      case Refused(e) => (RecordFailure(db, g, e, now), Failed(e))
  }

  /** Processing keeps every law, and touches no other goal. */
  lemma {:induction false} ProcessKeepsInv(db: Db, g: nat, claimed: Goal, now: Stamp)
    requires Inv(db) && Later(db, now) && Tables(db) && g < |db.goals| && claimed.account < |db.books.accounts|
    ensures Inv(ProcessGoal(db, g, claimed, now).0)
  {
    hide BooksLaw, AccountsLaw, ReferenceLaw, GoalsLaw, RowsLaw, CashLaw, SalakLaw, PaidOnceLaw, HoldingsLaw, FeeLaw;
    var user := db.books.accounts[claimed.account].user;
    var salak := FirstSalak(db.books.accounts, user);
    var (db', attempt) := ProcessGoal(db, g, claimed, now);
    if attempt == Purchased {
      BuyFromGoalKeepsInv(db, user, claimed.account, salak.value, claimed.Available(), true, now);
    } else {
      BookkeepingOnly(db, g, claimed, now);
      BookkeepingKeepsInv(db, g, db'.goals[g], now);
    }
  }

  /** An attempt that does not buy leaves balances, ledger, holdings, rows and
      ticket cursors as they were: it writes only the goal's retry date or its
      failure streak. */
  lemma {:induction false} BookkeepingOnly(db: Db, g: nat, claimed: Goal, now: Stamp)
    requires Tables(db) && g < |db.goals| && claimed.account < |db.books.accounts|
    requires ProcessGoal(db, g, claimed, now).1 != Purchased
    ensures var (db', attempt) := ProcessGoal(db, g, claimed, now);
            && |db'.goals| == |db.goals|
            && db' == db.(goals := db.goals[g := db'.goals[g]], clock := now)
            && (attempt == Deferred ==> exists until ::
                  && until > Day(now) && db'.goals[g] == db.goals[g].(deferredUntil := Some(until)))
            && (attempt.Failed? ==> db'.goals[g] == FailedGoal(db.goals[g], attempt.error, now))
  {
    hide BuyFromGoal, FirstSalak;
  }

  function FailedGoal(goal: Goal, e: Error, now: Stamp): Goal {
    goal.(attempts := goal.attempts + 1, lastError := Some(e), lastAttempt := Some(now))
  }

  lemma {:induction false} ProcessLeavesOthers(db: Db, g: nat, claimed: Goal, now: Stamp)
    requires Inv(db) && Tables(db) && g < |db.goals| && db.goals[g].active && claimed.account == db.goals[g].account
    ensures var db' := ProcessGoal(db, g, claimed, now).0;
            && |db'.goals| == |db.goals|
            && forall i :: 0 <= i < |db.goals| && i != g ==> db'.goals[i] == db.goals[i]
  {
    hide BooksLaw, AccountsLaw, ReferenceLaw, RowsLaw, CashLaw, SalakLaw, PaidOnceLaw, HoldingsLaw, FeeLaw;
    var user := db.books.accounts[claimed.account].user;
    if ProcessGoal(db, g, claimed, now).1 == Purchased {
      var salak := FirstSalak(db.books.accounts, user).value;
      var h := BuyGuards(db, user, claimed.account, salak, claimed.Available(), true, now);
      assert h == g by {
        OneActiveGoal(db, h, g);
      }
    } else {
      BookkeepingOnly(db, g, claimed, now);
    }
  }

  lemma {:induction false} OneActiveGoal(db: Db, g: nat, h: nat)
    requires GoalsLaw(db.goals, db.books.accounts, db.products, db.clock)
    requires g < |db.goals| && h < |db.goals| && db.goals[g].active && db.goals[h].active
    requires db.goals[g].account == db.goals[h].account
    ensures g == h
  {}

  /** A deferral: the retry date is the next day that is not a draw, the goal
      cannot be claimed before it, and a purchase on it passes the draw-day
      guard. On a seeded calendar it is tomorrow. */
  lemma {:induction false} DeferralWaits(db: Db, g: nat, claimed: Goal, now: Stamp, t: Stamp, countdown: int)
    requires Tables(db) && g < |db.goals| && claimed.account < |db.books.accounts| &&
             claimed.product == db.goals[g].product
    requires ProcessGoal(db, g, claimed, now).1 == Deferred
    ensures var goal' := ProcessGoal(db, g, claimed, now).0.goals[g];
            && claimed.product < |db.products| && goal'.deferredUntil.Some?
            && var until, p := goal'.deferredUntil.value, db.products[claimed.product];
               && Some(until) == DrawDays.NextAvailable(p.drawDays, Day(now))
               && until > Day(now) && !IsDrawDay(p, until) && (Day(t) < until ==> !Due(goal', t, countdown))
  {}

  lemma {:induction false} SeededDeferralIsTomorrow(db: Db, g: nat, claimed: Goal, now: Stamp,
                                                    termMonths: int, years: seq<int>, dates: set<DrawDays.Date>)
    requires Tables(db) && g < |db.goals| && claimed.account < |db.books.accounts| && claimed.product < |db.products|
    requires claimed.product == db.goals[g].product
    requires ProcessGoal(db, g, claimed, now).1 == Deferred && IsDrawDay(db.products[claimed.product], Day(now))
    requires forall d :: d in dates <==> DrawDays.Drawn(termMonths, years, d)
    requires forall d :: d in dates ==> 1 <= d.month <= 12
    requires db.products[claimed.product].drawDays == DrawDays.DayNumbers(dates)
    ensures ProcessGoal(db, g, claimed, now).0.goals[g].deferredUntil == Some(Day(now) + 1)
  {
    DeferralWaits(db, g, claimed, now, now, 0);
    DrawDays.DrawDayWaitsOneDay(termMonths, years, dates, Day(now));
    hide ProcessGoal;
  }

  /** The instant from which a goal with that reached-at stamp and retry date may
      be claimed: the countdown has run out, and the retry date has begun. */
  function DueFrom(reachedAt: Stamp, deferredUntil: Option<int>, countdown: int): int {
    var ripe := Instant(reachedAt) + countdown;
    match deferredUntil
    case None => ripe
    case Some(day) => if ripe < day * 86_400_000_000_000 then day * 86_400_000_000_000 else ripe
  }

  lemma {:induction false} DayBegins(now: Stamp, day: int)
    ensures day <= Day(now) <==> day * 86_400_000_000_000 <= Instant(now)
  {}

  /** An open, reached goal is due exactly from that instant on, for good. */
  lemma {:induction false} DueExactlyFrom(goal: Goal, now: Stamp, countdown: int)
    requires goal.active && goal.reachedAt.Some?
    ensures Due(goal, now, countdown) <==>
            DueFrom(goal.reachedAt.value, goal.deferredUntil, countdown) <= Instant(now)
  {
    if goal.deferredUntil.Some? {
      DayBegins(now, goal.deferredUntil.value);
    }
  }

  /** A due goal that is deferred comes back on its retry date, and stays due. */
  lemma {:induction false} DeferralEnds(db: Db, g: nat, now: Stamp, t: Stamp, countdown: int)
    requires Tables(db) && g < |db.goals| && db.goals[g].account < |db.books.accounts|
    requires Due(db.goals[g], now, countdown) && Instant(now) <= Instant(t)
    requires ProcessGoal(db, g, db.goals[g], now).1 == Deferred
    ensures var goal' := ProcessGoal(db, g, db.goals[g], now).0.goals[g];
            && goal'.deferredUntil.Some?
            && (Due(goal', t, countdown) <==> goal'.deferredUntil.value <= Day(t))
  {
    BookkeepingOnly(db, g, db.goals[g], now);
  }

  /** The attempt is deferred exactly when only the draw day stands in the way
      of its amount, and one of the 45 days that follow has no draw. */
  lemma {:induction false} DeferredExactlyWhen(db: Db, g: nat, now: Stamp)
    requires Inv(db) && Tables(db) && g < |db.goals| && db.goals[g].active && db.goals[g].reachedAt.Some?
    ensures db.goals[g].account < |db.books.accounts| && db.goals[g].product < |db.products|
    ensures var goal := db.goals[g];
            var p := db.products[goal.product];
            ProcessGoal(db, g, goal, now).1 == Deferred <==>
            && FirstSalak(db.books.accounts, db.books.accounts[goal.account].user).Some?
            && p.active && ValidAmount(p, goal.Available()) && IsDrawDay(p, Day(now))
            && exists d :: Day(now) < d <= Day(now) + 45 && d !in p.drawDays
  {
    hide BooksLaw, AccountsLaw, ReferenceLaw, GoalsLaw, RowsLaw, CashLaw, SalakLaw, PaidOnceLaw, HoldingsLaw, FeeLaw;
    hide Steps.Purchased, Converted;
    GoalFacts(db, g);
  }

  // ---- when the worker buys

  /** The requests the cursor and its CHECKs let through. */
  predicate TicketRoom(c: Tickets.Cursor, units: int) {
    && 2 <= units <= LAST_TICKET
    && (|| c.number + units <= LAST_TICKET
        || (c.number + units > Tickets.TICKETS_PER_LETTER && c.letter != Tickets.CONSONANT_END))
  }

  lemma {:induction false} MintSucceedsExactlyWhen(db: Db, salak: nat, product: nat, amount: int, now: Stamp)
    requires Tables(db) && product < |db.products| && Tickets.ValidCursor(db.cursors[product])
    ensures Mint(db, salak, product, amount, now).Success? <==>
            TicketRoom(db.cursors[product], amount / db.products[product].unitPrice)
  {}

  predicate ValidAmount(p: Product, amount: int)
    requires p.step > 0
  {
    p.minPurchase <= amount <= p.maxPurchase && amount % p.step == 0
  }

  /** What a caller can check before the worker tries. */
  predicate WorkerCanBuy(db: Db, g: nat, now: Stamp)
    requires Tables(db) && g < |db.goals|
    requires db.goals[g].account < |db.books.accounts| && db.goals[g].product < |db.products|
  {
    var goal := db.goals[g];
    var p := db.products[goal.product];
    && FirstSalak(db.books.accounts, db.books.accounts[goal.account].user).Some?
    && p.active && ValidAmount(p, goal.Available()) && !IsDrawDay(p, Day(now))
    && goal.Available() <= db.books.accounts[goal.account].balance
    && TicketRoom(db.cursors[goal.product], goal.Available() / p.unitPrice)
  }

  /** For a reached goal the attempt buys exactly when those checks pass; the
      cash check is that nothing of the goal has expired. */
  lemma {:induction false} WorkerBuysExactlyWhen(db: Db, g: nat, now: Stamp)
    requires Inv(db) && Tables(db) && g < |db.goals| && db.goals[g].active && db.goals[g].reachedAt.Some?
    ensures db.goals[g].account < |db.books.accounts| && db.goals[g].product < |db.products|
    ensures ProcessGoal(db, g, db.goals[g], now).1 == Purchased <==> WorkerCanBuy(db, g, now)
    ensures db.goals[g].Available() <= db.books.accounts[db.goals[g].account].balance <==>
            Sum(db.rows, ExpiredIn(g)) == 0
  {
    BoughtIsLivePlusExpired(db.goals, db.books.accounts, db.rows, db.holdings, g);
    GoalFacts(db, g);
    BuyExactlyWhen(db, g, now);
  }

  lemma {:induction false} GoalFacts(db: Db, g: nat)
    requires GoalsLaw(db.goals, db.books.accounts, db.products, db.clock) &&
             CashLaw(db.goals, db.books.accounts, db.rows)
    requires g < |db.goals| && db.goals[g].active
    ensures GoalLaw(db.goals[g]) && db.goals[g].account < |db.books.accounts| && db.goals[g].product < |db.products|
    ensures db.books.accounts[db.goals[g].account].kind == Kapook
    ensures ActiveGoal(db.goals, db.goals[g].account) == Some(g)
    ensures db.books.accounts[db.goals[g].account].balance == db.goals[g].saving - Sum(db.rows, BoughtIn(g))
  {}

  lemma {:induction false} BuyExactlyWhen(db: Db, g: nat, now: Stamp)
    requires Tables(db) && g < |db.goals| && GoalLaw(db.goals[g]) && db.goals[g].active
    requires db.goals[g].account < |db.books.accounts| && db.goals[g].product < |db.products|
    requires db.books.accounts[db.goals[g].account].kind == Kapook
    requires db.goals[g].reachedAt.Some? && ActiveGoal(db.goals, db.goals[g].account) == Some(g)
    requires Tickets.ValidCursor(db.cursors[db.goals[g].product])
    ensures ProcessGoal(db, g, db.goals[g], now).1 == Purchased <==> WorkerCanBuy(db, g, now)
  {}

  lemma {:induction false} PurchaseShape(db: Db, g: nat, now: Stamp)
    requires Tables(db) && g < |db.goals| && GoalLaw(db.goals[g]) && db.goals[g].active && db.goals[g].reachedAt.Some?
    requires db.goals[g].account < |db.books.accounts| && ActiveGoal(db.goals, db.goals[g].account) == Some(g)
    requires ProcessGoal(db, g, db.goals[g], now).1 == Purchased
    ensures var db' := ProcessGoal(db, g, db.goals[g], now).0;
            var goal := db.goals[g];
            && db'.goals == db.goals[g := ConvertedGoal(goal, goal.Available())]
            && db'.goals[g].salak == db'.goals[g].saving == db'.goals[g].target == goal.target && !db'.goals[g].active
            && SameHolders(db.books.accounts, db'.books.accounts)
            && |db'.holdings| == |db.holdings| + 1 && db'.holdings[..|db.holdings|] == db.holdings
            && db'.holdings[|db.holdings|].amount == goal.Available() &&
               db'.holdings[|db.holdings|].product == goal.product
            && db'.rows == db.rows + [BuyingRow(db, goal.account, g, goal.Available(), true, now)]
  {
    var goal := db.goals[g];
    var user := db.books.accounts[goal.account].user;
    var salak := FirstSalak(db.books.accounts, user).value;
    var h := BuyGuards(db, user, goal.account, salak, goal.Available(), true, now);
    BoughtShape(db, goal.account, salak, g, goal.Available(), true, now);
  }

  lemma {:induction false} ClosingLeavesNone(goals: seq<Goal>, g: nat, goal: Goal)
    requires g < |goals| && !goal.active && goal.account == goals[g].account && goals[g].active
    requires forall i, j :: 0 <= i < j < |goals| && goals[i].active && goals[j].active ==>
             goals[i].account != goals[j].account
    ensures ActiveGoal(goals[g := goal], goal.account).None?
  {}

  /** The complete purchase: the goal ends with saving, salak and target equal,
      its account empty, one holding and one automatic row for the whole. */
  lemma {:induction false} PurchaseCompletesGoal(db: Db, g: nat, now: Stamp)
    requires Inv(db) && Later(db, now) && Tables(db) && g < |db.goals| && db.goals[g].active &&
             db.goals[g].reachedAt.Some?
    requires db.goals[g].account < |db.books.accounts| && ProcessGoal(db, g, db.goals[g], now).1 == Purchased
    ensures var db' := ProcessGoal(db, g, db.goals[g], now).0;
            var goal := db.goals[g];
            && |db'.goals| == |db.goals| && |db'.books.accounts| == |db.books.accounts|
            && db'.goals[g].salak == db'.goals[g].saving == db'.goals[g].target == goal.target && !db'.goals[g].active
            && db'.books.accounts[goal.account].balance == 0
            && |db'.holdings| == |db.holdings| + 1 && db'.holdings[..|db.holdings|] == db.holdings
            && db'.holdings[|db.holdings|].amount == goal.Available() &&
               db'.holdings[|db.holdings|].product == goal.product
            && db'.rows == db.rows + [BuyingRow(db, goal.account, g, goal.Available(), true, now)]
  {
    hide BooksLaw, AccountsLaw, ReferenceLaw, RowsLaw, CashLaw, SalakLaw, PaidOnceLaw, HoldingsLaw, FeeLaw;
    var goal := db.goals[g];
    GoalFacts(db, g);
    PurchaseShape(db, g, now);
    ProcessKeepsInv(db, g, goal, now);
    ClosingLeavesNone(db.goals, g, ConvertedGoal(goal, goal.Available()));
    ClosedGoalLeavesNothing(ProcessGoal(db, g, goal, now).0, goal.account);
  }

  /** A kapook account without an active goal is empty. */
  lemma {:induction false} ClosedGoalLeavesNothing(db: Db, a: nat)
    requires CashLaw(db.goals, db.books.accounts, db.rows)
    requires a < |db.books.accounts| && db.books.accounts[a].kind == Kapook
    ensures ActiveGoal(db.goals, a).None? ==> db.books.accounts[a].balance == 0
  {}

  // ---- the pass

  ghost predicate Claimed(goals: seq<Goal>, claim: seq<int>) {
    && Distinct(claim)
    && forall i :: 0 <= i < |claim| ==>
       0 <= claim[i] < |goals| && goals[claim[i]].active && goals[claim[i]].reachedAt.Some?
  }

  /** What every goal of the pass sees: laws kept, the other goals as claimed. */
  ghost predicate Midway(db: Db, mid: Db, done: seq<int>, now: Stamp) {
    && Inv(mid) && Tables(mid) && Later(mid, now) && mid.products == db.products
    && SameHolders(db.books.accounts, mid.books.accounts) && |mid.goals| == |db.goals|
    && (forall g :: 0 <= g < |db.goals| && g !in Members(done) ==> mid.goals[g] == db.goals[g])
  }

  lemma {:induction false} ProcessStep(db: Db, mid: Db, done: seq<int>, g: int, now: Stamp)
    requires Midway(db, mid, done, now) && 0 <= g < |db.goals| && g !in Members(done) && db.goals[g].active
    ensures db.goals[g].account < |mid.books.accounts|
    ensures Midway(db, ProcessGoal(mid, g, db.goals[g], now).0, done + [g], now)
  {
    hide BooksLaw, AccountsLaw, ReferenceLaw, GoalsLaw, RowsLaw, CashLaw, SalakLaw, PaidOnceLaw, HoldingsLaw, FeeLaw;
    var goal := db.goals[g];
    GoalFacts(mid, g);
    ProcessKeepsInv(mid, g, goal, now);
    ProcessLeavesOthers(mid, g, goal, now);
    ProcessKeepsTables(mid, g, goal, now);
    MembersSnoc(done, g);
  }

  lemma {:induction false} MembersSnoc(s: seq<int>, x: int)
    ensures Members(s + [x]) == Members(s) + {x}
  {
    forall y | y in Members(s) ensures y in Members(s + [x]) {
      var i :| 0 <= i < |s| && s[i] == y;
      assert (s + [x])[i] == y;
    }
    assert (s + [x])[|s|] == x;
  }

  lemma {:induction false} ProcessKeepsTables(mid: Db, g: nat, claimed: Goal, now: Stamp)
    requires Tables(mid) && g < |mid.goals| && claimed.account < |mid.books.accounts|
    ensures var after := ProcessGoal(mid, g, claimed, now).0;
            && Tables(after) && after.products == mid.products && after.clock == now && |after.goals| == |mid.goals|
            && SameHolders(mid.books.accounts, after.books.accounts)
  {
    var user := mid.books.accounts[claimed.account].user;
    if ProcessGoal(mid, g, claimed, now).1 == Purchased {
      var salak := FirstSalak(mid.books.accounts, user).value;
      var h := BuyGuards(mid, user, claimed.account, salak, claimed.Available(), true, now);
      BoughtShape(mid, claimed.account, salak, h, claimed.Available(), true, now);
    } else {
      BookkeepingOnly(mid, g, claimed, now);
    }
  }

  predicate Claimable(db: Db, claim: seq<int>) {
    forall i :: 0 <= i < |claim| ==> 0 <= claim[i] < |db.goals| && db.goals[claim[i]].account < |db.books.accounts|
  }

  /** RunOnce's effect: each claimed goal in turn, processed from its row as it
      was when claimed. */
  function Pass(db: Db, claim: seq<int>, now: Stamp): (r: (Db, seq<Attempt>))
    requires Tables(db) && Claimable(db, claim)
    ensures Tables(r.0) && r.0.products == db.products
    ensures |r.0.goals| == |db.goals| && SameHolders(db.books.accounts, r.0.books.accounts)
    ensures |r.1| == |claim|
  {
    if claim == [] then (db, [])
    else
      var n := |claim| - 1;
      var (mid, attempts) := Pass(db, claim[..n], now);
      ProcessKeepsTables(mid, claim[n], db.goals[claim[n]], now);
      var (after, attempt) := ProcessGoal(mid, claim[n], db.goals[claim[n]], now);
      (after, attempts + [attempt])
  }

  lemma {:induction false} ClaimedIsClaimable(db: Db, claim: seq<int>)
    requires Inv(db) && Claimed(db.goals, claim)
    ensures Claimable(db, claim)
  {}

  /** A pass keeps every law, and a goal it did not claim as it was; in
      particular each goal is processed from its current row. */
  lemma {:induction false} PassMidway(db: Db, claim: seq<int>, now: Stamp)
    requires Inv(db) && Tables(db) && Later(db, now) && Claimed(db.goals, claim) && Claimable(db, claim)
    ensures Midway(db, Pass(db, claim, now).0, claim, now)
  {
    hide Inv, ProcessGoal;
    if claim == [] {
    } else {
      var n := |claim| - 1;
      assert claim[..n] + [claim[n]] == claim;
      PassMidway(db, claim[..n], now);
      NotYetDone(claim);
      ProcessStep(db, Pass(db, claim[..n], now).0, claim[..n], claim[n], now);
    }
  }

  lemma {:induction false} NotYetDone(claim: seq<int>)
    requires claim != [] && Distinct(claim)
    ensures claim[|claim| - 1] !in Members(claim[..|claim| - 1])
  {}

  // ---- isolation

  /** Nothing but the goal's own row, its account's balance and its product's
      cursor decides what an attempt does. */
  lemma {:induction false} AttemptIsLocal(db: Db, mid: Db, g: nat, now: Stamp)
    requires Tables(db) && Tables(mid) && g < |db.goals| && |mid.goals| == |db.goals| && mid.goals[g] == db.goals[g]
    requires db.goals[g].account < |db.books.accounts| && db.goals[g].product < |db.products|
    requires mid.products == db.products && SameHolders(db.books.accounts, mid.books.accounts)
    requires ActiveGoal(db.goals, db.goals[g].account) == ActiveGoal(mid.goals, db.goals[g].account) == Some(g)
    requires mid.books.accounts[db.goals[g].account].balance == db.books.accounts[db.goals[g].account].balance
    requires mid.cursors[db.goals[g].product] == db.cursors[db.goals[g].product]
    ensures ProcessGoal(mid, g, db.goals[g], now).1 == ProcessGoal(db, g, db.goals[g], now).1
  {
    hide BuyFromGoal, FirstSalak, DrawDays.NextAvailable;
    var user := db.books.accounts[db.goals[g].account].user;
    SameFirstSalak(db.books.accounts, mid.books.accounts, user);
    var salak := FirstSalak(db.books.accounts, user);
    if salak.Some? {
      PurchaseIsLocal(db, mid, g, user, salak.value, db.goals[g].Available(), now);
    }
  }

  predicate SameAnswer(one: Outcome<Bought>, other: Outcome<Bought>) {
    (one.Done? && other.Done?) || (one.Refused? && other.Refused? && one.error == other.error)
  }

  lemma {:induction false} PurchaseIsLocal(db: Db, mid: Db, g: nat, user: nat, salak: nat, amount: int, now: Stamp)
    requires Tables(db) && Tables(mid) && g < |db.goals| && |mid.goals| == |db.goals| && mid.goals[g] == db.goals[g]
    requires db.goals[g].account < |db.books.accounts| && db.goals[g].product < |db.products|
    requires mid.products == db.products && SameHolders(db.books.accounts, mid.books.accounts)
    requires ActiveGoal(db.goals, db.goals[g].account) == ActiveGoal(mid.goals, db.goals[g].account) == Some(g)
    requires mid.books.accounts[db.goals[g].account].balance == db.books.accounts[db.goals[g].account].balance
    requires mid.cursors[db.goals[g].product] == db.cursors[db.goals[g].product]
    ensures SameAnswer(BuyFromGoal(mid, user, db.goals[g].account, salak, amount, true, now),
                       BuyFromGoal(db, user, db.goals[g].account, salak, amount, true, now))
  {
    hide Steps.Purchased, Converted, ActiveGoal;
  }

  lemma {:induction false} SameFirstSalak(accounts: seq<Account>, accounts': seq<Account>, user: nat)
    requires SameHolders(accounts, accounts')
    ensures FirstSalak(accounts, user) == FirstSalak(accounts', user)
  {
    if accounts != [] {
      var n := |accounts| - 1;
      SameFirstSalak(accounts[..n], accounts'[..n], user);
    }
  }

  /** What an attempt writes, but for the ids it draws: the goal's row, the cash
      left in its account, the product's cursor, and what it adds to the
      holdings, the log and the ledger. */
  datatype Writes = Writes(goal: Goal, cash: int, cursor: Tickets.Cursor,
                           minted: seq<Holding>, logged: seq<Row>, posted: seq<Posting>)

  datatype Posting = Posting(account: nat, debit: bool, amount: int, refType: RefType, createdAt: Stamp)

  function Anonymous(rows: seq<Row>): seq<Row> {
    seq(|rows|, i requires 0 <= i < |rows| => rows[i].(id := 0, holding := None))
  }

  function Postings(entries: seq<Entry>): seq<Posting> {
    seq(|entries|, i requires 0 <= i < |entries| =>
      var e := entries[i];
      Posting(e.account, e.debit, e.amount, e.refType, e.createdAt))
  }

  /** Defined where the logs only grew and the goal is still there. */
  predicate Follows(db: Db, after: Db, g: nat) {
    && g < |after.goals| && after.goals[g].account < |after.books.accounts| && after.goals[g].product < |after.cursors|
    && |db.holdings| <= |after.holdings| && |db.rows| <= |after.rows| && |db.books.ledger| <= |after.books.ledger|
  }

  function WritesOf(db: Db, after: Db, g: nat): Writes
    requires Follows(db, after, g)
  {
    var goal := after.goals[g];
    Writes(goal, after.books.accounts[goal.account].balance, after.cursors[goal.product],
           after.holdings[|db.holdings|..], Anonymous(after.rows[|db.rows|..]),
               Postings(after.books.ledger[|db.books.ledger|..]))
  }

  /** A purchase as a function of the goal's row, its cash and the minted holding. */
  function WholePurchase(goal: Goal, g: nat, cash: int, salak: nat, holding: Holding, next: Tickets.Cursor,
          now: Stamp): Writes {
    var amount := goal.Available();
    Writes(ConvertedGoal(goal, amount), cash - amount, next, [holding],
           [Row(0, BuySalakRow, amount, goal.account, g, None, None, Some(true), now)],
           [Posting(goal.account, true, amount, BuySalakRef, now), Posting(salak, false, amount, BuySalakRef, now)])
  }

  lemma {:induction false} PurchaseLeaves(db: Db, g: nat, now: Stamp)
    requires Tables(db) && g < |db.goals| && GoalLaw(db.goals[g]) && db.goals[g].active && db.goals[g].reachedAt.Some?
    requires db.goals[g].account < |db.books.accounts| && ActiveGoal(db.goals, db.goals[g].account) == Some(g)
    requires ProcessGoal(db, g, db.goals[g], now).1 == Purchased
    ensures db.goals[g].product < |db.products|
    ensures var goal := db.goals[g];
            var salak := FirstSalak(db.books.accounts, db.books.accounts[goal.account].user);
            && salak.Some? && Mint(db, salak.value, goal.product, goal.Available(), now).Success?
            && var (holding, next) := Mint(db, salak.value, goal.product, goal.Available(), now).value;
               Follows(db, ProcessGoal(db, g, goal, now).0, g) &&
               WritesOf(db, ProcessGoal(db, g, goal, now).0, g) ==
               WholePurchase(goal, g, db.books.accounts[goal.account].balance, salak.value, holding, next, now)
  {
    var goal := db.goals[g];
    var user := db.books.accounts[goal.account].user;
    var salak := FirstSalak(db.books.accounts, user).value;
    var h := BuyGuards(db, user, goal.account, salak, goal.Available(), true, now);
    BoughtLeaves(db, goal.account, salak, g, goal.Available(), now);
  }

  lemma {:induction false} BoughtLeaves(db: Db, kapook: nat, salak: nat, g: nat, amount: int, now: Stamp)
    requires BuyOk(db, kapook, salak, g, amount, now) && amount == db.goals[g].Available()
    ensures var (holding, next) := Mint(db, salak, db.goals[g].product, amount, now).value;
            var after := BoughtDb(db, kapook, salak, g, amount, true, now);
            && Follows(db, after, g)
            && WritesOf(db, after, g) ==
               WholePurchase(db.goals[g], g, db.books.accounts[kapook].balance, salak, holding, next, now)
  {
    hide Mint;
    BoughtShape(db, kapook, salak, g, amount, true, now);
    TransferEffect(db.books, kapook, salak, amount, amount, BuySalakRef, db.nextId, Some(|db.holdings|), now);
    var after := BoughtDb(db, kapook, salak, g, amount, true, now);
    assert after.rows[|db.rows|..] == [BuyingRow(db, kapook, g, amount, true, now)];
    assert after.books.ledger[|db.books.ledger|..] == [
      DebitEntry(db.books, kapook, amount, BuySalakRef, db.nextId, Some(|db.holdings|), now),
      CreditEntry(db.books, salak, amount, BuySalakRef, db.nextId, Some(|db.holdings|), now)];
  }

  /** An attempt that does not buy writes only what its outcome says to the row. */
  lemma {:induction false} BookkeepingLeaves(db: Db, g: nat, now: Stamp)
    requires Tables(db) && g < |db.goals| && db.goals[g].account < |db.books.accounts| &&
             db.goals[g].product < |db.products|
    requires ProcessGoal(db, g, db.goals[g], now).1 != Purchased
    ensures var (after, attempt) := ProcessGoal(db, g, db.goals[g], now);
            var goal := db.goals[g];
            var goal' := if attempt.Failed? then FailedGoal(goal, attempt.error, now)
                         else goal.(deferredUntil := DrawDays.NextAvailable(db.products[goal.product].drawDays,
                             Day(now)));
            && Follows(db, after, g)
            && WritesOf(db, after, g) ==
               Writes(goal', db.books.accounts[goal.account].balance, db.cursors[goal.product], [], [], [])
  {
    BookkeepingOnly(db, g, db.goals[g], now);
    if ProcessGoal(db, g, db.goals[g], now).1 == Deferred {
      DeferralWaits(db, g, db.goals[g], now, now, 0);
    }
  }

  /** Where an attempt writes the same: it depends only on its own goal, the
      account's cash and the product's cursor. */
  lemma {:induction false} WritesAreLocal(db: Db, mid: Db, g: nat, now: Stamp)
    requires Tables(db) && Tables(mid) && g < |db.goals| && |mid.goals| == |db.goals| && mid.goals[g] == db.goals[g]
    requires db.goals[g].account < |db.books.accounts| && db.goals[g].product < |db.products|
    requires GoalLaw(db.goals[g]) && db.goals[g].active && db.goals[g].reachedAt.Some?
    requires mid.products == db.products && SameHolders(db.books.accounts, mid.books.accounts)
    requires ActiveGoal(db.goals, db.goals[g].account) == ActiveGoal(mid.goals, db.goals[g].account) == Some(g)
    requires mid.books.accounts[db.goals[g].account].balance == db.books.accounts[db.goals[g].account].balance
    requires mid.cursors[db.goals[g].product] == db.cursors[db.goals[g].product]
    ensures SameWrites(db, mid, g, now)
  {
    hide ProcessGoal, Mint, Follows, WritesOf;
    AttemptIsLocal(db, mid, g, now);
    var goal := db.goals[g];
    SameFirstSalak(db.books.accounts, mid.books.accounts, db.books.accounts[goal.account].user);
    if ProcessGoal(db, g, goal, now).1 == Purchased {
      PurchaseLeaves(db, g, now);
      PurchaseLeaves(mid, g, now);
      SameMint(db, mid, FirstSalak(db.books.accounts, db.books.accounts[goal.account].user).value, goal.product,
          goal.Available(), now);
    } else {
      BookkeepingLeaves(db, g, now);
      BookkeepingLeaves(mid, g, now);
    }
  }

  lemma {:induction false} SameMint(db: Db, mid: Db, salak: nat, product: nat, amount: int, now: Stamp)
    requires Tables(db) && Tables(mid) && product < |db.products| && mid.products == db.products
    requires mid.cursors[product] == db.cursors[product]
    ensures Mint(mid, salak, product, amount, now) == Mint(db, salak, product, amount, now)
  {}

  /** The attempt on goal `g` has the same outcome on both databases, and writes the same. */
  ghost predicate SameWrites(db: Db, mid: Db, g: nat, now: Stamp)
    requires Tables(db) && Tables(mid) && g < |db.goals| && g < |mid.goals|
    requires db.goals[g].account < |db.books.accounts| && db.goals[g].account < |mid.books.accounts|
  {
    var (alone, outcome) := ProcessGoal(db, g, db.goals[g], now);
    var (after, attempt) := ProcessGoal(mid, g, db.goals[g], now);
    && attempt == outcome && Follows(db, alone, g) && Follows(mid, after, g)
    && WritesOf(mid, after, g) == WritesOf(db, alone, g)
  }

  lemma {:induction false} SameSituation(db: Db, mid: Db, g: nat)
    requires GoalsLaw(db.goals, db.books.accounts, db.products, db.clock) &&
             CashLaw(db.goals, db.books.accounts, db.rows)
    requires GoalsLaw(mid.goals, mid.books.accounts, mid.products, mid.clock) &&
             CashLaw(mid.goals, mid.books.accounts, mid.rows)
    requires g < |db.goals| && g < |mid.goals| && mid.goals[g] == db.goals[g] && db.goals[g].active
    requires Sum(mid.rows, BoughtIn(g)) == Sum(db.rows, BoughtIn(g))
    ensures db.goals[g].account < |db.books.accounts| && db.goals[g].account < |mid.books.accounts|
    ensures db.goals[g].product < |db.products|
    ensures ActiveGoal(db.goals, db.goals[g].account) == ActiveGoal(mid.goals, db.goals[g].account) == Some(g)
    ensures mid.books.accounts[db.goals[g].account].balance == db.books.accounts[db.goals[g].account].balance
  {
    GoalFacts(db, g);
    GoalFacts(mid, g);
  }

  /** The pass's `k`-th step is the attempt on its goal, which has the outcome,
      and writes what, it would have on the database the pass started from, had
      only the ticket cursors stood where the earlier goals left them. */
  ghost predicate Isolated(db: Db, claim: seq<int>, k: nat, now: Stamp)
    requires Tables(db) && Claimable(db, claim) && k < |claim|
  {
    var (mid, attempts) := Pass(db, claim[..k], now);
    var g := claim[k];
    var (after, attempt) := ProcessGoal(mid, g, db.goals[g], now);
    && Pass(db, claim[..k + 1], now) == (after, attempts + [attempt]) && Pass(db, claim, now).1[k] == attempt
    && SameWrites(db.(cursors := mid.cursors), mid, g, now)
  }

  lemma {:induction false} PassIsIsolated(db: Db, claim: seq<int>, k: nat, now: Stamp)
    requires Tables(db) && Claimable(db, claim) && k < |claim|
    requires Inv(db) && Later(db, now) && Claimed(db.goals, claim)
    ensures Isolated(db, claim, k, now)
  {
    hide BooksLaw, AccountsLaw, ReferenceLaw, GoalsLaw, RowsLaw, CashLaw, SalakLaw, PaidOnceLaw, HoldingsLaw, FeeLaw;
    hide ProcessGoal, SameWrites;
    var mid, g := Pass(db, claim[..k], now).0, claim[k];
    assert claim[..k + 1][..k] == claim[..k];
    PassPrefix(db, claim, k, now);
    PassMidway(db, claim[..k], now);
    NotYetDone(claim[..k + 1]);
    PassKeepsPurchases(db, claim[..k], now, g);
    SameSituation(db, mid, g);
    GoalFacts(db, g);
    WritesAreLocal(db.(cursors := mid.cursors), mid, g, now);
  }

  lemma {:induction false} PassPrefix(db: Db, claim: seq<int>, k: nat, now: Stamp)
    requires Tables(db) && Claimable(db, claim) && k < |claim|
    ensures Pass(db, claim, now).1[k] == ProcessGoal(Pass(db, claim[..k], now).0, claim[k], db.goals[claim[k]], now).1
  {
    hide ProcessGoal;
    var n := |claim| - 1;
    if k < n {
      PassPrefix(db, claim[..n], k, now);
      assert claim[..n][..k] == claim[..k];
    }
  }

  /** Processing other goals leaves what this goal has bought alone. */
  lemma {:induction false} PassKeepsPurchases(db: Db, claim: seq<int>, now: Stamp, g: nat)
    requires Inv(db) && Tables(db) && Later(db, now) && Claimed(db.goals, claim) && Claimable(db, claim)
    requires g !in Members(claim)
    ensures Sum(Pass(db, claim, now).0.rows, BoughtIn(g)) == Sum(db.rows, BoughtIn(g))
  {
    hide Inv, ProcessGoal;
    if claim != [] {
      var n := |claim| - 1;
      assert claim[..n] + [claim[n]] == claim;
      MembersSnoc(claim[..n], claim[n]);
      PassKeepsPurchases(db, claim[..n], now, g);
      PassMidway(db, claim[..n], now);
      NotYetDone(claim);
      assert claim[n] != g by {
        assert claim[n] in Members(claim);
      }
      ProcessKeepsPurchases(Pass(db, claim[..n], now).0, claim[n], now, g);
    }
  }

  lemma {:induction false} ProcessKeepsPurchases(mid: Db, g: nat, now: Stamp, other: nat)
    requires Inv(mid) && Tables(mid) && g < |mid.goals| && mid.goals[g].active && mid.goals[g].reachedAt.Some? &&
             g != other
    ensures mid.goals[g].account < |mid.books.accounts|
    ensures Sum(ProcessGoal(mid, g, mid.goals[g], now).0.rows, BoughtIn(other)) == Sum(mid.rows, BoughtIn(other))
  {
    GoalFacts(mid, g);
    if ProcessGoal(mid, g, mid.goals[g], now).1 == Purchased {
      PurchaseShape(mid, g, now);
      RowAddsBuys(mid.rows, BuyingRow(mid, mid.goals[g].account, g, mid.goals[g].Available(), true, now), other);
    } else {
      BookkeepingOnly(mid, g, mid.goals[g], now);
    }
  }

  // ---- draining

  /** What an attempt leaves of the goal's row. */
  ghost predicate RowAfter(goal: Goal, goal': Goal, attempt: Attempt, now: Stamp) {
    match attempt
    case Purchased => !goal'.active && goal'.saving == goal'.salak && goal'.reachedAt.Some?
    case Deferred => exists until :: until > Day(now) && goal' == goal.(deferredUntil := Some(until))
    case Failed(e) => goal' == FailedGoal(goal, e, now)
  }

  lemma {:induction false} ProcessRow(mid: Db, g: nat, now: Stamp)
    requires Tables(mid) && g < |mid.goals| && GoalLaw(mid.goals[g]) && mid.goals[g].active &&
             mid.goals[g].reachedAt.Some?
    requires mid.goals[g].account < |mid.books.accounts| && ActiveGoal(mid.goals, mid.goals[g].account) == Some(g)
    ensures var (after, attempt) := ProcessGoal(mid, g, mid.goals[g], now);
            |after.goals| == |mid.goals| && RowAfter(mid.goals[g], after.goals[g], attempt, now)
  {
    if ProcessGoal(mid, g, mid.goals[g], now).1 == Purchased {
      PurchaseShape(mid, g, now);
    } else {
      BookkeepingOnly(mid, g, mid.goals[g], now);
    }
  }

  lemma {:induction false} PassRows(db: Db, claim: seq<int>, k: nat, now: Stamp)
    requires Tables(db) && Claimable(db, claim) && k < |claim|
    requires Inv(db) && Later(db, now) && Claimed(db.goals, claim)
    ensures RowAfter(db.goals[claim[k]], Pass(db, claim, now).0.goals[claim[k]], Pass(db, claim, now).1[k], now)
  {
    hide BooksLaw, AccountsLaw, ReferenceLaw, GoalsLaw, RowsLaw, CashLaw, SalakLaw, PaidOnceLaw, HoldingsLaw, FeeLaw;
    hide ProcessGoal, RowAfter, SameHolders, GoalLaw, Later;
    var n := |claim| - 1;
    var mid := Pass(db, claim[..n], now).0;
    PassMidway(db, claim[..n], now);
    NotYetDone(claim);
    var g := claim[n];
    GoalFacts(mid, g);
    if k < n {
      PassRows(db, claim[..n], k, now);
      ProcessLeavesOthers(mid, g, db.goals[g], now);
    } else {
      ProcessRow(mid, g, now);
    }
  }

  lemma {:induction false} DueAfter(goal: Goal, goal': Goal, attempt: Attempt, now: Stamp, countdown: int)
    requires Due(goal, now, countdown) && RowAfter(goal, goal', attempt, now)
    ensures Due(goal', now, countdown) <==> attempt.Failed?
  {}

  lemma {:induction false} ClaimIsClaimed(goals: seq<Goal>, now: Stamp, countdown: int, locked: set<int>, limit: nat,
          claim: seq<int>)
    requires IsClaim(goals, now, countdown, locked, limit, claim)
    ensures Claimed(goals, claim)
    ensures forall k :: 0 <= k < |claim| ==> claim[k] in DueGoals(goals, now, countdown) - locked
  {
    forall k | 0 <= k < |claim| ensures claim[k] in DueGoals(goals, now, countdown) - locked {
      assert claim[k] in Members(claim);
    }
  }

  /** A claim is of at most twenty due goals that nobody holds, all of them when
      there are fewer, and no goal is passed over for one reached after it. */
  lemma {:induction false} ClaimIsFair(goals: seq<Goal>, now: Stamp, countdown: int, locked: set<int>, claim: seq<int>,
          g: int)
    requires IsClaim(goals, now, countdown, locked, CLAIM_LIMIT, claim)
    requires 0 <= g < |goals| && Due(goals[g], now, countdown) && g !in locked && g !in Members(claim)
    ensures |claim| == 20
    ensures forall k :: 0 <= k < |claim| ==>
              && 0 <= claim[k] < |goals| && goals[claim[k]].reachedAt.Some? && claim[k] !in locked
              && Due(goals[claim[k]], now, countdown)
              && Instant(goals[claim[k]].reachedAt.value) <= Instant(goals[g].reachedAt.value)
    ensures forall k, l :: 0 <= k < l < |claim| ==>
              && goals[claim[k]].reachedAt.Some? && goals[claim[l]].reachedAt.Some?
              && Instant(goals[claim[k]].reachedAt.value) <= Instant(goals[claim[l]].reachedAt.value)
  {
    hide Due;
    ClaimIsClaimed(goals, now, countdown, locked, CLAIM_LIMIT, claim);
    assert g in DueGoals(goals, now, countdown) - locked - Members(claim);
    forall k | 0 <= k < |claim| ensures ReachedBy(goals, claim[k], g) && claim[k] in DueGoals(goals, now, countdown) {}
    forall k, l | 0 <= k < l < |claim| ensures ReachedBy(goals, claim[k], claim[l]) {}
  }

  /** The goals of a pass that were bought or deferred. */
  function Settled(claim: seq<int>, attempts: seq<Attempt>): set<int>
    requires |claim| == |attempts|
  {
    set k | 0 <= k < |claim| && !attempts[k].Failed? :: claim[k]
  }

  /** At a fixed clock a pass takes out of the due set exactly the goals it
      bought or deferred. */
  lemma {:induction false} PassShrinksDue(db: Db, claim: seq<int>, now: Stamp, countdown: int, locked: set<int>,
          limit: nat)
    requires Tables(db) && Claimable(db, claim)
    requires Inv(db) && Later(db, now) && IsClaim(db.goals, now, countdown, locked, limit, claim)
    ensures var (after, attempts) := Pass(db, claim, now);
            DueGoals(after.goals, now, countdown) == DueGoals(db.goals, now, countdown) - Settled(claim, attempts)
  {
    hide Inv, ProcessGoal, RowAfter, Due;
    var (after, attempts) := Pass(db, claim, now);
    ClaimIsClaimed(db.goals, now, countdown, locked, limit, claim);
    PassMidway(db, claim, now);
    forall g | 0 <= g < |db.goals|
      ensures Due(after.goals[g], now, countdown) <==>
              Due(db.goals[g], now, countdown) && g !in Settled(claim, attempts)
    {
      if g in Members(claim) {
        var k :| 0 <= k < |claim| && claim[k] == g;
        assert g in DueGoals(db.goals, now, countdown);
        PassRows(db, claim, k, now);
        DueAfter(db.goals[g], after.goals[g], attempts[k], now, countdown);
        if !attempts[k].Failed? {
          assert g in Settled(claim, attempts);
        }
      }
    }
  }

  ghost predicate NoneFailed(attempts: seq<Attempt>) {
    forall k :: 0 <= k < |attempts| ==> !attempts[k].Failed?
  }

  lemma {:induction false} DistinctSize(claim: seq<int>)
    requires Distinct(claim)
    ensures |Members(claim)| == |claim|
  {
    if claim == [] {
      assert Members(claim) == {};
    } else {
      var n := |claim| - 1;
      DistinctSize(claim[..n]);
      NotYetDone(claim);
      assert claim[..n] + [claim[n]] == claim;
      MembersSnoc(claim[..n], claim[n]);
    }
  }

  /** A pass without failures takes min(20, due) goals out of the due set. */
  lemma {:induction false} PassTakesABatch(db: Db, claim: seq<int>, now: Stamp, countdown: int)
    requires Tables(db) && Claimable(db, claim)
    requires Inv(db) && Later(db, now) && IsClaim(db.goals, now, countdown, {}, CLAIM_LIMIT, claim)
    requires NoneFailed(Pass(db, claim, now).1)
    ensures var n := |DueGoals(db.goals, now, countdown)|;
            |DueGoals(Pass(db, claim, now).0.goals, now, countdown)| == if n > 20 then n - 20 else 0
  {
    hide Inv, ProcessGoal, Due;
    var (after, attempts) := Pass(db, claim, now);
    var due := DueGoals(db.goals, now, countdown);
    PassShrinksDue(db, claim, now, countdown, {}, CLAIM_LIMIT);
    DistinctSize(claim);
    assert Settled(claim, attempts) == Members(claim);
    assert due - {} == due;
    SubsetSize(Members(claim), due);
  }

  lemma {:induction false} SubsetSize(a: set<int>, b: set<int>)
    requires a <= b
    ensures |b - a| == |b| - |a|
    ensures |a| == |b| ==> a == b
  {}

  // ---- the summary

  datatype Label = PurchasedLabel | DeferredLabel | FailedLabel

  function LabelOf(attempt: Attempt): Label {
    match attempt
    case Purchased => PurchasedLabel
    case Deferred => DeferredLabel
    case Failed(_) => FailedLabel
  }

  function CountOf(attempts: seq<Attempt>, o: Label): nat {
    if attempts == [] then 0
    else
      var n := |attempts| - 1;
      CountOf(attempts[..n], o) + (if LabelOf(attempts[n]) == o then 1 else 0)
  }

  method Count(attempts: seq<Attempt>, o: Label) returns (n: nat)
    ensures n == CountOf(attempts, o)
  {
    n := 0;
    for i := 0 to |attempts|
      invariant n == CountOf(attempts[..i], o)
    {
      assert attempts[..i + 1][..i] == attempts[..i];
      if LabelOf(attempts[i]) == o {
        n := n + 1;
      }
    }
    assert attempts[..|attempts|] == attempts;
  }

  lemma {:induction false} SettledSnoc(claim: seq<int>, attempts: seq<Attempt>)
    requires claim != [] && Distinct(claim) && |attempts| == |claim|
    ensures var n := |claim| - 1;
            var before := Settled(claim[..n], attempts[..n]);
            && claim[n] !in before
            && Settled(claim, attempts) == before + (if attempts[n].Failed? then {} else {claim[n]})
  {}

  lemma {:induction false} CountSnoc(attempts: seq<Attempt>, o: Label)
    requires attempts != []
    ensures var n := |attempts| - 1;
            CountOf(attempts, o) == CountOf(attempts[..n], o) + (if LabelOf(attempts[n]) == o then 1 else 0)
  {}

  lemma {:induction false} SettledSize(claim: seq<int>, attempts: seq<Attempt>)
    requires Distinct(claim) && |attempts| == |claim|
    ensures |Settled(claim, attempts)| == CountOf(attempts, PurchasedLabel) + CountOf(attempts, DeferredLabel)
    ensures |Settled(claim, attempts)| + CountOf(attempts, FailedLabel) == |claim|
  {
    if claim == [] {
      assert Settled(claim, attempts) == {};
    } else {
      hide Settled, CountOf, Distinct;
      var n := |claim| - 1;
      assert Distinct(claim[..n]) by { PrefixIsDistinct(claim, n); }
      SettledSize(claim[..n], attempts[..n]);
      SettledSnoc(claim, attempts);
      CountSnoc(attempts, PurchasedLabel);
      CountSnoc(attempts, DeferredLabel);
      CountSnoc(attempts, FailedLabel);
    }
  }

  lemma {:induction false} PrefixIsDistinct(claim: seq<int>, n: nat)
    requires Distinct(claim) && n <= |claim|
    ensures Distinct(claim[..n])
  {}

  /** The counts of a pass add up to what it claimed, and what it counts as
      purchased or deferred is exactly what left the due set. */
  lemma {:induction false} SummaryCountsWhatLeft(db: Db, claim: seq<int>, now: Stamp, countdown: int, locked: set<int>)
    requires Tables(db) && Claimable(db, claim)
    requires Inv(db) && Later(db, now) && IsClaim(db.goals, now, countdown, locked, CLAIM_LIMIT, claim)
    ensures var (after, attempts) := Pass(db, claim, now);
            var (purchased, deferred) := (CountOf(attempts, PurchasedLabel), CountOf(attempts, DeferredLabel));
            && purchased + deferred + CountOf(attempts, FailedLabel) == |claim|
            && |DueGoals(after.goals, now, countdown)| == |DueGoals(db.goals, now, countdown)| - purchased - deferred
  {
    hide Inv, ProcessGoal, Due, CountOf, Pass;
    var (after, attempts) := Pass(db, claim, now);
    PassShrinksDue(db, claim, now, countdown, locked, CLAIM_LIMIT);
    SettledSize(claim, attempts);
    assert Settled(claim, attempts) <= DueGoals(db.goals, now, countdown) by {
      ClaimIsClaimed(db.goals, now, countdown, locked, CLAIM_LIMIT, claim);
    }
    SubsetSize(Settled(claim, attempts), DueGoals(db.goals, now, countdown));
  }

  /** A run of passes at one instant, each on what the last one left. */
  ghost predicate Drains(states: seq<Db>, claims: seq<seq<int>>, now: Stamp, countdown: int) {
    && |states| == |claims| + 1
    && forall i :: 0 <= i < |claims| ==>
         && Tables(states[i]) && Claimable(states[i], claims[i])
         && IsClaim(states[i].goals, now, countdown, {}, CLAIM_LIMIT, claims[i])
         && NoneFailed(Pass(states[i], claims[i], now).1)
         && states[i + 1] == Pass(states[i], claims[i], now).0
  }

  /** With no failures, n due goals are gone after ceil(n / 20) passes. */
  lemma {:induction false} DueGoalsDrain(states: seq<Db>, claims: seq<seq<int>>, now: Stamp, countdown: int)
    requires Drains(states, claims, now, countdown) && Inv(states[0]) && Later(states[0], now)
    ensures Inv(states[|claims|]) && Later(states[|claims|], now)
    ensures var n := |DueGoals(states[0].goals, now, countdown)|;
            var left := n - 20 * |claims|;
            |DueGoals(states[|claims|].goals, now, countdown)| == if left > 0 then left else 0
  {
    hide Inv, Due, IsClaim, Pass;
    if claims != [] {
      var k := |claims| - 1;
      DueGoalsDrain(states[..k + 1], claims[..k], now, countdown);
      ClaimIsClaimed(states[k].goals, now, countdown, {}, CLAIM_LIMIT, claims[k]);
      PassMidway(states[k], claims[k], now);
      PassTakesABatch(states[k], claims[k], now, countdown);
    }
  }
}
