/** Any number of worker passes and customer calls interleaved, attempt by
    attempt. A pass claims by locking due rows that nobody holds; each attempt
    reads what is committed then, under the pass's own writes, and what it buys
    stays locked; its commit publishes what it wrote. A call that would write a
    locked row waits. A settlement is one such call, which module SettleRaces
    justifies. */
module WorkerRaces {
  import opened Outcomes
  import opened Calendar
  import opened Sums
  import opened Database
  import opened Steps
  import opened Laws
  import opened StepsKept
  import opened PurchasesKept
  import opened Worker
  import opened Runs
  import opened LockOrder
  import opened Publishing
  import Tickets

  /** What is committed, and how far each pass is. */
  datatype System = System(db: Db, passes: seq<Progress>)

  datatype Move =
    | Claim(pass: nat, claim: seq<int>, countdown: int)
    | Try(pass: nat, write: Write)
    | Commit(pass: nat)
    | Abort(pass: nat)
    | Call(op: Op)

  function Locked(passes: seq<Progress>): set<int> {
    set p, i | 0 <= p < |passes| && 0 <= i < |passes[p].claim| :: passes[p].claim[i]
  }

  /** What pass `p` sees: its own writes on what is committed. */
  function View(s: System, p: nat, now: Stamp): Db
    requires p < |s.passes| && AllFit(s.db, s.passes[p].claim, s.passes[p].writes)
  {
    Publish(s.db, s.passes[p].claim, s.passes[p].writes, now)
  }

  /** The goal whose turn it is. */
  predicate HasTurn(s: System, p: nat) {
    && p < |s.passes| && |s.passes[p].writes| < |s.passes[p].claim|
    && AllFit(s.db, s.passes[p].claim, s.passes[p].writes)
    && 0 <= s.passes[p].claim[|s.passes[p].writes|] < |s.db.goals|
  }

  function Turn(s: System, p: nat): nat
    requires HasTurn(s, p)
  {
    s.passes[p].claim[|s.passes[p].writes|]
  }

  ghost predicate Tried(s: System, p: nat, w: Write, now: Stamp) {
    && HasTurn(s, p)
    && (forall q, l :: 0 <= q < |s.passes| && q != p && l in TakenBy(w) ==> !Holds(s.passes[q], l))
    && Tables(View(s, p, now)) && View(s, p, now).goals[Turn(s, p)].account < |View(s, p, now).books.accounts|
    && Attempted(View(s, p, now), Turn(s, p), now, w)
  }

  ghost predicate Next(s: System, m: Move, now: Stamp, s': System) {
    && Ready(s.db) && Later(s.db, now)
    && match m
       case Claim(p, claim, countdown) =>
         && p < |s.passes| && s.passes[p] == IDLE
         && IsClaim(s.db.goals, now, countdown, Locked(s.passes), CLAIM_LIMIT, claim)
         && s' == System(s.db, s.passes[p := Progress(claim, [])])
       case Try(p, w) =>
         && Tried(s, p, w, now)
         && s' == System(s.db, s.passes[p := Progress(s.passes[p].claim, s.passes[p].writes + [w])])
       case Commit(p) =>
         && p < |s.passes| && |s.passes[p].writes| == |s.passes[p].claim|
         && AllFit(s.db, s.passes[p].claim, s.passes[p].writes)
         && s' == System(View(s, p, now), s.passes[p := IDLE])
       case Abort(p) => p < |s.passes| && s' == s.(passes := s.passes[p := IDLE])
       case Call(op) =>
         && !op.OpWorkerPass?
         && (forall p :: 0 <= p < |s.passes| ==> LeavesHeld(s.db, Apply(s.db, op, now), s.passes[p]))
         && s' == s.(db := Apply(s.db, op, now))
  }

  /** No two passes hold the same row. */
  ghost predicate PassesApart(passes: seq<Progress>) {
    forall p, q, l :: 0 <= p < |passes| && 0 <= q < |passes| && p != q && Holds(passes[p], l) ==> !Holds(passes[q], l)
  }

  function AutoBuys(g: nat): Row -> int {
    (r: Row) => if r.kind == BuySalakRow && r.goal == g && r.automatic == Some(true) then 1 else 0
  }

  /** No goal has been bought automatically twice, and one that has is closed. */
  ghost predicate OnceLaw(db: Db) {
    && (forall j :: 0 <= j < |db.rows| ==> db.rows[j].goal < |db.goals|)
    && (forall g: nat :: g < |db.goals| ==>
          0 <= Sum(db.rows, AutoBuys(g)) <= 1 && (db.goals[g].active ==> Sum(db.rows, AutoBuys(g)) == 0))
  }

  ghost predicate Standing(db: Db, pass: Progress) {
    Claimed(db.goals, pass.claim) && AllStand(db, pass.claim, pass.writes)
  }

  ghost predicate Safe(s: System) {
    && Inv(s.db) && OnceLaw(s.db) && PassesApart(s.passes)
    && forall p :: 0 <= p < |s.passes| ==> Standing(s.db, s.passes[p])
  }

  // ---- the once law

  lemma {:induction false} MoveKeepsOnce(db: Db, db': Db, row: Row)
    requires OnceLaw(db) && Grows(db, db') && (db'.rows == db.rows || db'.rows == db.rows + [row])
    requires row.automatic != Some(true) && row.goal < |db'.goals|
    ensures OnceLaw(db')
  {
    forall g: nat | g < |db'.goals|
      ensures 0 <= Sum(db'.rows, AutoBuys(g)) <= 1 && (db'.goals[g].active ==> Sum(db'.rows, AutoBuys(g)) == 0)
    {
      SumSnoc(db.rows, row, AutoBuys(g));
      if g >= |db.goals| {
        SumZero(db.rows, AutoBuys(g));
      } else {
        assert GoalGrows(db.goals[g], db'.goals[g]);
      }
    }
  }

  lemma {:induction false} CallAddsNoAutomaticRow(db: Db, op: Op, now: Stamp) returns (row: Row)
    requires Ready(db) && !op.OpWorkerPass? && Inv(db)
    ensures Apply(db, op, now).rows == db.rows || Apply(db, op, now).rows == db.rows + [row]
    ensures row.automatic != Some(true) && (Apply(db, op, now).rows == db.rows || row.goal < |Apply(db, op, now).goals|)
  {
    hide Inv, Mint, ValidatePurchase, CheckAccount;
    var db' := Apply(db, op, now);
    row := Row(0, DepositRow, 0, 0, 0, None, None, None, now);
    if |db'.rows| > |db.rows| {
      row := db'.rows[|db.rows|];
    }
  }

  lemma {:induction false} CallKeepsOnce(db: Db, op: Op, now: Stamp)
    requires Ready(db) && Inv(db) && Later(db, now) && OnceLaw(db) && !op.OpWorkerPass?
    ensures OnceLaw(Apply(db, op, now))
  {
    var row := CallAddsNoAutomaticRow(db, op, now);
    ApplyGrows(db, op, now);
    hide Inv, Apply, OnceLaw, Grows;
    if Apply(db, op, now).rows == db.rows {
      RowlessKeepsOnce(db, Apply(db, op, now));
    } else {
      MoveKeepsOnce(db, Apply(db, op, now), row);
    }
  }

  lemma {:induction false} RowlessKeepsOnce(db: Db, db': Db)
    requires OnceLaw(db) && Grows(db, db') && db'.rows == db.rows
    ensures OnceLaw(db')
  {
    forall g: nat | g < |db'.goals|
      ensures 0 <= Sum(db'.rows, AutoBuys(g)) <= 1 && (db'.goals[g].active ==> Sum(db'.rows, AutoBuys(g)) == 0)
    {
      if g >= |db.goals| {
        SumZero(db.rows, AutoBuys(g));
      } else {
        assert GoalGrows(db.goals[g], db'.goals[g]);
      }
    }
  }

  lemma {:induction false} Publish1Rows(db: Db, g: nat, w: Write, now: Stamp)
    requires g < |db.goals| && Stands(db, CursorOf(db.cursors, w), g, w)
    ensures var db' := Publish1(db, g, w, now);
            && |db'.goals| == |db.goals| && (forall i :: 0 <= i < |db.goals| && i != g ==> db'.goals[i] == db.goals[i])
            && (w.Keeps? ==> db'.rows == db.rows && db'.goals[g].active == db.goals[g].active)
            && (w.Buys? ==>
                  && db'.rows == db.rows + [BuyingRow(db, w.goal.account, g, w.goal.Available(), true, now)]
                  && db'.holdings == db.holdings + [SoldHolding(w, now)]
                  && db'.goals[g] == ConvertedGoal(db.goals[g], db.goals[g].Available()))
  {}

  /** A purchase of a reached goal closes it, and is its first automatic one. */
  lemma {:induction false} Publish1KeepsOnce(db: Db, g: nat, w: Write, now: Stamp)
    requires OnceLaw(db) && g < |db.goals| && Stands(db, CursorOf(db.cursors, w), g, w)
    requires GoalLaw(db.goals[g]) && db.goals[g].active && db.goals[g].reachedAt.Some?
    ensures var db' := Publish1(db, g, w, now);
            && |db'.goals| == |db.goals| && OnceLaw(db')
            && forall i: nat :: i < |db.goals| ==>
                 Sum(db'.rows, AutoBuys(i)) == Sum(db.rows, AutoBuys(i)) + (if i == g && w.Buys? then 1 else 0)
  {
    hide Publish1, Stands;
    Publish1Rows(db, g, w, now);
    if w.Buys? {
      var row := BuyingRow(db, w.goal.account, g, w.goal.Available(), true, now);
      forall i: nat | i < |db.goals|
        ensures Sum(db.rows + [row], AutoBuys(i)) == Sum(db.rows, AutoBuys(i)) + (if i == g then 1 else 0)
      {
        SumSnoc(db.rows, row, AutoBuys(i));
      }
    }
  }

  function Bit(w: Write): int {
    if w.Buys? then 1 else 0
  }

  /** Each write of the pass is a purchase or not, and the log shows it. */
  ghost predicate Logged(db: Db, claim: seq<int>, writes: seq<Write>) {
    |writes| <= |claim| &&
    forall k :: 0 <= k < |writes| ==> claim[k] >= 0 && Sum(db.rows, AutoBuys(claim[k])) == Bit(writes[k])
  }

  /** The purchases of a pass, and nothing else, are on the log once published. */
  lemma {:induction false} PublishKeepsOnce(db: Db, claim: seq<int>, writes: seq<Write>, now: Stamp)
    requires Inv(db) && Tables(db) && Later(db, now) && Standing(db, Progress(claim, writes)) && OnceLaw(db)
    requires AllFit(db, claim, writes)
    ensures OnceLaw(Publish(db, claim, writes, now)) && Logged(Publish(db, claim, writes, now), claim, writes)
  {
    hide Inv, OnceLaw, Stands, Publish1, AutoBuys, Bit, Midway, CashWaits, Logged, Claimed;
    if writes == [] {
      NothingLogged(db, claim);
    } else {
      var n := |writes| - 1;
      AllStandPrefix(db, claim, writes);
      PublishKeepsOnce(db, claim, writes[..n], now);
      PublishMidway(db, claim, writes[..n], now);
      NextKeepsOnce(db, Publish(db, claim, writes[..n], now), claim, writes, now);
    }
  }

  lemma {:induction false} NothingLogged(db: Db, claim: seq<int>)
    ensures Logged(db, claim, [])
  {}

  lemma {:induction false} NextKeepsOnce(db: Db, mid: Db, claim: seq<int>, writes: seq<Write>, now: Stamp)
    requires writes != [] && |writes| <= |claim| && 0 <= claim[|writes| - 1] < |db.goals| == |mid.goals|
    requires Inv(db) && Claimed(db.goals, claim) && OnceLaw(mid)
    requires Midway(db, mid, claim[..|writes| - 1], now) && CashWaits(db, mid, claim[..|writes| - 1])
    requires Logged(mid, claim, writes[..|writes| - 1]) && |mid.cursors| == |db.cursors|
    requires Fits(mid, writes[|writes| - 1])
    requires Stands(db, CursorOf(mid.cursors, writes[|writes| - 1]), claim[|writes| - 1], writes[|writes| - 1])
    ensures var after := Publish1(mid, claim[|writes| - 1], writes[|writes| - 1], now);
            OnceLaw(after) && Logged(after, claim, writes)
  {
    hide BooksLaw, AccountsLaw, ReferenceLaw, RowsLaw, CashLaw, SalakLaw, PaidOnceLaw, HoldingsLaw, FeeLaw;
    hide Stands, Publish1, CashWaits, AutoBuys;
    var n := |writes| - 1;
    StandsInTurn(db, mid, claim, n, writes[n], now);
    assert GoalLaw(mid.goals[claim[n]]) && mid.goals[claim[n]] == db.goals[claim[n]];
    Publish1KeepsOnce(mid, claim[n], writes[n], now);
    var after := Publish1(mid, claim[n], writes[n], now);
    forall k | 0 <= k < |writes| ensures claim[k] >= 0 && Sum(after.rows, AutoBuys(claim[k])) == Bit(writes[k]) {
      assert k < n ==> Sum(mid.rows, AutoBuys(claim[k])) == Bit(writes[..n][k]);
    }
  }

  // ---- every move is safe

  lemma {:induction false} ClaimStaysApart(goals: seq<Goal>, passes: seq<Progress>, p: nat, now: Stamp,
          countdown: int, claim: seq<int>)
    requires PassesApart(passes) && p < |passes|
    requires IsClaim(goals, now, countdown, Locked(passes), CLAIM_LIMIT, claim)
    ensures PassesApart(passes[p := Progress(claim, [])])
  {
    hide IsClaim;
    ClaimIsClaimed(goals, now, countdown, Locked(passes), CLAIM_LIMIT, claim);
    forall q, l | 0 <= q < |passes| && Holds(Progress(claim, []), l) ensures !Holds(passes[q], l) {}
  }

  lemma {:induction false} ClaimStands(db: Db, claim: seq<int>)
    requires Claimed(db.goals, claim)
    ensures Standing(db, Progress(claim, []))
  {}

  lemma {:induction false} HoldsSnoc(claim: seq<int>, writes: seq<Write>, w: Write, l: Lock)
    ensures Holds(Progress(claim, writes + [w]), l) <==> Holds(Progress(claim, writes), l) || l in TakenBy(w)
  {
    hide TakenBy;
    if l in TakenBy(w) {
      assert (writes + [w])[|writes|] == w;
    }
    if k :| 0 <= k < |writes| && l in TakenBy(writes[k]) {
      assert (writes + [w])[k] == writes[k];
    }
  }

  lemma {:induction false} TryStaysApart(s: System, p: nat, w: Write, now: Stamp)
    requires PassesApart(s.passes) && Tried(s, p, w, now)
    ensures PassesApart(s.passes[p := Progress(s.passes[p].claim, s.passes[p].writes + [w])])
  {
    hide TakenBy, Attempted;
    var pass := Progress(s.passes[p].claim, s.passes[p].writes + [w]);
    forall q, l | 0 <= q < |s.passes| && q != p && Holds(pass, l) ensures !Holds(s.passes[q], l) {
      HoldsSnoc(s.passes[p].claim, s.passes[p].writes, w, l);
    }
  }

  /** What an attempt wrote stands on what is committed. */
  lemma {:induction false} TryStands(s: System, p: nat, w: Write, now: Stamp)
    requires Inv(s.db) && Tables(s.db) && Later(s.db, now) && Tried(s, p, w, now) && Standing(s.db, s.passes[p])
    ensures Standing(s.db, Progress(s.passes[p].claim, s.passes[p].writes + [w]))
    ensures Inv(View(s, p, now)) && View(s, p, now).goals[Turn(s, p)] == s.db.goals[Turn(s, p)]
  {
    hide Inv, Stands, Attempted;
    var pass := s.passes[p];
    var n := |pass.writes|;
    var view, g := View(s, p, now), Turn(s, p);
    PublishMidway(s.db, pass.claim, pass.writes, now);
    assert pass.claim[..n + 1][..n] == pass.claim[..n];
    NotYetDone(pass.claim[..n + 1]);
    AttemptIsWritten(view, g, now, w);
    StoodBefore(s.db, view, pass.claim[..n], g, w);
    AllStandSnoc(s.db, pass.claim, pass.writes, w);
  }

  lemma {:induction false} StoodBefore(db: Db, view: Db, done: seq<int>, g: nat, w: Write)
    requires CashWaits(db, view, done) && |view.cursors| == |db.cursors| && g < |db.goals| && g !in Members(done)
    requires g < |view.goals| && view.goals[g] == db.goals[g] && db.goals[g].active
    requires Stands(view, CursorOf(view.cursors, w), g, w)
    ensures Stands(db, CursorOf(view.cursors, w), g, w)
  {}

  lemma {:induction false} AllStandSnoc(db: Db, claim: seq<int>, writes: seq<Write>, w: Write)
    requires AllStand(db, claim, writes) && |writes| < |claim| && claim[|writes|] >= 0
    requires Stands(db, CursorOf(CursorsAfter(db.cursors, writes), w), claim[|writes|], w)
    ensures AllStand(db, claim, writes + [w])
  {
    hide Stands;
    var all := writes + [w];
    forall k | 0 <= k < |all|
      ensures Stands(db, CursorOf(CursorsAfter(db.cursors, all[..k]), all[k]), claim[k], all[k])
    {
      assert all[..k] == if k < |writes| then writes[..k] else writes;
    }
  }

  lemma {:induction false} StandsThrough(db: Db, db': Db, pass: Progress)
    requires Standing(db, pass) && LeavesHeld(db, db', pass) && |db.goals| <= |db'.goals|
    ensures Standing(db', pass)
  {
    hide AllStand;
    StillStands(db, db', pass);
    forall i | 0 <= i < |pass.claim| ensures pass.claim[i] >= 0 && db'.goals[pass.claim[i]] == db.goals[pass.claim[i]] {
      assert Holds(pass, GoalLock(pass.claim[i])) && SameRow(db, db', GoalLock(pass.claim[i]));
    }
  }

  lemma {:induction false} TakenIsTagged(db: Db, cursor: Tickets.Cursor, g: nat, w: Write, l: Lock)
    requires Stands(db, cursor, g, w) && l in TakenBy(w)
    ensures Tagged(db, l)
  {}

  lemma {:induction false} HeldIsTagged(db: Db, pass: Progress, l: Lock)
    requires AllStand(db, pass.claim, pass.writes) && Holds(pass, l)
    ensures Tagged(db, l)
  {
    hide Stands, TakenBy, CursorOf, CursorsAfter;
    if !l.GoalLock? {
      var k :| 0 <= k < |pass.writes| && l in TakenBy(pass.writes[k]);
      var cursor := CursorOf(CursorsAfter(db.cursors, pass.writes[..k]), pass.writes[k]);
      assert Stands(db, cursor, pass.claim[k], pass.writes[k]);
      TakenIsTagged(db, cursor, pass.claim[k], pass.writes[k], l);
    }
  }

  /** The commit of one pass changes nothing another holds. */
  lemma {:induction false} CommitLeavesHeld(s: System, p: nat, q: nat, now: Stamp)
    requires p < |s.passes| && q < |s.passes| && p != q && PassesApart(s.passes)
    requires Standing(s.db, s.passes[p]) && Standing(s.db, s.passes[q])
    requires AllFit(s.db, s.passes[p].claim, s.passes[p].writes)
    ensures LeavesHeld(s.db, View(s, p, now), s.passes[q])
  {
    hide Holds, AllFit, AllStand, SameRow;
    forall l | Holds(s.passes[q], l) ensures SameRow(s.db, View(s, p, now), l) {
      HeldIsTagged(s.db, s.passes[q], l);
      PublishLeaves(s.db, s.passes[p].claim, s.passes[p].writes, now, l);
    }
  }

  lemma {:induction false} IdleStaysApart(passes: seq<Progress>, p: nat)
    requires PassesApart(passes) && p < |passes|
    ensures PassesApart(passes[p := IDLE])
  {}

  lemma {:induction false} CommitIsSafe(s: System, p: nat, now: Stamp)
    requires Safe(s) && Tables(s.db) && Later(s.db, now) && p < |s.passes|
    requires AllFit(s.db, s.passes[p].claim, s.passes[p].writes)
    ensures Safe(System(View(s, p, now), s.passes[p := IDLE]))
  {
    hide Inv, OnceLaw, PassesApart, LeavesHeld, AllFit, AllStand, Logged;
    PublishMidway(s.db, s.passes[p].claim, s.passes[p].writes, now);
    PublishKeepsOnce(s.db, s.passes[p].claim, s.passes[p].writes, now);
    IdleStaysApart(s.passes, p);
    IdleStands(View(s, p, now));
    forall q | 0 <= q < |s.passes| && q != p ensures Standing(View(s, p, now), s.passes[q]) {
      CommitLeavesHeld(s, p, q, now);
      StandsThrough(s.db, View(s, p, now), s.passes[q]);
    }
  }

  lemma {:induction false} IdleStands(db: Db)
    ensures Standing(db, IDLE)
  {}

  lemma {:induction false} CallIsSafe(s: System, op: Op, now: Stamp)
    requires Safe(s) && Ready(s.db) && Later(s.db, now) && !op.OpWorkerPass?
    requires forall p :: 0 <= p < |s.passes| ==> LeavesHeld(s.db, Apply(s.db, op, now), s.passes[p])
    ensures Safe(s.(db := Apply(s.db, op, now)))
  {
    hide Inv, OnceLaw, PassesApart, LeavesHeld, Standing, Apply, Ready;
    ApplyKeepsInv(s.db, op, now);
    CallKeepsOnce(s.db, op, now);
    ApplyGrows(s.db, op, now);
    forall q | 0 <= q < |s.passes| ensures Standing(Apply(s.db, op, now), s.passes[q]) {
      StandsThrough(s.db, Apply(s.db, op, now), s.passes[q]);
    }
  }

  /** Every move of the interleaving keeps every law, keeps what passes hold
      apart and what they wrote standing, and never buys a goal automatically
      twice. */
  lemma {:induction false} NextIsSafe(s: System, m: Move, now: Stamp, s': System)
    requires Safe(s) && Next(s, m, now, s')
    ensures Safe(s')
  {
    hide Inv, OnceLaw, PassesApart, LeavesHeld, Standing, Apply, Ready, IsClaim, Tried, AllFit;
    assert Tables(s.db) by { InvIsReady(s.db); ReadyHasTables(s.db); }
    match m
    case Claim(p, claim, countdown) =>
      ClaimIsClaimed(s.db.goals, now, countdown, Locked(s.passes), CLAIM_LIMIT, claim);
      ClaimStaysApart(s.db.goals, s.passes, p, now, countdown, claim);
      ClaimStands(s.db, claim);
    case Try(p, w) =>
      TriedHasPass(s, p, w, now);
      TryStaysApart(s, p, w, now);
      TryStands(s, p, w, now);
    case Commit(p) => CommitIsSafe(s, p, now);
    case Abort(p) =>
      IdleStaysApart(s.passes, p);
      IdleStands(s.db);
    case Call(op) => CallIsSafe(s, op, now);
  }

  lemma {:induction false} ReadyHasTables(db: Db)
    requires Ready(db)
    ensures Tables(db)
  {}

  lemma {:induction false} TriedHasPass(s: System, p: nat, w: Write, now: Stamp)
    requires Tried(s, p, w, now)
    ensures p < |s.passes|
  {}

  ghost predicate Interleaving(systems: seq<System>, moves: seq<(Move, Stamp)>) {
    && |systems| == |moves| + 1
    && forall i :: 0 <= i < |moves| ==> Next(systems[i], moves[i].0, moves[i].1, systems[i + 1])
  }

  lemma {:induction false} InterleavingIsSafe(systems: seq<System>, moves: seq<(Move, Stamp)>, i: nat)
    requires Interleaving(systems, moves) && Safe(systems[0]) && i < |systems|
    ensures Safe(systems[i])
  {
    hide Safe, Next;
    if i > 0 {
      InterleavingIsSafe(systems, moves, i - 1);
      NextIsSafe(systems[i - 1], moves[i - 1].0, moves[i - 1].1, systems[i]);
    }
  }

  /** Where every interleaving can start: nothing recorded, nothing claimed. */
  lemma {:induction false} EmptyIsSafe(start: Stamp, passes: nat)
    ensures Safe(System(Empty(start), seq(passes, i => IDLE)))
  {
    hide Inv, Standing;
    EmptyHasInv(start);
    IdleStands(Empty(start));
  }

  // ---- exactly once

  predicate IsAutomaticRow(r: Row, g: nat, amount: int) {
    r.kind == BuySalakRow && r.goal == g && r.automatic == Some(true) && r.amount == amount
  }

  /** The row, and its holding: of the goal's product, worth the row's amount,
      and no other purchase row's. */
  ghost predicate OwnHolding(db: Db, r: nat, g: nat, amount: int) {
    && r < |db.rows| && g < |db.goals| && IsAutomaticRow(db.rows[r], g, amount)
    && db.rows[r].holding.Some? && db.rows[r].holding.value < |db.holdings|
    && db.holdings[db.rows[r].holding.value].product == db.goals[g].product
    && db.holdings[db.rows[r].holding.value].amount == amount
    && forall q :: 0 <= q < |db.rows| && q != r && db.rows[q].kind == BuySalakRow ==>
       db.rows[q].holding != db.rows[r].holding
  }

  /** The purchase that write `w` says, on the log as row `r` for good: the rest
      of the goal, in a holding of its own with the very tickets the attempt got. */
  ghost predicate SoldAs(db: Db, r: nat, g: nat, w: Write) {
    && w.Buys? && OwnHolding(db, r, g, w.goal.Available())
    && var h := db.holdings[db.rows[r].holding.value];
       h.account == w.salak && Tickets.Grant(h.letter, h.start, h.end) == w.range
  }

  lemma {:induction false} RowHasOwnHolding(db: Db, r: nat, g: nat, amount: int)
    requires RowsLaw(db.rows, db.goals, db.holdings, db.clock) && r < |db.rows| && IsAutomaticRow(db.rows[r], g, amount)
    ensures OwnHolding(db, r, g, amount)
  {}

  // ---- what a commit adds

  lemma {:induction false} Publish1Grows(db: Db, g: nat, w: Write, now: Stamp)
    requires GoalsLaw(db.goals, db.books.accounts, db.products, db.clock) && g < |db.goals| && Fits(db, w)
    requires Stands(db, CursorOf(db.cursors, w), g, w)
    ensures Grows(db, Publish1(db, g, w, now))
  {
    assert GoalLaw(db.goals[g]);
  }

  lemma {:induction false} PublishGrows(db: Db, claim: seq<int>, writes: seq<Write>, now: Stamp)
    requires Inv(db) && Tables(db) && Later(db, now) && Standing(db, Progress(claim, writes)) &&
             AllFit(db, claim, writes)
    ensures Grows(db, Publish(db, claim, writes, now))
  {
    hide Inv, Stands, Publish1, Grows, Midway, CashWaits, Claimed;
    if writes == [] {
      GrowsReflexive(db);
    } else {
      var n := |writes| - 1;
      var mid := Publish(db, claim, writes[..n], now);
      AllStandPrefix(db, claim, writes);
      PublishGrows(db, claim, writes[..n], now);
      PublishMidway(db, claim, writes[..n], now);
      NextGrowsOn(db, mid, claim, n, writes[n], now);
      GrowsTransitive(db, mid, Publish(db, claim, writes, now));
    }
  }

  lemma {:induction false} NextGrowsOn(db: Db, mid: Db, claim: seq<int>, n: nat, w: Write, now: Stamp)
    requires Inv(db) && n < |claim| && Claimed(db.goals, claim) && 0 <= claim[n] < |db.goals| == |mid.goals|
    requires Midway(db, mid, claim[..n], now) && CashWaits(db, mid, claim[..n]) && |mid.cursors| == |db.cursors|
    requires Fits(mid, w) && Stands(db, CursorOf(mid.cursors, w), claim[n], w)
    ensures Grows(mid, Publish1(mid, claim[n], w, now))
  {
    hide BooksLaw, AccountsLaw, ReferenceLaw, GoalsLaw, RowsLaw, CashLaw, SalakLaw, PaidOnceLaw, HoldingsLaw, FeeLaw;
    hide Stands, Publish1, CashWaits, Grows;
    StandsInTurn(db, mid, claim, n, w, now);
    Publish1Grows(mid, claim[n], w, now);
  }

  /** The row of a purchase and its holding. */
  ghost predicate LoggedAs(db: Db, r: nat, g: nat, w: Write) {
    && w.Buys? && r < |db.rows| && IsAutomaticRow(db.rows[r], g, w.goal.Available())
    && db.rows[r].holding.Some? && db.rows[r].holding.value < |db.holdings|
    && var h := db.holdings[db.rows[r].holding.value];
       h.account == w.salak && Tickets.Grant(h.letter, h.start, h.end) == w.range
  }

  lemma {:induction false} LoggedStays(db: Db, db': Db, r: nat, g: nat, w: Write)
    requires Grows(db, db') && LoggedAs(db, r, g, w)
    ensures LoggedAs(db', r, g, w)
  {
    hide GoalGrows;
    assert HoldingStays(db.holdings[db.rows[r].holding.value], db'.holdings[db.rows[r].holding.value]);
  }

  lemma {:induction false} PublishLogs(db: Db, claim: seq<int>, writes: seq<Write>, k: nat, now: Stamp) returns (r: nat)
    requires Inv(db) && Tables(db) && Later(db, now) && Standing(db, Progress(claim, writes)) &&
             AllFit(db, claim, writes)
    requires k < |writes| && claim[k] >= 0 && writes[k].Buys?
    ensures LoggedAs(Publish(db, claim, writes, now), r, claim[k], writes[k])
  {
    hide Inv, Stands, Publish1, Grows, Midway, CashWaits, Claimed, LoggedAs, AllStand, Fits, CursorOf;
    var n := |writes| - 1;
    var mid := Publish(db, claim, writes[..n], now);
    AllStandPrefix(db, claim, writes);
    LastStands(db, claim, writes);
    PublishMidway(db, claim, writes[..n], now);
    if k == n {
      r := NextLogs(db, mid, claim, n, writes[n], now);
    } else {
      r := PublishLogs(db, claim, writes[..n], k, now);
      NextGrowsOn(db, mid, claim, n, writes[n], now);
      LoggedStays(mid, Publish(db, claim, writes, now), r, claim[k], writes[k]);
    }
  }

  lemma {:induction false} LastStands(db: Db, claim: seq<int>, writes: seq<Write>)
    requires AllStand(db, claim, writes) && writes != []
    ensures var n := |writes| - 1;
            && n < |claim| && claim[n] >= 0
            && Stands(db, CursorOf(CursorsAfter(db.cursors, writes[..n]), writes[n]), claim[n], writes[n])
            && (forall mid: Db :: |mid.cursors| == |db.cursors| && |mid.books.accounts| == |db.books.accounts| ==>
                  Fits(mid, writes[n]))
  {}

  lemma {:induction false} NextLogs(db: Db, mid: Db, claim: seq<int>, n: nat, w: Write, now: Stamp) returns (r: nat)
    requires Inv(db) && n < |claim| && Claimed(db.goals, claim) && 0 <= claim[n] < |db.goals| == |mid.goals|
    requires Midway(db, mid, claim[..n], now) && CashWaits(db, mid, claim[..n]) && |mid.cursors| == |db.cursors|
    requires w.Buys? && Fits(mid, w) && Stands(db, CursorOf(mid.cursors, w), claim[n], w)
    ensures LoggedAs(Publish1(mid, claim[n], w, now), r, claim[n], w)
  {
    hide BooksLaw, AccountsLaw, ReferenceLaw, GoalsLaw, RowsLaw, CashLaw, SalakLaw, PaidOnceLaw, HoldingsLaw, FeeLaw;
    hide Stands, Publish1, CashWaits;
    StandsInTurn(db, mid, claim, n, w, now);
    Publish1Rows(mid, claim[n], w, now);
    r := |mid.rows|;
  }

  lemma {:induction false} NextGrows(s: System, m: Move, now: Stamp, s': System)
    requires Safe(s) && Next(s, m, now, s')
    ensures Grows(s.db, s'.db)
  {
    hide Inv, OnceLaw, Apply, Ready, IsClaim, Grows, PassesApart, LeavesHeld, Tried, AllFit, AllStand;
    match m
    case Claim(p, claim, countdown) => GrowsReflexive(s.db);
    case Try(p, w) => GrowsReflexive(s.db);
    case Commit(p) =>
      ReadyHasTables(s.db);
      PublishGrows(s.db, s.passes[p].claim, s.passes[p].writes, now);
    case Abort(p) => GrowsReflexive(s.db);
    case Call(op) => ApplyGrows(s.db, op, now);
  }

  // ---- from the attempt to the commit and after

  /** Every check on the goal whose turn it is passes on the pass's own view. */
  ghost predicate CouldBuy(s: System, p: nat, now: Stamp) {
    && HasTurn(s, p)
    && var view, g := View(s, p, now), Turn(s, p);
       && Tables(view) && view.goals[g].account < |view.books.accounts| && view.goals[g].product < |view.products|
       && WorkerCanBuy(view, g, now)
  }

  lemma {:induction false} TryBuysExactlyWhen(s: System, p: nat, w: Write, now: Stamp)
    requires Safe(s) && Ready(s.db) && Later(s.db, now) && Tried(s, p, w, now)
    ensures w.Buys? <==> CouldBuy(s, p, now)
    ensures w.Buys? ==> w.goal == s.db.goals[Turn(s, p)]
  {
    hide Inv, OnceLaw, PassesApart, AllStand, ProcessGoal, WorkerCanBuy;
    TryStands(s, p, w, now);
    WorkerBuysExactlyWhen(View(s, p, now), Turn(s, p), now);
  }

  lemma {:induction false} ProgressGrows(s: System, m: Move, now: Stamp, s': System, p: nat)
    requires Next(s, m, now, s') && p < |s.passes| && s.passes[p].claim != [] && m != Commit(p) && m != Abort(p)
    ensures p < |s'.passes| && s'.passes[p].claim == s.passes[p].claim && s.passes[p].writes <= s'.passes[p].writes
  {
    hide IsClaim, Tried, AllFit, LeavesHeld, Apply, Ready, Locked, View;
    if m.Try? {
      TriedHasPass(s, m.pass, m.write, now);
    }
  }

  /** Until it commits or aborts, a pass only adds writes to its claim. */
  lemma {:induction false} ProgressKept(systems: seq<System>, moves: seq<(Move, Stamp)>, i: nat, m: nat, p: nat)
    requires Interleaving(systems, moves) && i <= m < |systems| && p < |systems[i].passes|
    requires systems[i].passes[p].claim != []
    requires forall k :: i <= k < m ==> moves[k].0 != Commit(p) && moves[k].0 != Abort(p)
    ensures p < |systems[m].passes| && systems[m].passes[p].claim == systems[i].passes[p].claim
    ensures systems[i].passes[p].writes <= systems[m].passes[p].writes
    decreases m - i
  {
    hide Next;
    if i < m {
      ProgressKept(systems, moves, i, m - 1, p);
      ProgressGrows(systems[m - 1], moves[m - 1].0, moves[m - 1].1, systems[m], p);
    }
  }

  lemma {:induction false} RowStays(db: Db, db': Db, r: nat)
    requires Grows(db, db') && r < |db.rows|
    ensures r < |db'.rows| && db'.rows[r] == db.rows[r]
  {
    hide GoalGrows;
  }

  lemma {:induction false} InvHasRows(db: Db)
    requires Inv(db)
    ensures RowsLaw(db.rows, db.goals, db.holdings, db.clock)
  {
    hide BooksLaw, AccountsLaw, ReferenceLaw, GoalsLaw, RowsLaw, CashLaw, SalakLaw, PaidOnceLaw, HoldingsLaw, FeeLaw;
  }

  lemma {:induction false} OnceStaysOnce(db: Db, db': Db, g: nat)
    requires Grows(db, db') && OnceLaw(db) && OnceLaw(db') && Sum(db.rows, AutoBuys(g)) == 1
    ensures Sum(db'.rows, AutoBuys(g)) == 1
  {
    var rest := db'.rows[|db.rows|..];
    assert db'.rows == db.rows + rest;
    SumConcat(db.rows, rest, AutoBuys(g));
    SumNonNegative(rest, AutoBuys(g));
    if g >= |db.goals| {
      SumZero(db.rows, AutoBuys(g));
    }
  }

  lemma {:induction false} SaleStays(systems: seq<System>, moves: seq<(Move, Stamp)>, i: nat, j: nat, g: nat,
          r: nat, w: Write)
    requires Interleaving(systems, moves) && Safe(systems[0]) && i <= j < |systems|
    requires Sum(systems[i].db.rows, AutoBuys(g)) == 1 && LoggedAs(systems[i].db, r, g, w)
    ensures Sum(systems[j].db.rows, AutoBuys(g)) == 1 && SoldAs(systems[j].db, r, g, w)
    ensures LoggedAs(systems[j].db, r, g, w)
    decreases j - i
  {
    hide Inv, OnceLaw, Next, Grows, OwnHolding, PassesApart, Standing;
    InterleavingIsSafe(systems, moves, j);
    if i < j {
      SaleStays(systems, moves, i, j - 1, g, r, w);
      InterleavingIsSafe(systems, moves, j - 1);
      NextGrows(systems[j - 1], moves[j - 1].0, moves[j - 1].1, systems[j]);
      OnceStaysOnce(systems[j - 1].db, systems[j].db, g);
      LoggedStays(systems[j - 1].db, systems[j].db, r, g, w);
    }
    InvHasRows(systems[j].db);
    RowHasOwnHolding(systems[j].db, r, g, w.goal.Available());
  }

  /** The commit of a pass does what its attempts wrote, for good. */
  lemma {:induction false} CommitSells(systems: seq<System>, moves: seq<(Move, Stamp)>, c: nat, j: nat, p: nat, k: nat)
    requires Interleaving(systems, moves) && Safe(systems[0]) && c < j < |systems|
    requires moves[c].0 == Commit(p) && p < |systems[c].passes|
    requires k < |systems[c].passes[p].writes| && k < |systems[c].passes[p].claim| && systems[c].passes[p].claim[k] >= 0
    ensures var g, w := systems[c].passes[p].claim[k], systems[c].passes[p].writes[k];
            && Sum(systems[c + 1].db.rows, AutoBuys(g)) == Bit(w)
            && (w.Buys? ==> Sum(systems[j].db.rows, AutoBuys(g)) == 1 && exists r :: SoldAs(systems[j].db, r, g, w))
  {
    hide Inv, OnceLaw, PassesApart, AllFit, AllStand, AutoBuys, SoldAs, LoggedAs;
    var s, now := systems[c], moves[c].1;
    var pass := s.passes[p];
    InterleavingIsSafe(systems, moves, c);
    assert Next(s, moves[c].0, now, systems[c + 1]);
    ReadyHasTables(s.db);
    PublishKeepsOnce(s.db, pass.claim, pass.writes, now);
    if pass.writes[k].Buys? {
      var r := PublishLogs(s.db, pass.claim, pass.writes, k, now);
      SaleStays(systems, moves, c + 1, j, pass.claim[k], r, pass.writes[k]);
    }
  }

  /** Under any interleaving, an attempt that a pass goes on to commit leaves its
      goal with exactly one automatic purchase if and only if every check on it
      passed when its turn came, whatever others committed in between; and from
      then on it has exactly that one, whose holding is worth all that was left
      of the goal, has the tickets the attempt got, and is its alone. */
  lemma {:induction false} BoughtExactlyOnce(systems: seq<System>, moves: seq<(Move, Stamp)>, i: nat, c: nat, j: nat,
          p: nat, w: Write)
    requires Interleaving(systems, moves) && Safe(systems[0]) && i < c < j < |systems|
    requires moves[i].0 == Try(p, w) && moves[c].0 == Commit(p) && HasTurn(systems[i], p)
    requires forall k :: i < k < c ==> moves[k].0 != Commit(p) && moves[k].0 != Abort(p)
    ensures CouldBuy(systems[i], p, moves[i].1) <==> Sum(systems[c + 1].db.rows, AutoBuys(Turn(systems[i], p))) == 1
    ensures CouldBuy(systems[i], p, moves[i].1) ==>
              var g := Turn(systems[i], p);
              && Sum(systems[j].db.rows, AutoBuys(g)) == 1 && (exists r :: SoldAs(systems[j].db, r, g, w))
              && w.Buys? && w.goal == systems[i].db.goals[g]
  {
    hide Inv, OnceLaw, PassesApart, Standing, AllFit, AutoBuys, SoldAs, Tried, CouldBuy, Ready, View;
    InterleavingIsSafe(systems, moves, i);
    assert Next(systems[i], moves[i].0, moves[i].1, systems[i + 1]);
    TryBuysExactlyWhen(systems[i], p, w, moves[i].1);
    ProgressKept(systems, moves, i + 1, c, p);
    CommitSells(systems, moves, c, j, p, |systems[i].passes[p].writes|);
  }
}
