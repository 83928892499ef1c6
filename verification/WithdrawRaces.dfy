/** Concurrent deposits, withdrawals and purchases of one goal, each split into
    its locked read, its count of earlier withdrawals, its uncommitted write, and
    its commit. The row lock admits one caller at a time into those phases. */
module WithdrawRaces {
  import opened Outcomes
  import opened Calendar
  import opened Sums
  import opened Database
  import opened Steps
  import opened Laws
  import opened LawsKept
  import opened StepsKept
  import opened PurchasesKept
  import Consequences

  datatype Phase =
    | Idle
    | Locked(read: Goal)
    | Counted(read: Goal, used: nat, now: Stamp)
    | Written(goal: Goal, row: Row)
    | Finished

  /** What a caller asked for: a positive amount in, out, or into tickets. */
  datatype Request = Put(amount: int) | Take(amount: int) | Buy(amount: int)

  /** The committed goal row and its committed log, and each caller's progress. */
  datatype Race = Race(goal: Goal, rows: seq<Row>, holder: Option<nat>, phases: seq<Phase>, clock: Stamp)

  predicate Allowed(goal: Goal, request: Request) {
    && goal.active && request.amount > 0
    && match request
       case Put(amount) => goal.saving + amount <= goal.target
       case Take(amount) => amount <= goal.Available() && (goal.reachedAt.Some? ==> amount == goal.Available())
       case Buy(amount) => amount <= goal.Available()
  }

  function RowOf(goal: Goal, kind: RowKind, amount: int, now: Stamp): Row {
    Row(0, kind, amount, goal.account, 0, None, None, None, now)
  }

  /** The goal row a caller leaves, computed from the one it read, and its log row. */
  function Outcome(goal: Goal, request: Request, used: nat, now: Stamp): (Goal, Row) {
    match request
    case Put(amount) => (DepositGoal(goal, amount, now), RowOf(goal, DepositRow, amount, now))
    case Take(amount) =>
      (WithdrawGoal(goal, amount),
       RowOf(goal, if used >= FREE_WITHDRAWALS then WithdrawWithFeeRow else WithdrawRow, amount, now))
    case Buy(amount) => (ConvertedGoal(goal, amount), RowOf(goal, BuySalakRow, amount, now))
  }

  datatype Move = Lock(i: nat) | Count(i: nat, now: Stamp) | Write(i: nat) | Commit(i: nat) | Abort(i: nat)

  ghost predicate Next(requests: seq<Request>, s: Race, m: Move, s': Race) {
    && |s.phases| == |requests| && m.i < |requests|
    && match m
       case Lock(i) =>
         && s.holder == None && s.phases[i] == Idle && Allowed(s.goal, requests[i])
         && s' == s.(holder := Some(i), phases := s.phases[i := Locked(s.goal)])
       case Count(i, now) =>
         && s.phases[i].Locked? && Instant(s.clock) <= Instant(now)
         && var w := Window(s.phases[i].read.createdAt, now);
            var used := CountWithdrawals(s.rows, 0, w.0, w.1);
            s' == s.(phases := s.phases[i := Counted(s.phases[i].read, used, now)], clock := now)
       case Write(i) =>
         && s.phases[i].Counted?
         && var (goal, row) := Outcome(s.phases[i].read, requests[i], s.phases[i].used, s.phases[i].now);
            s' == s.(phases := s.phases[i := Written(goal, row)])
       case Commit(i) =>
         && s.phases[i].Written?
         && s' == Race(s.phases[i].goal, s.rows + [s.phases[i].row], None, s.phases[i := Finished], s.clock)
       case Abort(i) =>
         && s.holder == Some(i)
         && s' == s.(holder := None, phases := s.phases[i := Idle])
  }

  /** What a row did to the saving amount, and to the salak amount. */
  function Effect(): Row -> int {
    (r: Row) => if r.kind == DepositRow then r.amount else if r.kind in {WithdrawRow, WithdrawWithFeeRow}
        then -r.amount else 0
  }

  predicate Engaged(p: Phase) {
    p.Locked? || p.Counted? || p.Written?
  }

  /** What the holder has seen and is about to write still agrees with what is
      committed, because nobody else can commit meanwhile. */
  ghost predicate Current(s: Race, request: Request, p: Phase) {
    match p
    case Idle => true
    case Finished => true
    case Locked(read) => read == s.goal && Allowed(s.goal, request)
    case Counted(read, used, now) =>
      var w := Window(s.goal.createdAt, now);
      && read == s.goal && Allowed(s.goal, request)
      && used == CountWithdrawals(s.rows, 0, w.0, w.1) && Instant(s.goal.createdAt) <= Instant(now)
    case Written(goal, row) =>
      var w := Window(s.goal.createdAt, row.createdAt);
      && (goal, row) == Outcome(s.goal, request, CountWithdrawals(s.rows, 0, w.0, w.1), row.createdAt)
      && Allowed(s.goal, request) && Instant(s.goal.createdAt) <= Instant(row.createdAt)
  }

  /** The committed row is what the committed log makes of the opening row. */
  ghost predicate Replayed(opening: Goal, goal: Goal, rows: seq<Row>) {
    && GoalLaw(goal) && goal.createdAt == opening.createdAt && goal.target == opening.target
    && goal.saving == opening.saving + Sum(rows, Effect())
    && goal.salak == opening.salak + Sum(rows, BoughtIn(0))
  }

  ghost predicate Coherent(requests: seq<Request>, s: Race, opening: Goal) {
    && |s.phases| == |requests| && Instant(s.goal.createdAt) <= Instant(s.clock)
    && (forall i :: 0 <= i < |requests| ==> (Engaged(s.phases[i]) <==> s.holder == Some(i)))
    && (forall i :: 0 <= i < |requests| ==> Current(s, requests[i], s.phases[i]))
    && (forall j :: 0 <= j < |s.rows| ==>
       s.rows[j].goal == 0 && Instant(s.goal.createdAt) <= Instant(s.rows[j].createdAt))
    && Replayed(opening, s.goal, s.rows) && FeeLaw(s.rows, [s.goal])
  }

  lemma {:induction false} CommitKeepsLog(requests: seq<Request>, s: Race, i: nat, s': Race, opening: Goal)
    requires Coherent(requests, s, opening) && Next(requests, s, Commit(i), s')
    ensures Replayed(opening, s'.goal, s'.rows)
    ensures var row := s.phases[i].row; row.goal == 0 && Instant(s.goal.createdAt) <= Instant(row.createdAt)
  {
    hide FeeLaw, Window, CountWithdrawals, Instant;
    var row := s.phases[i].row;
    assert Engaged(s.phases[i]) && Current(s, requests[i], s.phases[i]);
    SumSnoc(s.rows, row, Effect());
    SumSnoc(s.rows, row, BoughtIn(0));
  }

  lemma {:induction false} CommitKeepsFees(requests: seq<Request>, s: Race, i: nat, s': Race, opening: Goal)
    requires Coherent(requests, s, opening) && Next(requests, s, Commit(i), s')
    ensures FeeLaw(s'.rows, [s'.goal])
  {
    hide FeeLaw, Window, CountWithdrawals, Instant, Replayed;
    var row := s.phases[i].row;
    assert Engaged(s.phases[i]) && Current(s, requests[i], s.phases[i]);
    RowKeepsFees(s.rows, [s.goal], [s'.goal], row);
  }

  lemma {:induction false} CommitIsCoherent(requests: seq<Request>, s: Race, i: nat, s': Race, opening: Goal)
    requires Coherent(requests, s, opening) && Next(requests, s, Commit(i), s')
    ensures Coherent(requests, s', opening)
  {
    hide FeeLaw, Window, CountWithdrawals, Instant, Outcome, GoalLaw;
    CommitKeepsLog(requests, s, i, s', opening);
    CommitKeepsFees(requests, s, i, s', opening);
    forall k | 0 <= k < |requests| ensures !Engaged(s'.phases[k]) && Current(s', requests[k], s'.phases[k]) {
      assert Engaged(s.phases[i]) && (Engaged(s.phases[k]) <==> s.holder == Some(k));
    }
  }

  lemma {:induction false} NextIsCoherent(requests: seq<Request>, s: Race, m: Move, s': Race, opening: Goal)
    requires Coherent(requests, s, opening) && Next(requests, s, m, s')
    ensures Coherent(requests, s', opening)
  {
    hide FeeLaw, Instant, CountWithdrawals, Allowed, Replayed;
    if m.Commit? {
      CommitIsCoherent(requests, s, m.i, s', opening);
    } else {
      assert s'.goal == s.goal && s'.rows == s.rows;
      forall k | 0 <= k < |requests| ensures Current(s', requests[k], s'.phases[k]) {
        assert Current(s, requests[k], s.phases[k]);
        assert m.i == k || s'.phases[k] == s.phases[k];
      }
    }
  }

  ghost predicate Interleaving(requests: seq<Request>, states: seq<Race>, moves: seq<Move>) {
    && |states| == |moves| + 1
    && forall k :: 0 <= k < |moves| ==> Next(requests, states[k], moves[k], states[k + 1])
  }

  lemma {:induction false} InterleavingIsCoherent(requests: seq<Request>, states: seq<Race>, moves: seq<Move>,
                                                  k: nat, opening: Goal)
    requires Interleaving(requests, states, moves) && Coherent(requests, states[0], opening) && k < |states|
    ensures Coherent(requests, states[k], opening)
  {
    hide Coherent, Next;
    if k > 0 {
      InterleavingIsCoherent(requests, states, moves, k - 1, opening);
      NextIsCoherent(requests, states[k - 1], moves[k - 1], states[k], opening);
    }
  }

  /** Callers racing on a goal no one holds: however their phases interleave, no
      update of the saving or salak amount is lost, a withdrawal is charged
      exactly when two before it share its anniversary window, and so at most
      two in each window are free. */
  lemma {:induction false} NoLostUpdateNoThirdFree(requests: seq<Request>, states: seq<Race>, moves: seq<Move>,
                                                   k: nat, t: Stamp)
    requires Interleaving(requests, states, moves) && k < |states|
    requires var s := states[0];
             && s.rows == [] && s.holder == None && s.phases == seq(|requests|, i => Idle)
             && GoalLaw(s.goal) && Instant(s.goal.createdAt) <= Instant(s.clock)
    requires Instant(states[0].goal.createdAt) <= Instant(t)
    ensures Replayed(states[0].goal, states[k].goal, states[k].rows)
    ensures forall j: nat :: j < |states[k].rows| ==> states[k].rows[j].goal == 0
    ensures forall j: nat :: j < |states[k].rows| && states[k].rows[j].kind in {WithdrawRow, WithdrawWithFeeRow} ==>
              (states[k].rows[j].kind == WithdrawWithFeeRow <==>
                  EarlierInWindow(states[k].rows, [states[k].goal], j) >= 2)
    ensures var s := states[k];
            var w := Window(states[0].goal.createdAt, t);
            var n := CountWithdrawals(s.rows, 0, w.0, w.1);
            Consequences.CountFree(s.rows, 0, w.0, w.1) == if n < 2 then n else 2
  {
    hide Next, Window, CountWithdrawals, EarlierInWindow;
    InterleavingIsCoherent(requests, states, moves, k, states[0].goal);
    Consequences.FirstTwoAreFree(states[k].rows, [states[k].goal], 0, t);
  }

  // ---- the races are of the calls

  /** A caller is let through, and leaves the goal and its log row, exactly as
      the call of the same kind, its accounts and money being in order. */
  lemma {:induction false} PutIsDeposit(db: Db, user: nat, kapook: nat, savings: nat, g: nat, amount: int, now: Stamp)
    requires Inv(db) && ActiveGoal(db.goals, kapook) == Some(g) && kapook != savings
    requires Consequences.Own(db, user, kapook, Kapook) && Consequences.Own(db, user, savings, Savings)
    requires 0 < amount <= db.books.accounts[savings].balance
    ensures var r := Deposit(db, user, kapook, savings, amount, now);
            && (r.Done? <==> Allowed(db.goals[g], Put(amount)))
            && (r.Done? ==> SameOutcome(Outcome(db.goals[g], Put(amount), 0, now), db, r.db, g))
  {
    hide Inv, Transfer;
  }

  predicate SameOutcome(raced: (Goal, Row), db: Db, after: Db, g: nat) {
    && |after.goals| == |db.goals| && g < |db.goals| && after.goals[g] == raced.0
    && |after.rows| == |db.rows| + 1
    && var row := after.rows[|db.rows|];
       && row.kind == raced.1.kind && row.amount == raced.1.amount && row.account == raced.1.account
       && row.goal == g && row.createdAt == raced.1.createdAt
  }

  lemma {:induction false} TakeIsWithdraw(db: Db, user: nat, kapook: nat, g: nat, amount: int, now: Stamp)
    requires Inv(db) && ActiveGoal(db.goals, kapook) == Some(g) && Primary(db.books.accounts, user).Some?
    requires Consequences.Own(db, user, kapook, Kapook) && 0 < amount <= db.books.accounts[kapook].balance
    ensures var r := Withdraw(db, user, kapook, amount, now);
            var w := Window(db.goals[g].createdAt, now);
            && (r.Done? <==> Allowed(db.goals[g], Take(amount)))
            && (r.Done? ==>
                  SameOutcome(Outcome(db.goals[g], Take(amount), CountWithdrawals(db.rows, g, w.0, w.1), now),
                              db, r.db, g))
  {
    hide Inv, Transfer, Window, CountWithdrawals;
    Consequences.ActiveGoalCash(db, g);
  }

  lemma {:induction false} BuyIsPurchase(db: Db, user: nat, kapook: nat, salak: nat, g: nat, amount: int, now: Stamp)
    requires Tables(db) && Inv(db) && ActiveGoal(db.goals, kapook) == Some(g)
    requires Consequences.Own(db, user, kapook, Kapook) && Consequences.Own(db, user, salak, Salak)
    requires Consequences.SellsNow(db, g, amount, now) && amount <= db.books.accounts[kapook].balance
    ensures var r := BuyFromGoal(db, user, kapook, salak, amount, false, now);
            && (r.Done? <==> Allowed(db.goals[g], Buy(amount)))
            && (r.Done? ==> SameOutcome(Outcome(db.goals[g], Buy(amount), 0, now), db, r.db, g))
  {
    hide Inv, BuyFromGoal;
    Consequences.ActiveGoalCash(db, g);
    Consequences.BuyFromGoalExactlyWhen(db, user, kapook, salak, amount, false, now);
    var r := BuyFromGoal(db, user, kapook, salak, amount, false, now);
    if r.Done? {
      var found := BuyGuards(db, user, kapook, salak, amount, false, now);
      BoughtShape(db, kapook, salak, g, amount, false, now);
    }
  }
}
