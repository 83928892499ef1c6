/** A settlement reads its goal without a lock, so its update of the salak amount
    is safe only while locks it took before keep other writers out. Here purchases
    and settlements of one goal are split into their locks, reads and commits.
    Each names the salak account it debits or credits; a goal's settlements all
    pay the one primary account of its customer. */
module SettleRaces {
  import opened Outcomes
  import opened Sums

  datatype Caller = Buyer(amount: int, account: nat) | Settler(amount: int, account: nat)

  /** A buyer locks the goal, reading it, and then the salak account; a settler
      locks the salak account and the primary one, reads the goal, and then waits
      for its row to write it. */
  datatype Phase =
    | Idle
    | HasGoal(read: int)
    | HasAccount
    | HasPayee
    | HasRead(read: int)
    | Ready(salak: int)
    | Finished

  /** The committed salak amount, the committed changes, who holds the goal row,
      each salak account and the primary account, and each caller's progress. */
  datatype Race = Race(salak: int, changes: seq<int>, goal: Option<nat>, accounts: map<nat, nat>,
                       payee: Option<nat>, phases: seq<Phase>)

  function Change(c: Caller): int {
    match c
    case Buyer(amount, _) => amount
    case Settler(amount, _) => -amount
  }

  datatype Move = Advance(i: nat) | Abort(i: nat)

  function Released(accounts: map<nat, nat>, i: nat): map<nat, nat> {
    map a | a in accounts && accounts[a] != i :: accounts[a]
  }

  function Freed(holder: Option<nat>, i: nat): Option<nat> {
    if holder == Some(i) then None else holder
  }

  predicate AccountFree(s: Race, c: Caller) {
    c.account !in s.accounts
  }

  /** One caller's next step, when nothing it needs is held by another. */
  function Step(callers: seq<Caller>, s: Race, i: nat): Option<Race>
    requires i < |callers| == |s.phases|
  {
    var c := callers[i];
    match s.phases[i]
    case Idle =>
      if c.Buyer? then
        if s.goal == None then Some(s.(goal := Some(i), phases := s.phases[i := HasGoal(s.salak)])) else None
      else
        if AccountFree(s, c) then Some(s.(accounts := s.accounts[c.account := i],
            phases := s.phases[i := HasAccount])) else None
    case HasGoal(read) =>
      if AccountFree(s, c) then Some(s.(accounts := s.accounts[c.account := i],
          phases := s.phases[i := Ready(read + c.amount)])) else None
    case HasAccount =>
      if s.payee == None then Some(s.(payee := Some(i), phases := s.phases[i := HasPayee])) else None
    case HasPayee => Some(s.(phases := s.phases[i := HasRead(s.salak)]))
    case HasRead(read) =>
      if s.goal == None then Some(s.(goal := Some(i), phases := s.phases[i := Ready(read - c.amount)])) else None
    case Ready(salak) =>
      Some(Race(salak, s.changes + [Change(c)], None, Released(s.accounts, i), Freed(s.payee, i),
          s.phases[i := Finished]))
    case Finished => None
  }

  predicate Next(callers: seq<Caller>, s: Race, m: Move, s': Race) {
    && |callers| == |s.phases| && m.i < |callers|
    && match m
       case Advance(i) => Step(callers, s, i) == Some(s')
       case Abort(i) =>
         && s.phases[i] != Finished
         && s' == s.(goal := Freed(s.goal, i), accounts := Released(s.accounts, i), payee := Freed(s.payee, i),
                     phases := s.phases[i := Idle])
  }

  function Itself(): int -> int { (n: int) => n }

  predicate HoldsGoal(c: Caller, p: Phase) {
    p.HasGoal? || p.Ready?
  }

  predicate HoldsAccount(c: Caller, p: Phase) {
    p.HasAccount? || p.HasPayee? || p.HasRead? || p.Ready?
  }

  predicate HoldsPayee(c: Caller, p: Phase) {
    c.Settler? && (p.HasPayee? || p.HasRead? || p.Ready?)
  }

  /** Locks are held by those whose phase says so. */
  ghost predicate LocksHeld(callers: seq<Caller>, s: Race) {
    && |s.phases| == |callers|
    && (forall i :: 0 <= i < |callers| ==> (HoldsGoal(callers[i], s.phases[i]) <==> s.goal == Some(i)))
    && (forall i :: 0 <= i < |callers| ==> (HoldsPayee(callers[i], s.phases[i]) <==> s.payee == Some(i)))
    && (forall i :: 0 <= i < |callers| && HoldsAccount(callers[i], s.phases[i]) ==>
          callers[i].account in s.accounts && s.accounts[callers[i].account] == i)
    && (forall a :: a in s.accounts ==>
          s.accounts[a] < |callers| && HoldsAccount(callers[s.accounts[a]], s.phases[s.accounts[a]]))
  }

  /** And what a caller read is still what is committed. */
  ghost predicate Coherent(callers: seq<Caller>, s: Race, opening: int) {
    && LocksHeld(callers, s) && s.salak == opening + Sum(s.changes, Itself())
    && (forall i :: 0 <= i < |callers| ==> UpToDate(callers[i], s.phases[i], s.salak))
  }

  predicate UpToDate(c: Caller, p: Phase, salak: int) {
    match p
    case HasGoal(read) => c.Buyer? && read == salak
    case HasAccount => c.Settler?
    case HasPayee => c.Settler?
    case HasRead(read) => c.Settler? && read == salak
    case Ready(left) => left == salak + Change(c)
    case _ => true
  }

  ghost predicate OneAccount(callers: seq<Caller>) {
    forall i, j :: 0 <= i < |callers| && 0 <= j < |callers| ==> callers[i].account == callers[j].account
  }

  ghost predicate AllBuy(callers: seq<Caller>) {
    forall i :: 0 <= i < |callers| ==> callers[i].Buyer?
  }

  ghost predicate AllSettle(callers: seq<Caller>) {
    forall i :: 0 <= i < |callers| ==> callers[i].Settler?
  }

  /** A settler and a buyer on different salak accounts. */
  predicate Crossing(callers: seq<Caller>, i: nat, j: nat) {
    i < |callers| && j < |callers| && callers[i].Settler? && callers[j].Buyer? &&
    callers[i].account != callers[j].account
  }

  ghost predicate Harmless(callers: seq<Caller>) {
    forall i: nat, j: nat :: !Crossing(callers, i, j)
  }

  lemma {:induction false} HarmlessExactlyWhen(callers: seq<Caller>)
    ensures Harmless(callers) <==> OneAccount(callers) || AllBuy(callers) || AllSettle(callers)
  {
    if Harmless(callers) && !AllBuy(callers) && !AllSettle(callers) {
      var i :| 0 <= i < |callers| && callers[i].Settler?;
      var j :| 0 <= j < |callers| && callers[j].Buyer?;
      forall k | 0 <= k < |callers| ensures callers[k].account == callers[i].account {
        assert !Crossing(callers, i, j) && !Crossing(callers, i, k) && !Crossing(callers, k, j);
      }
    }
  }

  lemma {:induction false} LockKeepsHeld(callers: seq<Caller>, s: Race, i: nat, s': Race)
    requires LocksHeld(callers, s) && Next(callers, s, Advance(i), s') && !s.phases[i].Ready?
    requires UpToDate(callers[i], s.phases[i], s.salak)
    ensures LocksHeld(callers, s')
  {}

  lemma {:induction false} EndKeepsHeld(callers: seq<Caller>, s: Race, m: Move, s': Race)
    requires LocksHeld(callers, s) && Next(callers, s, m, s') && (m.Abort? || s.phases[m.i].Ready?)
    ensures LocksHeld(callers, s')
  {}

  /** When a caller is ready to commit, nobody else has read the goal. */
  lemma {:induction false} OthersHaveNotRead(callers: seq<Caller>, s: Race, i: nat, opening: int)
    requires Harmless(callers) && Coherent(callers, s, opening) && i < |callers| && s.phases[i].Ready?
    ensures s.phases[i].salak == s.salak + Change(callers[i])
    ensures forall k :: 0 <= k < |callers| && k != i ==> s.phases[k] in {Idle, HasAccount, HasPayee, Finished}
  {
    assert UpToDate(callers[i], s.phases[i], s.salak);
    forall k | 0 <= k < |callers| && k != i ensures s.phases[k] in {Idle, HasAccount, HasPayee, Finished} {
      assert !Crossing(callers, i, k) && !Crossing(callers, k, i);
      assert UpToDate(callers[k], s.phases[k], s.salak);
    }
  }

  lemma {:induction false} CommitIsCoherent(callers: seq<Caller>, s: Race, i: nat, s': Race, opening: int)
    requires Harmless(callers) && Coherent(callers, s, opening)
    requires Next(callers, s, Advance(i), s') && s.phases[i].Ready?
    ensures Coherent(callers, s', opening)
  {
    hide Harmless, LocksHeld;
    EndKeepsHeld(callers, s, Advance(i), s');
    SumSnoc(s.changes, Change(callers[i]), Itself());
    OthersHaveNotRead(callers, s, i, opening);
  }

  lemma {:induction false} AbortIsCoherent(callers: seq<Caller>, s: Race, i: nat, s': Race, opening: int)
    requires Coherent(callers, s, opening) && Next(callers, s, Abort(i), s')
    ensures Coherent(callers, s', opening)
  {
    hide LocksHeld;
    EndKeepsHeld(callers, s, Abort(i), s');
  }

  /** A lock or a read, which commits nothing. */
  lemma {:induction false} AdvanceIsCoherent(callers: seq<Caller>, s: Race, i: nat, s': Race, opening: int)
    requires Coherent(callers, s, opening) && Next(callers, s, Advance(i), s') && !s.phases[i].Ready?
    ensures Coherent(callers, s', opening)
  {
    hide LocksHeld;
    assert UpToDate(callers[i], s.phases[i], s.salak);
    LockKeepsHeld(callers, s, i, s');
  }

  lemma {:induction false} NextIsCoherent(callers: seq<Caller>, s: Race, m: Move, s': Race, opening: int)
    requires Harmless(callers) && Coherent(callers, s, opening) && Next(callers, s, m, s')
    ensures Coherent(callers, s', opening)
  {
    hide Harmless, Coherent;
    if m.Abort? {
      AbortIsCoherent(callers, s, m.i, s', opening);
    } else if s.phases[m.i].Ready? {
      CommitIsCoherent(callers, s, m.i, s', opening);
    } else {
      AdvanceIsCoherent(callers, s, m.i, s', opening);
    }
  }

  ghost predicate Interleaving(callers: seq<Caller>, states: seq<Race>, moves: seq<Move>) {
    && |states| == |moves| + 1
    && forall k :: 0 <= k < |moves| ==> Next(callers, states[k], moves[k], states[k + 1])
  }

  ghost predicate Starts(callers: seq<Caller>, s: Race) {
    s.changes == [] && s.goal == None && s.accounts == map[] && s.payee == None && s.phases == seq(|callers|, i => Idle)
  }

  /** Callers of whom no settler and buyer use different salak accounts lose no
      change of the goal's salak amount, however they interleave: purchases
      serialise on the goal, settlements on the primary account, and one of each
      on the salak account, which is one for every customer registration opened
      accounts for. */
  lemma {:induction false} HarmlessLosesNothing(callers: seq<Caller>, states: seq<Race>, moves: seq<Move>, k: nat)
    requires Harmless(callers) && Interleaving(callers, states, moves) && Starts(callers, states[0]) && k < |states|
    ensures Coherent(callers, states[k], states[0].salak)
    ensures states[k].salak == states[0].salak + Sum(states[k].changes, Itself())
  {
    hide Next, Harmless;
    if k > 0 {
      HarmlessLosesNothing(callers, states[..k], moves[..k - 1], k - 1);
      NextIsCoherent(callers, states[k - 1], moves[k - 1], states[k], states[0].salak);
    }
  }

  // ---- a settlement overtaken by a purchase into another account

  /** Everybody idle but `i` and `j`. */
  function Apart(n: nat, i: nat, j: nat, p: Phase, q: Phase): seq<Phase> {
    seq(n, k => if k == i then p else if k == j then q else Idle)
  }

  lemma {:induction false} ApartSteps(n: nat, i: nat, j: nat, p: Phase, q: Phase, r: Phase)
    requires i < n && j < n && i != j
    ensures Apart(n, i, j, p, q)[i := r] == Apart(n, i, j, r, q) && Apart(n, i, j, p, q)[j := r] == Apart(n, i, j, p, r)
    ensures Apart(n, i, j, p, q)[i] == p && Apart(n, i, j, p, q)[j] == q
  {}

  lemma {:induction false} ReleasedAccounts(a: nat, b: nat, i: nat, j: nat)
    requires a != b && i != j
    ensures Released(map[a := i, b := j], j) == map[a := i] && Released(map[a := i], i) == map[]
    ensures map[a := i][b := j] == map[a := i, b := j] && map[][a := i] == map[a := i]
  {}

  /** Settler `i` reads, buyer `j` runs to its commit, settler `i` writes. */
  function Overtaking(i: nat, j: nat): seq<Move> {
    [Advance(i), Advance(i), Advance(i), Advance(j), Advance(j), Advance(j), Advance(i), Advance(i)]
  }

  function Overtaken(callers: seq<Caller>, i: nat, j: nat, opening: int): seq<Race>
    requires Crossing(callers, i, j)
  {
    var n, a, b := |callers|, map[callers[i].account := i], map[callers[i].account := i, callers[j].account := j];
    var late, between := opening + Change(callers[i]), opening + Change(callers[j]);
    var e := [Change(callers[j])];
    var seen := HasRead(opening);
    [Race(opening, [], None, map[], None, Apart(n, i, j, Idle, Idle)),
     Race(opening, [], None, a, None, Apart(n, i, j, HasAccount, Idle)),
     Race(opening, [], None, a, Some(i), Apart(n, i, j, HasPayee, Idle)),
     Race(opening, [], None, a, Some(i), Apart(n, i, j, seen, Idle)),
     Race(opening, [], Some(j), a, Some(i), Apart(n, i, j, seen, HasGoal(opening))),
     Race(opening, [], Some(j), b, Some(i), Apart(n, i, j, seen, Ready(between))),
     Race(between, e, None, a, Some(i), Apart(n, i, j, seen, Finished)),
     Race(between, e, Some(i), a, Some(i), Apart(n, i, j, Ready(late), Finished)),
     Race(late, e + [Change(callers[i])], None, map[], None, Apart(n, i, j, Finished, Finished))]
  }

  /** One move of `i` or `j`, in terms of their two phases. */
  lemma {:induction false} MoveOfTwo(callers: seq<Caller>, i: nat, j: nat, s: Race, m: nat, s': Race,
                                     p: Phase, q: Phase, r: Phase)
    requires i < |callers| && j < |callers| && i != j && m in {i, j}
    requires s.phases == Apart(|callers|, i, j, p, q)
    requires s'.phases == if m == i then Apart(|callers|, i, j, r, q) else Apart(|callers|, i, j, p, r)
    ensures |s.phases| == |callers| && s.phases[i] == p && s.phases[j] == q && s'.phases == s.phases[m := r]
  {
    ApartSteps(|callers|, i, j, p, q, r);
  }

  lemma {:induction false} ReadingMoves(callers: seq<Caller>, i: nat, j: nat, opening: int, k: nat)
    requires Crossing(callers, i, j) && k < 3
    ensures Next(callers, Overtaken(callers, i, j, opening)[k], Overtaking(i, j)[k],
                 Overtaken(callers, i, j, opening)[k + 1])
  {
    hide Apart, Released;
    var states := Overtaken(callers, i, j, opening);
    var s, s', m := states[k], states[k + 1], Overtaking(i, j)[k].i;
    ReleasedAccounts(callers[i].account, callers[j].account, i, j);
    if k == 0 {
      MoveOfTwo(callers, i, j, s, m, s', Idle, Idle, HasAccount);
    } else if k == 1 {
      MoveOfTwo(callers, i, j, s, m, s', HasAccount, Idle, HasPayee);
    } else {
      MoveOfTwo(callers, i, j, s, m, s', HasPayee, Idle, HasRead(opening));
    }
  }

  lemma {:induction false} BuyingMoves(callers: seq<Caller>, i: nat, j: nat, opening: int, k: nat)
    requires Crossing(callers, i, j) && 3 <= k < 6
    ensures Next(callers, Overtaken(callers, i, j, opening)[k], Overtaking(i, j)[k],
                 Overtaken(callers, i, j, opening)[k + 1])
  {
    hide Apart, Released;
    var states := Overtaken(callers, i, j, opening);
    var s, s', m := states[k], states[k + 1], Overtaking(i, j)[k].i;
    var seen, between := HasRead(opening), Ready(opening + Change(callers[j]));
    ReleasedAccounts(callers[i].account, callers[j].account, i, j);
    assert [] + [Change(callers[j])] == [Change(callers[j])];
    if k == 3 {
      MoveOfTwo(callers, i, j, s, m, s', seen, Idle, HasGoal(opening));
    } else if k == 4 {
      MoveOfTwo(callers, i, j, s, m, s', seen, HasGoal(opening), between);
    } else {
      MoveOfTwo(callers, i, j, s, m, s', seen, between, Finished);
    }
  }

  lemma {:induction false} WritingMoves(callers: seq<Caller>, i: nat, j: nat, opening: int, k: nat)
    requires Crossing(callers, i, j) && 6 <= k < 8
    ensures Next(callers, Overtaken(callers, i, j, opening)[k], Overtaking(i, j)[k],
                 Overtaken(callers, i, j, opening)[k + 1])
  {
    hide Apart, Released;
    var states := Overtaken(callers, i, j, opening);
    var s, s', m := states[k], states[k + 1], Overtaking(i, j)[k].i;
    var late := Ready(opening + Change(callers[i]));
    ReleasedAccounts(callers[i].account, callers[j].account, i, j);
    if k == 6 {
      MoveOfTwo(callers, i, j, s, m, s', HasRead(opening), Finished, late);
    } else {
      MoveOfTwo(callers, i, j, s, m, s', late, Finished, Finished);
    }
  }

  /** Any settler can overwrite the change of any buyer into another account. */
  lemma {:induction false} CrossingCanLose(callers: seq<Caller>, i: nat, j: nat, opening: int)
    requires Crossing(callers, i, j)
    ensures var states, moves := Overtaken(callers, i, j, opening), Overtaking(i, j);
            var last := states[|moves|];
            && Interleaving(callers, states, moves) && Starts(callers, states[0]) && states[0].salak == opening
            && last.changes == [Change(callers[j]), Change(callers[i])] && last.salak == opening + Change(callers[i])
  {
    hide Next;
    var states, moves := Overtaken(callers, i, j, opening), Overtaking(i, j);
    forall k: nat | k < |moves| ensures Next(callers, states[k], moves[k], states[k + 1]) {
      if k < 3 {
        ReadingMoves(callers, i, j, opening, k);
      } else if k < 6 {
        BuyingMoves(callers, i, j, opening, k);
      } else {
        WritingMoves(callers, i, j, opening, k);
      }
    }
    assert states[0].phases == seq(|callers|, k => Idle);
  }

  // ---- exactly when nothing is lost

  ghost predicate NeverLoses(callers: seq<Caller>) {
    forall states: seq<Race>, moves :: Interleaving(callers, states, moves) && Starts(callers, states[0]) ==>
      AllKept(states)
  }

  /** The last salak amount is the first with every committed change. */
  ghost predicate AllKept(states: seq<Race>)
    requires states != []
  {
    var last := states[|states| - 1];
    last.salak == states[0].salak + Sum(last.changes, Itself())
  }

  /** No interleaving of purchases and settlements of a goal loses a change of
      its salak amount if and only if they share one salak account, or all buy,
      or all settle. */
  lemma {:induction false} LosesNothingExactlyWhen(callers: seq<Caller>)
    requires forall i :: 0 <= i < |callers| ==> callers[i].amount > 0
    ensures NeverLoses(callers) <==> OneAccount(callers) || AllBuy(callers) || AllSettle(callers)
  {
    hide Starts, Next;
    HarmlessExactlyWhen(callers);
    if Harmless(callers) {
      forall states: seq<Race>, moves | Interleaving(callers, states, moves) && Starts(callers, states[0])
        ensures AllKept(states)
      {
        HarmlessLosesNothing(callers, states, moves, |states| - 1);
      }
    } else {
      var i: nat, j: nat :| Crossing(callers, i, j);
      CrossingCanLose(callers, i, j, 0);
      assert !AllKept(Overtaken(callers, i, j, 0)) by {
        SumOf2(Change(callers[j]), Change(callers[i]), Itself());
      }
    }
  }
}
