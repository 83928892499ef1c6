/** The explicit row locks of the service calls and of worker passes, and which
    sets of them cannot deadlock. */
module LockOrder {
  import opened Outcomes
  import opened Database

  datatype Lock = GoalLock(id: nat) | AccountLock(kind: Kind, id: nat) | CursorLock(id: nat) | HoldingLock(id: nat)

  /** Goal, kapook account, savings account, ticket cursor, salak account; no
      customer call locks a holding. */
  function Rank(l: Lock): nat {
    match l
    case GoalLock(_) => 0
    case AccountLock(Kapook, _) => 1
    case AccountLock(Savings, _) => 2
    case CursorLock(_) => 3
    case AccountLock(Salak, _) => 4
    case HoldingLock(_) => 5
  }

  /** Locking a row already held takes no new lock. */
  function With(locks: seq<Lock>, l: Lock): seq<Lock> {
    if l in locks then locks else locks + [l]
  }

  /** Locks in the order taken, at most one row of each class. */
  predicate Rising(locks: seq<Lock>) {
    forall i, j :: 0 <= i < j < |locks| ==> Rank(locks[i]) < Rank(locks[j])
  }

  /** A kapook account is locked after its open goal. */
  predicate GoalBefore(held: seq<Lock>, l: Lock, goals: seq<Goal>) {
    l.AccountLock? && l.kind == Kapook ==>
      ActiveGoal(goals, l.id).Some? && GoalLock(ActiveGoal(goals, l.id).value) in held
  }

  /** The locks of a customer's call, in the order taken. */
  predicate CustomerPlan(plan: seq<Lock>, goals: seq<Goal>) {
    && Rising(plan)
    && forall j :: 0 <= j < |plan| ==> !plan[j].HoldingLock? && GoalBefore(plan[..j], plan[j], goals)
  }

  lemma {:induction false} CustomerEmpty(goals: seq<Goal>)
    ensures CustomerPlan([], goals)
  {}

  lemma {:induction false} HeldAlready(locks: seq<Lock>, l: Lock, i: nat)
    requires i < |locks| && locks[i] == l
    ensures With(locks, l) == locks
  {}

  lemma {:induction false} WithTwice(locks: seq<Lock>, l: Lock)
    ensures With(With(locks, l), l) == With(locks, l)
  {}

  lemma {:induction false} RisingWith(locks: seq<Lock>, l: Lock)
    requires Rising(locks) && (locks != [] ==> Rank(locks[|locks| - 1]) < Rank(l))
    ensures With(locks, l) == locks + [l] && Rising(locks + [l]) && With(locks + [l], l) == locks + [l]
  {}

  /** A lock ranked above the last one taken keeps the order; one already held
      changes nothing. */
  lemma {:induction false} CustomerWith(locks: seq<Lock>, l: Lock, goals: seq<Goal>)
    requires CustomerPlan(locks, goals) && (locks != [] ==> Rank(locks[|locks| - 1]) < Rank(l))
    requires !l.HoldingLock? && GoalBefore(locks, l, goals)
    ensures With(locks, l) == locks + [l] && CustomerPlan(With(locks, l), goals)
    ensures With(With(locks, l), l) == With(locks, l)
  {
    hide GoalBefore, With, Rising, Rank;
    RisingWith(locks, l);
    var after := locks + [l];
    forall j | 0 <= j < |after| ensures !after[j].HoldingLock? && GoalBefore(after[..j], after[j], goals) {
      assert after[..j] == if j < |locks| then locks[..j] else locks;
    }
  }

  /** A transaction holds the first `held` locks of its plan and, when blocked,
      waits for the next one. */
  datatype Transaction = Transaction(plan: seq<Lock>, held: nat)

  predicate Blocked(t: Transaction) {
    t.held < |t.plan|
  }

  predicate WaitsFor(t: Transaction, u: Transaction) {
    Blocked(t) && u.held <= |u.plan| && t.plan[t.held] in u.plan[..u.held]
  }

  predicate WaitsForNext(ts: seq<Transaction>, i: nat)
    requires i + 1 < |ts|
  {
    WaitsFor(ts[i], ts[i + 1])
  }

  /** A circle of waiting, the first transaction written again at the end. */
  ghost predicate Deadlock(ts: seq<Transaction>) {
    |ts| > 1 && ts[0] == ts[|ts| - 1] && forall i: nat :: i + 1 < |ts| ==> WaitsForNext(ts, i)
  }

  ghost predicate Orderly(ts: seq<Transaction>) {
    forall t :: t in ts ==> Rising(t.plan)
  }

  /** What it waits for ranks above all it holds. */
  predicate WaitsAbove(t: Transaction) {
    Blocked(t) ==> forall i :: 0 <= i < t.held ==> Rank(t.plan[i]) < Rank(t.plan[t.held])
  }

  /** Each transaction of the circle waits for a lock ranked above the one the
      transaction before it waits for. */
  lemma {:induction false} RanksClimb(ts: seq<Transaction>, k: nat)
    requires Deadlock(ts) && (forall t :: t in ts ==> WaitsAbove(t)) && k < |ts|
    ensures Blocked(ts[0]) && Blocked(ts[k])
    ensures Rank(ts[0].plan[ts[0].held]) + k <= Rank(ts[k].plan[ts[k].held])
  {
    CircleIsBlocked(ts, 0);
    CircleIsBlocked(ts, k);
    if k > 0 {
      RanksClimb(ts, k - 1);
      assert WaitsForNext(ts, k - 1) && ts[k] in ts;
      var held :| 0 <= held < ts[k].held && ts[k].plan[held] == ts[k - 1].plan[ts[k - 1].held];
    }
  }

  lemma {:induction false} CircleIsBlocked(ts: seq<Transaction>, k: nat)
    requires Deadlock(ts) && k < |ts|
    ensures Blocked(ts[k])
    ensures exists u :: u in ts && WaitsFor(ts[k], u)
  {
    var at := if k + 1 < |ts| then k else 0;
    assert WaitsForNext(ts, at);
    assert ts[at + 1] in ts && WaitsFor(ts[k], ts[at + 1]);
  }

  lemma {:induction false} NoCircleUpwards(ts: seq<Transaction>)
    requires forall t :: t in ts ==> WaitsAbove(t)
    ensures !Deadlock(ts)
  {
    if Deadlock(ts) {
      RanksClimb(ts, |ts| - 1);
      assert false;
    }
  }

  /** Transactions that take their locks in rising order never wait in a circle. */
  lemma {:induction false} NoDeadlock(ts: seq<Transaction>)
    requires Orderly(ts)
    ensures !Deadlock(ts)
  {
    forall t | t in ts ensures WaitsAbove(t) {}
    NoCircleUpwards(ts);
  }

  // ---- the order is needed

  predicate HoldApart(t: Transaction, u: Transaction) {
    && t.held <= |t.plan| && u.held <= |u.plan|
    && forall i, j :: 0 <= i < t.held && 0 <= j < u.held ==> t.plan[i] != u.plan[j]
  }

  lemma {:induction false} WaitForEachOther(t: Transaction, u: Transaction, i: nat, j: nat)
    requires Blocked(t) && Blocked(u) && i < t.held && j < u.held
    requires t.plan[t.held] == u.plan[j] && u.plan[u.held] == t.plan[i]
    ensures Deadlock([t, u, t])
  {
    var ts := [t, u, t];
    assert u.plan[..u.held][j] == t.plan[t.held] && t.plan[..t.held][i] == u.plan[u.held];
    assert WaitsForNext(ts, 0) && WaitsForNext(ts, 1);
  }

  /** A settlement, which locks the salak account before the savings account it
      pays, and a purchase funded from that savings account can wait for each
      other. */
  lemma {:induction false} SettlementCanDeadlock(holding: nat, salak: nat, savings: nat, product: nat)
    ensures var settle := Transaction([HoldingLock(holding), AccountLock(Salak, salak),
            AccountLock(Savings, savings)], 2);
            var buy := Transaction([AccountLock(Savings, savings), CursorLock(product), AccountLock(Salak, salak)], 2);
            Deadlock([settle, buy, settle]) && HoldApart(settle, buy) && Rising(buy.plan) && !Rising(settle.plan)
  {
    var settle := Transaction([HoldingLock(holding), AccountLock(Salak, salak), AccountLock(Savings, savings)], 2);
    var buy := Transaction([AccountLock(Savings, savings), CursorLock(product), AccountLock(Salak, salak)], 2);
    assert Rank(settle.plan[0]) > Rank(settle.plan[1]);
    WaitForEachOther(settle, buy, 1, 0);
  }

  /** What a pass locks for one claimed goal after claiming it. */
  datatype Work = Work(goal: nat, kapook: nat, product: nat, salak: nat)

  function Purchases(works: seq<Work>): seq<Lock> {
    if works == [] then []
    else
      var w := works[0];
      [AccountLock(Kapook, w.kapook), CursorLock(w.product), AccountLock(Salak, w.salak)] + Purchases(works[1..])
  }

  /** What a pass locks that has claimed `claim` and buys `works` in turn. A goal
      it defers takes no further lock, and a purchase that fails gives its own
      back, so neither is listed. */
  function ClaimPlan(claim: seq<nat>, works: seq<Work>): seq<Lock> {
    seq(|claim|, i requires 0 <= i < |claim| => GoalLock(claim[i])) + Purchases(works)
  }

  /** A pass that buys every goal it claimed. */
  function PassPlan(works: seq<Work>): seq<Lock> {
    ClaimPlan(seq(|works|, i requires 0 <= i < |works| => works[i].goal), works)
  }

  lemma {:induction false} PlanOfTwo(a: Work, b: Work)
    ensures PassPlan([a, b]) == [GoalLock(a.goal), GoalLock(b.goal),
              AccountLock(Kapook, a.kapook), CursorLock(a.product), AccountLock(Salak, a.salak),
              AccountLock(Kapook, b.kapook), CursorLock(b.product), AccountLock(Salak, b.salak)]
  {
    assert [a, b][1..] == [b] && [b][1..] == [];
    assert Purchases([b]) == [AccountLock(Kapook, b.kapook), CursorLock(b.product), AccountLock(Salak, b.salak)];
  }

  predicate WorksApart(a: Work, b: Work) {
    a.goal != b.goal && a.kapook != b.kapook && a.salak != b.salak
  }

  /** Two passes, each buying of two products in the other order, can wait for
      each other's ticket cursors. */
  lemma {:induction false} PassesCanDeadlock(a: Work, b: Work, c: Work, d: Work)
    requires a.product == d.product != b.product == c.product
    requires WorksApart(a, c) && WorksApart(a, d) && WorksApart(b, c) && WorksApart(b, d)
    ensures var one, other := Transaction(PassPlan([a, b]), 6), Transaction(PassPlan([c, d]), 6);
            Deadlock([one, other, one]) && HoldApart(one, other)
  {
    PlanOfTwo(a, b);
    PlanOfTwo(c, d);
    hide PassPlan;
    WaitForEachOther(Transaction(PassPlan([a, b]), 6), Transaction(PassPlan([c, d]), 6), 3, 3);
  }

  /** A pass that has credited a customer's salak account and a purchase into
      that account of the product the pass buys next can wait for each other. */
  lemma {:induction false} PassAndPurchaseCanDeadlock(a: Work, b: Work, savings: nat)
    requires a.product != b.product
    ensures var pass := Transaction(PassPlan([a, b]), 6);
            var buy := Transaction([AccountLock(Savings, savings), CursorLock(b.product),
                AccountLock(Salak, a.salak)], 2);
            Deadlock([pass, buy, pass]) && HoldApart(pass, buy) && Rising(buy.plan)
  {
    PlanOfTwo(a, b);
    hide PassPlan;
    var buy := Transaction([AccountLock(Savings, savings), CursorLock(b.product), AccountLock(Salak, a.salak)], 2);
    WaitForEachOther(Transaction(PassPlan([a, b]), 6), buy, 4, 1);
  }

  // ---- passes over one product

  predicate OnlyGoals(locks: seq<Lock>) {
    forall l :: l in locks ==> l.GoalLock?
  }

  /** Locks are new; goals come first, then a kapook account, then the cursor of
      product `p`, and any other account only behind that cursor. */
  predicate MayTake(held: seq<Lock>, l: Lock, p: nat, goals: seq<Goal>) {
    && l !in held && GoalBefore(held, l, goals)
    && match l
       case GoalLock(_) => OnlyGoals(held)
       case AccountLock(Kapook, _) => OnlyGoals(held) || CursorLock(p) in held
       case CursorLock(q) => q == p && forall m :: m in held ==> Rank(m) < Rank(l)
       case AccountLock(Salak, _) => CursorLock(p) in held
       case _ => false
  }

  predicate GatedPlan(plan: seq<Lock>, p: nat, goals: seq<Goal>) {
    forall j :: 0 <= j < |plan| ==> MayTake(plan[..j], plan[j], p, goals)
  }

  /** A list of locks without the repeats. */
  function Taken(locks: seq<Lock>): seq<Lock> {
    if locks == [] then [] else With(Taken(locks[..|locks| - 1]), locks[|locks| - 1])
  }

  /** Everything bought is of product `p`, for the open goal of its account. */
  predicate WorksOver(claim: seq<nat>, works: seq<Work>, p: nat, goals: seq<Goal>) {
    forall w :: w in works ==>
      w.product == p && w.goal in claim && ActiveGoal(goals, w.kapook) == Some(w.goal)
  }

  lemma {:induction false} TakenSnoc(locks: seq<Lock>, l: Lock)
    ensures Taken(locks + [l]) == With(Taken(locks), l)
  {
    assert (locks + [l])[..|locks|] == locks;
  }

  lemma {:induction false} GatedWith(held: seq<Lock>, l: Lock, p: nat, goals: seq<Goal>)
    requires GatedPlan(held, p, goals) && (l in held || MayTake(held, l, p, goals))
    ensures GatedPlan(With(held, l), p, goals) && l in With(held, l)
    ensures forall m :: m in held ==> m in With(held, l)
  {
    hide MayTake;
    var plan := With(held, l);
    forall j | 0 <= j < |plan| ensures MayTake(plan[..j], plan[j], p, goals) {
      if j < |held| {
        assert plan[..j] == held[..j];
      } else {
        assert plan[..j] == held;
      }
    }
  }

  lemma {:induction false} NothingIsGated(p: nat, goals: seq<Goal>)
    ensures GatedPlan([], p, goals)
  {}

  lemma {:induction false} ClaimIsGated(claim: seq<nat>, p: nat, goals: seq<Goal>)
    ensures var locks := Taken(ClaimPlan(claim, []));
            && GatedPlan(locks, p, goals) && OnlyGoals(locks) && forall g :: g in claim ==> GoalLock(g) in locks
  {
    hide GatedPlan;
    if claim == [] {
      NothingIsGated(p, goals);
    } else {
      var n := |claim| - 1;
      ClaimIsGated(claim[..n], p, goals);
      assert ClaimPlan(claim, []) == ClaimPlan(claim[..n], []) + [GoalLock(claim[n])];
      TakenSnoc(ClaimPlan(claim[..n], []), GoalLock(claim[n]));
      GatedWith(Taken(ClaimPlan(claim[..n], [])), GoalLock(claim[n]), p, goals);
    }
  }

  function PurchaseLocks(w: Work): seq<Lock> {
    [AccountLock(Kapook, w.kapook), CursorLock(w.product), AccountLock(Salak, w.salak)]
  }

  lemma {:induction false} PurchasesSnoc(works: seq<Work>, w: Work)
    ensures Purchases(works + [w]) == Purchases(works) + PurchaseLocks(w)
  {
    if works == [] {
      assert [w][1..] == [];
    } else {
      assert (works + [w])[1..] == works[1..] + [w];
      PurchasesSnoc(works[1..], w);
    }
  }

  lemma {:induction false} TakenPurchase(locks: seq<Lock>, w: Work)
    ensures Taken(locks + PurchaseLocks(w)) == With(With(With(Taken(locks),
                AccountLock(Kapook, w.kapook)), CursorLock(w.product)), AccountLock(Salak, w.salak))
  {
    hide Taken, With;
    var kapook, cursor, salak := AccountLock(Kapook, w.kapook), CursorLock(w.product), AccountLock(Salak, w.salak);
    TakenSnoc(locks, kapook);
    TakenSnoc(locks + [kapook], cursor);
    TakenSnoc(locks + [kapook] + [cursor], salak);
    assert locks + PurchaseLocks(w) == locks + [kapook] + [cursor] + [salak];
  }

  lemma {:induction false} PurchaseIsGated(held: seq<Lock>, w: Work, p: nat, goals: seq<Goal>)
    requires GatedPlan(held, p, goals) && (OnlyGoals(held) || CursorLock(p) in held)
    requires w.product == p && ActiveGoal(goals, w.kapook) == Some(w.goal) && GoalLock(w.goal) in held
    ensures var after := With(With(With(held, AccountLock(Kapook, w.kapook)), CursorLock(p)),
                AccountLock(Salak, w.salak));
            GatedPlan(after, p, goals) && CursorLock(p) in after && forall m :: m in held ==> m in after
  {
    hide GatedPlan;
    var first := With(held, AccountLock(Kapook, w.kapook));
    GatedWith(held, AccountLock(Kapook, w.kapook), p, goals);
    GatedWith(first, CursorLock(p), p, goals);
    GatedWith(With(first, CursorLock(p)), AccountLock(Salak, w.salak), p, goals);
  }

  lemma {:induction false} PassIsGated(claim: seq<nat>, works: seq<Work>, p: nat, goals: seq<Goal>)
    requires WorksOver(claim, works, p, goals)
    ensures var locks := Taken(ClaimPlan(claim, works));
            && GatedPlan(locks, p, goals) && (OnlyGoals(locks) || CursorLock(p) in locks)
            && forall g :: g in claim ==> GoalLock(g) in locks
  {
    hide GatedPlan, OnlyGoals, Taken;
    if works == [] {
      ClaimIsGated(claim, p, goals);
    } else {
      var n := |works| - 1;
      PassIsGated(claim, works[..n], p, goals);
      assert works == works[..n] + [works[n]];
      PurchasesSnoc(works[..n], works[n]);
      assert ClaimPlan(claim, works) == ClaimPlan(claim, works[..n]) + PurchaseLocks(works[n]);
      TakenPurchase(ClaimPlan(claim, works[..n]), works[n]);
      PurchaseIsGated(Taken(ClaimPlan(claim, works[..n])), works[n], p, goals);
    }
  }

  /** A pass that buys of product `p` only. Claiming skips locked goals, so a
      pass never waits for one. */
  ghost predicate OneProductPass(t: Transaction, p: nat, goals: seq<Goal>) {
    && (Blocked(t) ==> !t.plan[t.held].GoalLock?)
    && exists claim, works :: WorksOver(claim, works, p, goals) && t.plan == Taken(ClaimPlan(claim, works))
  }

  ghost predicate AllApart(ts: seq<Transaction>) {
    forall t, u :: t in ts && u in ts && t != u ==> HoldApart(t, u)
  }

  /** Whoever has the next lock of a pass in a circle, it was the pass's to take:
      no customer waits behind a salak account, and the cursor admits one pass. */
  lemma {:induction false} PassWaitsAbove(t: Transaction, v: Transaction, p: nat, goals: seq<Goal>)
    requires GatedPlan(t.plan, p, goals) && Blocked(t) && !t.plan[t.held].GoalLock?
    requires CustomerPlan(v.plan, goals) || GatedPlan(v.plan, p, goals)
    requires Blocked(v) && WaitsFor(t, v) && (t != v ==> HoldApart(t, v))
    ensures WaitsAbove(t)
  {
    var l := t.plan[t.held];
    assert MayTake(t.plan[..t.held], l, p, goals);
    var j :| 0 <= j < v.held && v.plan[j] == l;
    assert t != v;
    assert CustomerPlan(v.plan, goals) ==> GoalBefore(v.plan[..j], l, goals);
    assert GatedPlan(v.plan, p, goals) ==> MayTake(v.plan[..j], l, p, goals);
    HeldApart(t, v, j);
  }

  lemma {:induction false} HeldApart(t: Transaction, v: Transaction, j: nat)
    requires HoldApart(t, v) && j <= v.held
    ensures forall l :: l in v.plan[..j] ==> l !in t.plan[..t.held]
  {}

  /** Passes that buy of one product, together with any customer calls, never
      wait in a circle. */
  lemma {:induction false} OneProductNeverDeadlocks(ts: seq<Transaction>, p: nat, goals: seq<Goal>)
    requires forall t :: t in ts ==> CustomerPlan(t.plan, goals) || OneProductPass(t, p, goals)
    requires AllApart(ts)
    ensures !Deadlock(ts)
  {
    hide CustomerPlan, OneProductPass, WaitsAbove;
    if Deadlock(ts) {
      forall t | t in ts ensures WaitsAbove(t) {
        var k :| 0 <= k < |ts| && ts[k] == t;
        CircleIsBlocked(ts, k);
        var v :| v in ts && WaitsFor(t, v);
        var m :| 0 <= m < |ts| && ts[m] == v;
        CircleIsBlocked(ts, m);
        MemberWaitsAbove(t, v, p, goals);
      }
      NoCircleUpwards(ts);
    }
  }

  lemma {:induction false} MemberWaitsAbove(t: Transaction, v: Transaction, p: nat, goals: seq<Goal>)
    requires CustomerPlan(t.plan, goals) || OneProductPass(t, p, goals)
    requires CustomerPlan(v.plan, goals) || OneProductPass(v, p, goals)
    requires Blocked(t) && Blocked(v) && WaitsFor(t, v) && (t != v ==> HoldApart(t, v))
    ensures WaitsAbove(t)
  {
    hide Taken, ClaimPlan, WorksOver, GatedPlan;
    if OneProductPass(t, p, goals) {
      OnePassIsGated(t, p, goals);
      if OneProductPass(v, p, goals) {
        OnePassIsGated(v, p, goals);
      }
      PassWaitsAbove(t, v, p, goals);
    }
  }

  lemma {:induction false} OnePassIsGated(t: Transaction, p: nat, goals: seq<Goal>)
    requires OneProductPass(t, p, goals)
    ensures GatedPlan(t.plan, p, goals)
  {
    hide Taken, ClaimPlan, WorksOver, GatedPlan;
    var claim, works :| WorksOver(claim, works, p, goals) && t.plan == Taken(ClaimPlan(claim, works));
    PassIsGated(claim, works, p, goals);
  }
}
