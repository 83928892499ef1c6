/** Over every run, no two tickets of a product print alike, and the holdings of a
    product replay its cursor: what it has passed is what they issued and the
    tails they left behind. */
module Issued {
  import opened Outcomes
  import opened Calendar
  import opened Sums
  import opened Database
  import opened Steps
  import opened Laws
  import opened PurchasesKept
  import opened Worker
  import opened Runs
  import Tickets

  // ---- printed numbers

  predicate HasTicket(h: Holding, number: int) {
    0 <= h.start <= number <= h.end && Tickets.IsLetter(h.letter)
  }

  lemma {:induction false} SamePrintSameTicket(a: int, m: nat, b: int, n: nat)
    requires Tickets.IsLetter(a) && Tickets.IsLetter(b) && Tickets.TicketId(a, m) == Tickets.TicketId(b, n)
    ensures a == b && m == n
  {
    hide Tickets.TicketId, Tickets.ParseDigits, Tickets.AllDigits;
    Tickets.TicketIdParses(a, m);
    Tickets.TicketIdParses(b, n);
  }

  lemma {:induction false} TicketsDiffer(db: Db, h: nat, m: nat, k: nat, n: nat)
    requires Inv(db) && h < |db.holdings| && k < |db.holdings| && db.holdings[h].product == db.holdings[k].product
    requires HasTicket(db.holdings[h], m) && HasTicket(db.holdings[k], n) && (h != k || m != n)
    ensures Tickets.TicketId(db.holdings[h].letter, m) != Tickets.TicketId(db.holdings[k].letter, n)
  {
    hide BooksLaw, AccountsLaw, ReferenceLaw, GoalsLaw, RowsLaw, CashLaw, SalakLaw, PaidOnceLaw, FeeLaw,
        Tickets.TicketId;
    assert h != k ==> Disjoint(db.holdings[h], db.holdings[k]) || Disjoint(db.holdings[k], db.holdings[h]);
    if Tickets.TicketId(db.holdings[h].letter, m) == Tickets.TicketId(db.holdings[k].letter, n) {
      SamePrintSameTicket(db.holdings[h].letter, m, db.holdings[k].letter, n);
    }
  }

  /** In any state of any run, different tickets of one product, of whichever
      holdings, settled or not, never print alike. */
  lemma {:induction false} RunTicketsDiffer(states: seq<Db>, events: seq<Event>, i: nat, h: nat, m: nat, k: nat, n: nat)
    requires IsRun(states, events) && Inv(states[0]) && i < |states|
    requires h < |states[i].holdings| && k < |states[i].holdings|
    requires states[i].holdings[h].product == states[i].holdings[k].product
    requires HasTicket(states[i].holdings[h], m) && HasTicket(states[i].holdings[k], n) && (h != k || m != n)
    ensures Tickets.TicketId(states[i].holdings[h].letter, m) != Tickets.TicketId(states[i].holdings[k].letter, n)
  {
    hide Inv, Apply, Ready;
    RunKeepsInv(states, events, i);
    TicketsDiffer(states[i], h, m, k, n);
  }

  // ---- the cursor

  const FIRST := Tickets.Cursor(Tickets.CONSONANT_START, 0)

  /** The ranges of a product's holdings, in the order minted. */
  function GrantsOf(holdings: seq<Holding>, p: nat): seq<Tickets.Grant> {
    if holdings == [] then []
    else
      var h := holdings[|holdings| - 1];
      GrantsOf(holdings[..|holdings| - 1], p) +
      (if h.product == p then [Tickets.Grant(h.letter, h.start, h.end)] else [])
  }

  /** What was asked for each. */
  function RequestsOf(holdings: seq<Holding>, p: nat): seq<int> {
    if holdings == [] then []
    else
      var h := holdings[|holdings| - 1];
      RequestsOf(holdings[..|holdings| - 1], p) + (if h.product == p then [h.units] else [])
  }

  /** Serving a product's holdings again from the first ticket on hands out their
      ranges and ends at the product's cursor. */
  ghost predicate Replays(holdings: seq<Holding>, p: nat, cursor: Tickets.Cursor) {
    && Tickets.Positive(RequestsOf(holdings, p))
    && Tickets.Serve(FIRST, RequestsOf(holdings, p)).cursor == cursor
    && Tickets.Serve(FIRST, RequestsOf(holdings, p)).grants == GrantsOf(holdings, p)
  }

  ghost predicate TicketsLaw(db: Db) {
    && (forall p: nat :: p < |db.cursors| ==> Replays(db.holdings, p, db.cursors[p]))
    && (forall h :: 0 <= h < |db.holdings| ==> db.holdings[h].product < |db.cursors|)
  }

  predicate SameTickets(h: Holding, k: Holding) {
    h.product == k.product && h.units == k.units && h.letter == k.letter && h.start == k.start && h.end == k.end
  }

  /** A step that mints nothing: holdings keep their tickets, cursors stay, and
      new products start at the first ticket. */
  ghost predicate IssuesNothing(db: Db, db': Db) {
    && |db'.holdings| == |db.holdings| && db.cursors <= db'.cursors
    && (forall h :: 0 <= h < |db.holdings| ==> SameTickets(db.holdings[h], db'.holdings[h]))
    && (forall p :: |db.cursors| <= p < |db'.cursors| ==> db'.cursors[p] == FIRST)
  }

  /** A step that mints one holding with what its product's cursor hands out. */
  ghost predicate IssuesOne(db: Db, db': Db, h: Holding, next: Tickets.Cursor) {
    && db'.holdings == db.holdings + [h] && h.product < |db.cursors| && h.units > 0
    && Tickets.Reserve(db.cursors[h.product], h.units) ==
       Success((Tickets.Grant(h.letter, h.start, h.end), next))
    && db'.cursors == db.cursors[h.product := next]
  }

  ghost predicate Issues(db: Db, db': Db) {
    IssuesNothing(db, db') || exists h, next :: IssuesOne(db, db', h, next)
  }

  lemma {:induction false} SameReplay(s: seq<Holding>, t: seq<Holding>, p: nat)
    requires |s| == |t| && forall k :: 0 <= k < |s| ==> SameTickets(s[k], t[k])
    ensures RequestsOf(s, p) == RequestsOf(t, p) && GrantsOf(s, p) == GrantsOf(t, p)
  {
    if s != [] {
      SameReplay(s[..|s| - 1], t[..|t| - 1], p);
    }
  }

  lemma {:induction false} NothingOf(holdings: seq<Holding>, p: nat)
    requires forall k :: 0 <= k < |holdings| ==> holdings[k].product != p
    ensures RequestsOf(holdings, p) == [] && GrantsOf(holdings, p) == []
  {
    if holdings != [] {
      NothingOf(holdings[..|holdings| - 1], p);
    }
  }

  lemma {:induction false} ServeSnoc(requests: seq<int>, units: int, g: Tickets.Grant, next: Tickets.Cursor)
    requires Tickets.Positive(requests) && units > 0
    requires Tickets.Reserve(Tickets.Serve(FIRST, requests).cursor, units) == Success((g, next))
    ensures Tickets.Positive(requests + [units])
    ensures var after := Tickets.Serve(FIRST, requests + [units]);
            after.cursor == next && after.grants == Tickets.Serve(FIRST, requests).grants + [g]
  {
    assert (requests + [units])[..|requests|] == requests;
  }

  lemma {:induction false} MintReplays(holdings: seq<Holding>, h: Holding, p: nat, cursor: Tickets.Cursor,
                                       next: Tickets.Cursor)
    requires Replays(holdings, p, cursor) && h.product == p && h.units > 0
    requires Tickets.Reserve(cursor, h.units) == Success((Tickets.Grant(h.letter, h.start, h.end), next))
    ensures Replays(holdings + [h], p, next)
  {
    hide Tickets.Reserve;
    assert (holdings + [h])[..|holdings|] == holdings;
    assert RequestsOf(holdings + [h], p) == RequestsOf(holdings, p) + [h.units];
    assert GrantsOf(holdings + [h], p) == GrantsOf(holdings, p) + [Tickets.Grant(h.letter, h.start, h.end)];
    ServeSnoc(RequestsOf(holdings, p), h.units, Tickets.Grant(h.letter, h.start, h.end), next);
  }

  lemma {:induction false} OtherMintReplays(holdings: seq<Holding>, h: Holding, p: nat, cursor: Tickets.Cursor)
    requires Replays(holdings, p, cursor) && h.product != p
    ensures Replays(holdings + [h], p, cursor)
  {
    assert (holdings + [h])[..|holdings|] == holdings;
    assert RequestsOf(holdings + [h], p) == RequestsOf(holdings, p);
    assert GrantsOf(holdings + [h], p) == GrantsOf(holdings, p);
  }

  lemma {:induction false} NothingKeepsTickets(db: Db, db': Db)
    requires TicketsLaw(db) && IssuesNothing(db, db')
    ensures TicketsLaw(db')
  {
    forall p: nat | p < |db'.cursors| ensures Replays(db'.holdings, p, db'.cursors[p]) {
      SameReplay(db.holdings, db'.holdings, p);
      if p >= |db.cursors| {
        NothingOf(db'.holdings, p);
      }
    }
  }

  lemma {:induction false} OneKeepsTickets(db: Db, db': Db, h: Holding, next: Tickets.Cursor)
    requires TicketsLaw(db) && IssuesOne(db, db', h, next)
    ensures TicketsLaw(db')
  {
    hide Replays;
    forall p: nat | p < |db'.cursors| ensures Replays(db'.holdings, p, db'.cursors[p]) {
      if p == h.product {
        MintReplays(db.holdings, h, p, db.cursors[p], next);
      } else {
        OtherMintReplays(db.holdings, h, p, db.cursors[p]);
      }
    }
  }

  lemma {:induction false} IssuesKeepsTickets(db: Db, db': Db)
    requires TicketsLaw(db) && Issues(db, db')
    ensures TicketsLaw(db')
  {
    hide TicketsLaw, IssuesNothing, IssuesOne;
    if IssuesNothing(db, db') {
      NothingKeepsTickets(db, db');
    } else {
      var h, next :| IssuesOne(db, db', h, next);
      OneKeepsTickets(db, db', h, next);
    }
  }

  // ---- what each call issues

  lemma {:induction false} MintedIssues(db: Db, funding: nat, salak: nat, product: nat, amount: int, now: Stamp)
    requires MintOk(db, funding, salak, product, amount, now)
    ensures Issues(db, Minted(db, funding, salak, product, amount, now))
  {
    var (h, next) := Mint(db, salak, product, amount, now).value;
    assert IssuesOne(db, Minted(db, funding, salak, product, amount, now), h, next);
  }

  lemma {:induction false} BuySalakIssues(db: Db, user: nat, funding: nat, salak: nat, product: nat, amount: int,
          now: Stamp)
    requires Tables(db) && TicketsLaw(db) && BuySalak(db, user, funding, salak, product, amount, now).Done?
    ensures Issues(db, BuySalak(db, user, funding, salak, product, amount, now).db)
  {
    hide BuySalak, Issues, Minted;
    BuySalakGuards(db, user, funding, salak, product, amount, now);
    MintedIssues(db, funding, salak, product, amount, now);
  }

  lemma {:induction false} ConvertedIssues(db: Db, paid: Db, g: nat, kapook: nat, amount: int, h: nat,
          automatic: bool, now: Stamp)
    requires Issues(db, paid) && g < |paid.goals|
    ensures Issues(db, Converted(paid, g, kapook, amount, h, automatic, now))
  {
    var after := Converted(paid, g, kapook, amount, h, automatic, now);
    if !IssuesNothing(db, paid) {
      var minted, next :| IssuesOne(db, paid, minted, next);
      assert IssuesOne(db, after, minted, next);
    }
  }

  lemma {:induction false} BuyIssues(db: Db, user: nat, kapook: nat, salak: nat, amount: int, automatic: bool,
          now: Stamp)
    requires Tables(db) && TicketsLaw(db) && BuyFromGoal(db, user, kapook, salak, amount, automatic, now).Done?
    ensures Issues(db, BuyFromGoal(db, user, kapook, salak, amount, automatic, now).db)
  {
    hide BuyFromGoal, Issues, Minted, Converted;
    var g := BuyGuards(db, user, kapook, salak, amount, automatic, now);
    var product := db.goals[g].product;
    MintedIssues(db, kapook, salak, product, amount, now);
    assert g < |Minted(db, kapook, salak, product, amount, now).goals| by {
      MintedGoals(db, kapook, salak, product, amount, now);
    }
    ConvertedIssues(db, Minted(db, kapook, salak, product, amount, now), g, kapook, amount, |db.holdings|, automatic,
        now);
  }

  lemma {:induction false} MintedGoals(db: Db, funding: nat, salak: nat, product: nat, amount: int, now: Stamp)
    requires MintOk(db, funding, salak, product, amount, now)
    ensures Minted(db, funding, salak, product, amount, now).goals == db.goals
  {}

  lemma {:induction false} OtherCallIssuesNothing(db: Db, op: Op, now: Stamp)
    requires Ready(db) && !op.OpBuySalak? && !op.OpBuyFromGoal? && !op.OpWorkerPass?
    ensures IssuesNothing(db, Apply(db, op, now))
  {
    hide Transfer, Post, Mint;
  }

  lemma {:induction false} ProcessKeepsTickets(mid: Db, g: nat, claimed: Goal, now: Stamp)
    requires TicketsLaw(mid) && Tables(mid) && g < |mid.goals| && claimed.account < |mid.books.accounts|
    ensures TicketsLaw(ProcessGoal(mid, g, claimed, now).0)
  {
    hide BuyFromGoal, TicketsLaw, Issues;
    var user := mid.books.accounts[claimed.account].user;
    var after := ProcessGoal(mid, g, claimed, now).0;
    if ProcessGoal(mid, g, claimed, now).1 == Purchased {
      BuyIssues(mid, user, claimed.account, FirstSalak(mid.books.accounts, user).value, claimed.Available(), true, now);
      IssuesKeepsTickets(mid, after);
    } else {
      BookkeepingOnly(mid, g, claimed, now);
      NothingKeepsTickets(mid, after);
    }
  }

  lemma {:induction false} PassKeepsTickets(db: Db, claim: seq<int>, now: Stamp)
    requires TicketsLaw(db) && Tables(db) && Claimable(db, claim)
    ensures TicketsLaw(Pass(db, claim, now).0)
  {
    hide TicketsLaw, ProcessGoal;
    if claim != [] {
      var n := |claim| - 1;
      PassKeepsTickets(db, claim[..n], now);
      ProcessKeepsTickets(Pass(db, claim[..n], now).0, claim[n], db.goals[claim[n]], now);
    }
  }

  lemma {:induction false} ApplyKeepsTickets(db: Db, op: Op, now: Stamp)
    requires Ready(db) && TicketsLaw(db)
    ensures TicketsLaw(Apply(db, op, now))
  {
    hide TicketsLaw, Issues, IssuesNothing, Pass, BuySalak, BuyFromGoal;
    if Apply(db, op, now) != db {
      match op
      case OpBuySalak(user, funding, salak, product, amount) =>
        BuySalakIssues(db, user, funding, salak, product, amount, now);
        IssuesKeepsTickets(db, Apply(db, op, now));
      case OpBuyFromGoal(user, kapook, salak, amount) =>
        BuyIssues(db, user, kapook, salak, amount, false, now);
        IssuesKeepsTickets(db, Apply(db, op, now));
      case OpWorkerPass(claim, countdown) => PassKeepsTickets(db, claim, now);
      case _ =>
        OtherCallIssuesNothing(db, op, now);
        NothingKeepsTickets(db, Apply(db, op, now));
    }
  }

  /** The tickets a product's cursor passed over before its `k`-th range. */
  function TailBefore(grants: seq<Tickets.Grant>, k: nat): int
    requires k < |grants| && Tickets.IsLetter(grants[k].letter)
    requires k > 0 ==> Tickets.IsLetter(grants[k - 1].letter)
  {
    Tickets.First(grants[k]) - (if k == 0 then 0 else Tickets.Last(grants[k - 1]) + 1)
  }

  function Tails(grants: seq<Tickets.Grant>): seq<int>
    requires forall k :: 0 <= k < |grants| ==> Tickets.IsLetter(grants[k].letter)
  {
    seq(|grants|, k requires 0 <= k < |grants| => TailBefore(grants, k))
  }

  /** What a sequence of requests left behind, read off its ranges. */
  lemma {:induction false} ServedTails(requests: seq<int>)
    requires Tickets.Positive(requests)
    ensures var s := Tickets.Serve(FIRST, requests);
            && (forall k :: 0 <= k < |s.grants| ==> Tickets.IsLetter(s.grants[k].letter))
            && s.lost == Tails(s.grants)
            && Tickets.Place(s.cursor) == if s.grants == [] then 0 else Tickets.Last(s.grants[|s.grants| - 1]) + 1
  {
    if requests != [] {
      var n := |requests| - 1;
      ServedTails(requests[..n]);
      var before := Tickets.Serve(FIRST, requests[..n]);
      Tickets.ReserveStep(before.cursor, requests[n]);
      if Tickets.Reserve(before.cursor, requests[n]).Success? {
        TailsSnoc(before.grants, Tickets.Reserve(before.cursor, requests[n]).value.0);
      }
    }
  }

  lemma {:induction false} TailsSnoc(grants: seq<Tickets.Grant>, g: Tickets.Grant)
    requires (forall k :: 0 <= k < |grants| ==> Tickets.IsLetter(grants[k].letter)) && Tickets.IsLetter(g.letter)
    ensures var last := if grants == [] then 0 else Tickets.Last(grants[|grants| - 1]) + 1;
            Tails(grants + [g]) == Tails(grants) + [Tickets.First(g) - last]
  {}

  /** In any state of any run from an empty database, the place of a product's
      cursor is exactly the tickets of its holdings and the tails before them,
      each tail smaller than the holding that left it behind. */
  lemma {:induction false} RunCursorIsExact(states: seq<Db>, events: seq<Event>, i: nat, p: nat)
    requires IsRun(states, events) && TicketsLaw(states[0]) && i < |states| && p < |states[i].cursors|
    ensures var cursor, grants := states[i].cursors[p], GrantsOf(states[i].holdings, p);
            && Tickets.IsLetter(cursor.letter)
            && (forall k :: 0 <= k < |grants| ==> Tickets.ValidGrant(grants[k]))
            && Tickets.Place(cursor) == Sum(grants, Tickets.UnitsOf()) + Sum(Tails(grants), Tickets.Itself())
            && (forall k :: 0 <= k < |grants| ==> 0 <= Tails(grants)[k] < Tickets.Units(grants[k]))
            && Sum(grants, Tickets.UnitsOf()) <= Tickets.Place(cursor) <= 440_000_000
  {
    hide Apply, Ready;
    RunKeepsTickets(states, events, i);
    assert Replays(states[i].holdings, p, states[i].cursors[p]);
    var requests := RequestsOf(states[i].holdings, p);
    ServedTails(requests);
    Tickets.ServedConserves(FIRST, requests);
    Tickets.ServedInOrder(FIRST, requests);
    SumNonNegative(Tickets.Serve(FIRST, requests).lost, Tickets.Itself());
  }

  lemma {:induction false} RunKeepsTickets(states: seq<Db>, events: seq<Event>, i: nat)
    requires IsRun(states, events) && TicketsLaw(states[0]) && i < |states|
    ensures TicketsLaw(states[i])
  {
    hide TicketsLaw, Apply, Ready;
    if i > 0 {
      RunKeepsTickets(states, events, i - 1);
      ApplyKeepsTickets(states[i - 1], events[i - 1].op, events[i - 1].now);
    }
  }

  lemma {:induction false} EmptyHasTickets(start: Stamp)
    ensures TicketsLaw(Empty(start))
  {}
}
