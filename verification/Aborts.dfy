/** Purchases that pass every check of the services and are then refused by a
    CHECK of the tables: a range that ends its letter's block, and a range of
    one ticket. */
module Aborts {
  import opened Outcomes
  import opened Calendar
  import opened Database
  import opened Steps
  import opened Laws
  import opened Worker
  import opened Runs
  import opened StepsKept
  import opened Consequences
  import Tickets

  /** The cursor can serve the request, by a range that fills a block or holds
      a single ticket. */
  predicate TripsCheck(c: Tickets.Cursor, units: int) {
    var fits := c.number + units <= Tickets.TICKETS_PER_LETTER;
    && 0 < units <= Tickets.TICKETS_PER_LETTER && (fits || c.letter != Tickets.CONSONANT_END)
    && (units == 1 || units == Tickets.TICKETS_PER_LETTER || c.number + units == Tickets.TICKETS_PER_LETTER)
  }

  /** A purchase everybody else agreed to is refused by a CHECK exactly then. */
  lemma {:induction false} CheckRefusesExactlyWhen(db: Db, user: nat, funding: nat, salak: nat, product: nat,
          amount: int, now: Stamp)
    requires Tables(db) && Inv(db)
    requires Own(db, user, funding, Savings) && Own(db, user, salak, Salak)
    requires product < |db.products| && db.products[product].active
    requires ValidAmount(db.products[product], amount) && !IsDrawDay(db.products[product], Day(now))
    requires amount <= db.books.accounts[funding].balance
    ensures BuySalak(db, user, funding, salak, product, amount, now) == Refused(CheckViolated) <==>
            TripsCheck(db.cursors[product], amount / db.products[product].unitPrice)
  {
    hide BooksLaw, AccountsLaw, ReferenceLaw, GoalsLaw, RowsLaw, CashLaw, SalakLaw, PaidOnceLaw, FeeLaw,
        Steps.Purchased;
    var units := amount / db.products[product].unitPrice;
    if units > 0 {
      Tickets.ReserveStep(db.cursors[product], units);
    }
  }

  /** With the seeded terms (100 baht a ticket, steps of 1000 baht) and ten
      tickets left in the block, the ten-ticket purchase aborts. */
  lemma {:induction false} SeededFillAborts(db: Db, salak: nat, product: nat, now: Stamp)
    requires Tables(db) && product < |db.products| && db.products[product].unitPrice == 10_000
    requires db.cursors[product] == Tickets.Cursor(Tickets.CONSONANT_START, 9_999_990)
    ensures Mint(db, salak, product, 100_000, now) == Failure(CheckViolated)
  {}

  // ---- a run to both

  const SAVINGS_ID := 0
  const SALAK_ID := 1

  /** A product of one baht a ticket, sold in any number. */
  const PRODUCT := Product(100, 100, 1_000_000_000, 100, true, 10_000, {})

  const CALLS: seq<Op> := [
    OpOpenAccount(0, Savings, 1_000_000_000, true), OpOpenAccount(0, Salak, 0, false), OpAddProduct(PRODUCT)]

  function StateAt(k: nat, t: Stamp): Db {
    var accounts := [Account(0, Savings, 1_000_000_000, 1_000_000_000, true), Account(0, Salak, 0, 0, false)];
    var funded := Empty(t).(books := Books(if k < 2 then accounts[..k] else accounts, []));
    if k < 3 then funded
    else funded.(products := [PRODUCT], cursors := [Tickets.Cursor(Tickets.CONSONANT_START, 0)])
  }

  lemma {:induction false} EachStep(k: nat, t: Stamp)
    requires k < |CALLS|
    ensures Ready(StateAt(k, t)) && Apply(StateAt(k, t), CALLS[k], t) == StateAt(k + 1, t) && Later(StateAt(k, t), t)
  {}

  /** After three calls, from an empty database, one ticket cannot be bought,
      nor a whole block; two tickets can. */
  lemma {:induction false} BothAreReached(t: Stamp) returns (states: seq<Db>, events: seq<Event>)
    ensures IsRun(states, events) && states[0] == Empty(t)
    ensures Tables(states[|events|])
    ensures BuySalak(states[|events|], 0, SAVINGS_ID, SALAK_ID, 0, 100, t) == Refused(CheckViolated)
    ensures BuySalak(states[|events|], 0, SAVINGS_ID, SALAK_ID, 0, 1_000_000_000, t) == Refused(CheckViolated)
    ensures BuySalak(states[|events|], 0, SAVINGS_ID, SALAK_ID, 0, 200, t).Done?
  {
    hide Apply, Ready;
    events := seq(|CALLS|, i requires 0 <= i < |CALLS| => Event(CALLS[i], t));
    states := seq(|CALLS| + 1, k requires 0 <= k <= |CALLS| => StateAt(k, t));
    forall k | 0 <= k < |events|
      ensures Ready(states[k]) && Later(states[k], t) && states[k + 1] == Apply(states[k], events[k].op, t)
    {
      EachStep(k, t);
    }
    assert |events| == 3 && states[3] == StateAt(3, t);
  }
}
