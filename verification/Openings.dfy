/** What accounts may open with. The services open kapook and salak accounts
    empty; the demo data opens a kapook account with the money of a goal that
    has already reached its target. */
module Openings {
  import opened Outcomes
  import opened Calendar
  import opened Sums
  import opened Database
  import opened Steps
  import opened Laws
  import opened StepsKept
  import opened Worker
  import opened Runs
  import Terms
  import Tickets

  function WithAccount(db: Db, account: Account): Db {
    db.(books := Books(db.books.accounts + [account], db.books.ledger))
  }

  /** An account that comes alone, as the tables' CHECKs allow it, keeps the
      laws exactly when it is a savings account or opens empty. */
  lemma {:induction false} OpeningKeepsInvExactlyWhen(db: Db, account: Account)
    requires Inv(db) && account.balance == account.opening >= 0
    requires account.primary ==> account.kind == Savings && Primary(db.books.accounts, account.user).None?
    ensures Inv(WithAccount(db, account)) <==> account.kind == Savings || account.opening == 0
  {
    hide BooksLaw, AccountsLaw, ReferenceLaw, GoalsLaw, RowsLaw, CashLaw, SalakLaw, PaidOnceLaw, HoldingsLaw, FeeLaw;
    if account.kind == Savings || account.opening == 0 {
      OpenAccountKeepsInv(db, account.user, account.kind, account.opening, account.primary, db.clock);
      assert WithAccount(db, account) ==
             OpenAccount(db, account.user, account.kind, account.opening, account.primary, db.clock).db;
    } else if account.kind == Kapook {
      CashWithoutGoal(db, account);
    } else {
      CashWithoutHolding(db, account);
    }
  }

  lemma {:induction false} CashWithoutGoal(db: Db, account: Account)
    requires GoalsLaw(db.goals, db.books.accounts, db.products, db.clock) && account.kind == Kapook &&
             account.balance > 0
    ensures !CashLaw(db.goals, db.books.accounts + [account], db.rows)
  {
    var accounts := db.books.accounts + [account];
    assert accounts[|db.books.accounts|] == account;
    assert ActiveGoal(db.goals, |db.books.accounts|).None?;
  }

  lemma {:induction false} CashWithoutHolding(db: Db, account: Account)
    requires HoldingsLaw(db.holdings, db.books.accounts, db.products, db.cursors)
    requires account.kind == Salak && account.balance > 0
    ensures !SalakLaw(db.goals, db.books.accounts + [account], db.rows, db.holdings)
  {
    var n := |db.books.accounts|;
    forall h | 0 <= h < |db.holdings| ensures db.holdings[h].account < n {
      assert HoldingLaw(db.holdings[h], db.books.accounts, db.cursors);
    }
    SumZero(db.holdings, LiveOf(n));
    assert (db.books.accounts + [account])[n] == account;
  }

  // ---- the demo data

  const DEMO_SAVINGS := 0
  const DEMO_SALAK := 1
  const DEMO_KAPOOK := 2

  /** 100 baht a ticket, from 1000 baht to ten million in steps of 1000. */
  function SeededProduct(interest: int, draws: set<int>): Product {
    Product(10_000, 100_000, 1_000_000_000, 100_000, true, interest, draws)
  }

  function Demo(user: nat): seq<Account> {
    [Account(user, Savings, 5_000_000, 5_000_000, true), Account(user, Salak, 0, 0, false),
     Account(user, Kapook, 500_000, 500_000, false)]
  }

  function DemoGoal(reached: Stamp, t: Stamp): Goal {
    Goal(DEMO_KAPOOK, 0, 500_000, 500_000, 0, true, Some(reached), None, 0, None, None, t)
  }

  /** The one-year and two-year products with their draw days, the demo
      customer, and a goal of 5000 baht already reached. */
  function Seeded(user: nat, oneYear: set<int>, twoYears: set<int>, reached: Stamp, t: Stamp): Db {
    var first := Tickets.Cursor(Tickets.CONSONANT_START, 0);
    Db(Books(Demo(user), []), [DemoGoal(reached, t)], [], [],
       [SeededProduct(1500, oneYear), SeededProduct(5000, twoYears)], [first, first], {}, 0, t)
  }

  lemma {:induction false} SeededBooks(user: nat)
    ensures BooksLaw(Books(Demo(user), [])) && AccountsLaw(Demo(user))
  {
    SumOf3(Demo(user)[0], Demo(user)[1], Demo(user)[2], Balances());
    SumOf3(Demo(user)[0], Demo(user)[1], Demo(user)[2], Openings());
  }

  lemma {:induction false} SeededCash(db: Db, user: nat, reached: Stamp, t: Stamp)
    requires db.goals == [DemoGoal(reached, t)] && db.books.accounts == Demo(user) && db.rows == [] && db.holdings == []
    ensures CashLaw(db.goals, db.books.accounts, db.rows)
    ensures SalakLaw(db.goals, db.books.accounts, db.rows, db.holdings)
  {
    assert ActiveGoal(db.goals, DEMO_KAPOOK) == Some(0);
  }

  lemma {:induction false} SeededGoals(db: Db, user: nat, reached: Stamp, t: Stamp)
    requires db.goals == [DemoGoal(reached, t)] && db.books.accounts == Demo(user) && db.rows == [] && db.holdings == []
    requires |db.products| > 0 && db.clock == t
    ensures GoalsLaw(db.goals, db.books.accounts, db.products, db.clock)
    ensures RowsLaw(db.rows, db.goals, db.holdings, db.clock) && FeeLaw(db.rows, db.goals)
  {}

  lemma {:induction false} SeededProducts(db: Db, oneYear: set<int>, twoYears: set<int>)
    requires db.holdings == [] && db.products == [SeededProduct(1500, oneYear), SeededProduct(5000, twoYears)]
    requires var first := Tickets.Cursor(Tickets.CONSONANT_START, 0); db.cursors == [first, first]
    ensures HoldingsLaw(db.holdings, db.books.accounts, db.products, db.cursors)
  {}

  /** The seeded database satisfies every law, so every run from it does. */
  lemma {:induction false} SeededHasInv(user: nat, oneYear: set<int>, twoYears: set<int>, reached: Stamp, t: Stamp)
    ensures Inv(Seeded(user, oneYear, twoYears, reached, t))
  {
    hide BooksLaw, AccountsLaw, ReferenceLaw, GoalsLaw, RowsLaw, CashLaw, SalakLaw, PaidOnceLaw, HoldingsLaw, FeeLaw;
    var db := Seeded(user, oneYear, twoYears, reached, t);
    SeededBooks(user);
    SeededCash(db, user, reached, t);
    SeededGoals(db, user, reached, t);
    SeededProducts(db, oneYear, twoYears);
    EmptyReferences(db.books.ledger, db.rows, db.holdings);
  }

  /** The worker's first attempt on the demo goal buys it whole, unless the day
      is a draw day of its product. */
  lemma {:induction false} DemoGoalIsBought(user: nat, oneYear: set<int>, twoYears: set<int>, reached: Stamp,
          t: Stamp, now: Stamp)
    requires Instant(t) <= Instant(now) && Day(now) !in oneYear
    ensures var db := Seeded(user, oneYear, twoYears, reached, t);
            Tables(db) && var (after, attempt) := ProcessGoal(db, 0, db.goals[0], now);
            && attempt == Purchased && |after.goals| == 1 && !after.goals[0].active
            && after.goals[0].salak == 500_000 && |after.books.accounts| == 3
            && after.books.accounts[DEMO_KAPOOK].balance == 0
  {
    hide Inv, ProcessGoal;
    var db := Seeded(user, oneYear, twoYears, reached, t);
    SeededHasInv(user, oneYear, twoYears, reached, t);
    DemoSalak(user);
    NothingExpired(db);
    Terms.ReachedGoalIsBought(db, 0, now);
    PurchaseCompletesGoal(db, 0, now);
  }

  lemma {:induction false} NothingExpired(db: Db)
    requires db.rows == []
    ensures Sum(db.rows, ExpiredIn(0)) == 0
  {}

  lemma {:induction false} DemoSalak(user: nat)
    ensures FirstSalak(Demo(user), user) == Some(DEMO_SALAK)
  {
    assert Demo(user)[..2][..1] == [Demo(user)[0]] && Demo(user)[..1][..0] == [];
  }
}
