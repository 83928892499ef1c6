/** What every reachable database satisfies. */
module Laws {
  import opened Outcomes
  import opened Calendar
  import opened Sums
  import opened Database
  import opened Steps
  import Fees
  import Tickets

  // ---- weights

  function SignedFor(a: nat): Entry -> int { (e: Entry) => if e.account == a then e.Signed() else 0 }
  function SignedAny(): Entry -> int { (e: Entry) => e.Signed() }
  function Balances(): Account -> int { (a: Account) => a.balance }
  function Openings(): Account -> int { (a: Account) => a.opening }

  /** What an entry adds to the bank's money: interest is created, nothing else is. */
  function InterestPaid(): Entry -> int { (e: Entry) => if e.refType == SalakMaturityInterest then e.Signed() else 0 }

  /** The fee GetGoalHistory recomputes for a row. */
  function RowFee(r: Row): int { Fees.ComputeWithdrawalFee(r.amount, r.kind == WithdrawWithFeeRow).0 }
  function FeesCharged(): Row -> int { (r: Row) => RowFee(r) }

  /** The part of an entry that its reference must balance. */
  function EntryGap(ref: nat): Entry -> int {
    (e: Entry) => if e.ref == ref && e.refType != SalakMaturityInterest then e.Signed() else 0
  }
  function FeeOfRef(ref: nat): Row -> int { (r: Row) => if r.id == ref then RowFee(r) else 0 }

  function PrincipalPaid(h: nat): Entry -> int {
    (e: Entry) => if e.refType == SalakMaturity && e.debit && e.holding == Some(h) then e.amount else 0
  }

  function BoughtIn(g: nat): Row -> int { (r: Row) => if r.kind == BuySalakRow && r.goal == g then r.amount else 0 }
  function ExpiredIn(g: nat): Row -> int { (r: Row) => if r.kind == SalakExpirationRow && r.goal == g
          then r.amount else 0 }

  predicate SettledRow(r: Row, holdings: seq<Holding>) {
    match r.holding
    case None => false
    case Some(h) => h < |holdings| && holdings[h].settledAt.Some?
  }
  function LiveIn(g: nat, holdings: seq<Holding>): Row -> int {
    (r: Row) => if r.kind == BuySalakRow && r.goal == g && !SettledRow(r, holdings) then r.amount else 0
  }
  function SettledIn(g: nat, holdings: seq<Holding>): Row -> int {
    (r: Row) => if r.kind == BuySalakRow && r.goal == g && SettledRow(r, holdings) then r.amount else 0
  }
  function LiveOf(a: nat): Holding -> int {
    (h: Holding) => if h.account == a && h.settledAt.None? then h.amount else 0
  }

  // ---- the laws

  /** Every entry shows the balance it left. */
  ghost predicate Shown(b: Books) {
    forall i :: 0 <= i < |b.ledger| ==>
      && b.ledger[i].account < |b.accounts| && b.ledger[i].amount > 0
      && b.ledger[i].balanceAfter ==
         b.accounts[b.ledger[i].account].opening + Sum(b.ledger[..i + 1], SignedFor(b.ledger[i].account))
  }

  /** Every balance is its opening plus its ledger. */
  ghost predicate Explained(b: Books) {
    forall a: nat :: a < |b.accounts| ==>
      0 <= b.accounts[a].balance == b.accounts[a].opening + Sum(b.ledger, SignedFor(a))
  }

  /** The ledger replays to every balance, and together they add up. */
  ghost predicate BooksLaw(b: Books) {
    && Shown(b) && Explained(b)
    && Sum(b.accounts, Balances()) == Sum(b.accounts, Openings()) + Sum(b.ledger, SignedAny())
  }

  ghost predicate AccountsLaw(accounts: seq<Account>) {
    && (forall a :: 0 <= a < |accounts| && accounts[a].primary ==> accounts[a].kind == Savings)
    && (forall a, c :: 0 <= a < c < |accounts| && accounts[a].primary && accounts[c].primary ==>
          accounts[a].user != accounts[c].user)
  }

  /** Under each reference the debits and credits differ by exactly the fee;
      interest is the only money created, the fee the only money kept. */
  ghost predicate ReferenceLaw(ledger: seq<Entry>, rows: seq<Row>, nextId: nat) {
    && (forall i :: 0 <= i < |ledger| ==> ledger[i].ref < nextId)
    && (forall i :: 0 <= i < |rows| ==> rows[i].id < nextId)
    && (forall ref: nat :: Sum(ledger, EntryGap(ref)) + Sum(rows, FeeOfRef(ref)) == 0)
    && Sum(ledger, SignedAny()) == Sum(ledger, InterestPaid()) - Sum(rows, FeesCharged())
  }

  ghost predicate GoalLaw(g: Goal) {
    && 0 <= g.salak <= g.saving <= g.target && 0 < g.target
    && (g.active ==> g.salak < g.target && (g.reachedAt.Some? <==> g.saving == g.target))
    && (!g.active ==> g.reachedAt.Some?)
  }

  ghost predicate GoalsLaw(goals: seq<Goal>, accounts: seq<Account>, products: seq<Product>, clock: Stamp) {
    && (forall i :: 0 <= i < |goals| ==> GoalLaw(goals[i]))
    && (forall i :: 0 <= i < |goals| ==>
          && goals[i].account < |accounts| && accounts[goals[i].account].kind == Kapook
          && goals[i].product < |products| && Instant(goals[i].createdAt) <= Instant(clock))
    && (forall i, j :: 0 <= i < j < |goals| && goals[i].active && goals[j].active ==>
          goals[i].account != goals[j].account)
  }

  ghost predicate RowsLaw(rows: seq<Row>, goals: seq<Goal>, holdings: seq<Holding>, clock: Stamp) {
    && (forall j :: 0 <= j < |rows| ==>
          && rows[j].goal < |goals| && rows[j].account == goals[rows[j].goal].account
          && rows[j].amount > 0 &&
             Instant(goals[rows[j].goal].createdAt) <= Instant(rows[j].createdAt) <= Instant(clock))
    && (forall j :: 0 <= j < |rows| && rows[j].kind == BuySalakRow ==>
          && rows[j].holding.Some? && rows[j].holding.value < |holdings|
          && holdings[rows[j].holding.value].amount == rows[j].amount
          && holdings[rows[j].holding.value].product == goals[rows[j].goal].product)
    && (forall j, k :: 0 <= j < k < |rows| && rows[j].kind == BuySalakRow && rows[k].kind == BuySalakRow ==>
          rows[j].holding != rows[k].holding)
  }

  /** The cash in a kapook account is what its active goal saved and has not
      spent on tickets; a closed goal has nothing left there. */
  ghost predicate CashLaw(goals: seq<Goal>, accounts: seq<Account>, rows: seq<Row>) {
    && (forall g: nat :: g < |goals| && !goals[g].active ==> goals[g].saving == Sum(rows, BoughtIn(g)))
    && (forall g: nat :: g < |goals| && goals[g].active && goals[g].account < |accounts| ==>
          accounts[goals[g].account].balance == goals[g].saving - Sum(rows, BoughtIn(g)))
    && (forall a :: 0 <= a < |accounts| && accounts[a].kind == Kapook && ActiveGoal(goals, a).None? ==>
          accounts[a].balance == 0)
  }

  /** A goal's salak is its unsettled holdings, its expirations its settled
      ones; a salak account holds exactly its unsettled holdings. */
  ghost predicate SalakLaw(goals: seq<Goal>, accounts: seq<Account>, rows: seq<Row>, holdings: seq<Holding>) {
    && (forall g: nat :: g < |goals| ==> goals[g].salak == Sum(rows, LiveIn(g, holdings)))
    && (forall g: nat :: g < |goals| ==> Sum(rows, ExpiredIn(g)) == Sum(rows, SettledIn(g, holdings)))
    && (forall a: nat :: a < |accounts| && accounts[a].kind == Salak ==>
          accounts[a].balance == Sum(holdings, LiveOf(a)))
  }

  /** A settled holding has been paid its principal once, another never. */
  ghost predicate PaidOnceLaw(ledger: seq<Entry>, holdings: seq<Holding>) {
    && (forall h: nat :: h < |holdings| ==>
          Sum(ledger, PrincipalPaid(h)) == if holdings[h].settledAt.Some? then holdings[h].amount else 0)
    && (forall i :: 0 <= i < |ledger| && ledger[i].holding.Some? ==> ledger[i].holding.value < |holdings|)
  }

  ghost predicate HoldingLaw(h: Holding, accounts: seq<Account>, cursors: seq<Tickets.Cursor>) {
    && h.account < |accounts| && accounts[h.account].kind == Salak && h.amount > 0
    && h.product < |cursors| && Tickets.IsLetter(h.letter) && Tickets.ValidCursor(cursors[h.product])
    && 0 <= h.start < h.end < Tickets.TICKETS_PER_LETTER && h.units == h.end - h.start + 1
    && Tickets.Position(h.letter, h.end) < Tickets.Place(cursors[h.product])
  }

  /** Two holdings of one product share no ticket. */
  ghost predicate Disjoint(h: Holding, k: Holding) {
    h.product == k.product && h.letter == k.letter ==> h.end < k.start || k.end < h.start
  }

  ghost predicate HoldingsLaw(holdings: seq<Holding>, accounts: seq<Account>, products: seq<Product>,
          cursors: seq<Tickets.Cursor>) {
    && |cursors| == |products|
    && (forall p :: 0 <= p < |products| ==> ProductTerms(products[p]))
    && (forall p :: 0 <= p < |cursors| ==> Tickets.ValidCursor(cursors[p]))
    && (forall i :: 0 <= i < |holdings| ==> HoldingLaw(holdings[i], accounts, cursors))
    && (forall i, j :: 0 <= i < j < |holdings| ==> Disjoint(holdings[i], holdings[j]))
  }

  /** How many earlier rows the withdrawal in row `j` shares its window with. */
  function EarlierInWindow(rows: seq<Row>, goals: seq<Goal>, j: nat): nat
    requires j < |rows| && rows[j].goal < |goals|
  {
    var w := Window(goals[rows[j].goal].createdAt, rows[j].createdAt);
    CountWithdrawals(rows[..j], rows[j].goal, w.0, w.1)
  }

  /** A withdrawal carries the fee exactly when it is the third or later of its
      goal in its anniversary window. */
  ghost predicate FeeLaw(rows: seq<Row>, goals: seq<Goal>) {
    forall j: nat :: j < |rows| && rows[j].goal < |goals| ==>
      && (rows[j].kind == WithdrawWithFeeRow ==> EarlierInWindow(rows, goals, j) >= FREE_WITHDRAWALS)
      && (rows[j].kind == WithdrawRow ==> EarlierInWindow(rows, goals, j) < FREE_WITHDRAWALS)
  }

  ghost predicate Inv(db: Db) {
    && BooksLaw(db.books)
    && AccountsLaw(db.books.accounts)
    && ReferenceLaw(db.books.ledger, db.rows, db.nextId)
    && GoalsLaw(db.goals, db.books.accounts, db.products, db.clock)
    && RowsLaw(db.rows, db.goals, db.holdings, db.clock)
    && CashLaw(db.goals, db.books.accounts, db.rows)
    && SalakLaw(db.goals, db.books.accounts, db.rows, db.holdings)
    && PaidOnceLaw(db.books.ledger, db.holdings)
    && HoldingsLaw(db.holdings, db.books.accounts, db.products, db.cursors)
    && FeeLaw(db.rows, db.goals)
  }
}
