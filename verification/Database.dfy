/** The rows the services read and write. Money is in satang; ids are positions
    in the tables, ticket letters are code points, dates are day numbers. */
module Database {
  import opened Outcomes
  import opened Calendar
  import Tickets

  datatype Kind = Savings | Salak | Kapook

  /** `opening` remembers the balance the account was opened with. */
  datatype Account = Account(user: nat, kind: Kind, balance: int, opening: int, primary: bool)

  datatype Error =
    | SameAccount | AccountNotFound | WrongAccountKind | NoPrimaryAccount | InsufficientFunds
    | TermsNotAccepted | GoalAlreadyExists | NoActiveGoal | AmountNotPositive
    | DepositExceedsTarget | WithdrawalExceedsBalance | WithdrawalMustBeFull
    | BalanceBelowMinimum | BuyExceedsBalance
    | ProductNotFound | ProductInactive | BelowMinimum | AboveMaximum | NotStepMultiple
    | DrawDay | NoWholeUnits | CannotReserve(reason: Tickets.ReserveError)
    | HoldingNotFound | AlreadySettled | NoSalakAccount | NoAvailableDate
    | CheckViolated

  datatype Goal = Goal(
    account: nat, product: nat, target: int, saving: int, salak: int, active: bool,
    reachedAt: Option<Stamp>, deferredUntil: Option<int>,
    attempts: nat, lastError: Option<Error>, lastAttempt: Option<Stamp>, createdAt: Stamp)
  {
    function Available(): int { saving - salak }
  }

  /** `interest` is the payout per unit in hundredths of a satang. */
  datatype Product = Product(
    unitPrice: int, minPurchase: int, maxPurchase: int, step: int, active: bool,
    interest: int, drawDays: set<int>)

  datatype Holding = Holding(
    account: nat, product: nat, units: int, letter: int, start: int, end: int,
    amount: int, purchasedOn: int, settledAt: Option<Stamp>)

  datatype RowKind = DepositRow | WithdrawRow | WithdrawWithFeeRow | BuySalakRow | SalakExpirationRow

  /** One kapook_transactions row. */
  datatype Row = Row(
    id: nat, kind: RowKind, amount: int, account: nat, goal: nat,
    savings: Option<nat>, holding: Option<nat>, automatic: Option<bool>, createdAt: Stamp)

  datatype RefType = KapookTransaction | BuySalakRef | SalakMaturity | SalakMaturityInterest

  /** One ledger_entries row. */
  datatype Entry = Entry(
    account: nat, debit: bool, amount: int, balanceAfter: int,
    refType: RefType, ref: nat, holding: Option<nat>, createdAt: Stamp)
  {
    function Signed(): int { if debit then -amount else amount }
  }

  datatype Books = Books(accounts: seq<Account>, ledger: seq<Entry>)

  /** `nextId` is the next fresh uuid, `clock` the latest instant seen. */
  datatype Db = Db(
    books: Books, goals: seq<Goal>, holdings: seq<Holding>, rows: seq<Row>,
    products: seq<Product>, cursors: seq<Tickets.Cursor>,
    accepted: set<nat>, nextId: nat, clock: Stamp)

  // ---- lookups

  /** The goal FindActiveByAccountID finds. */
  function ActiveGoal(goals: seq<Goal>, account: nat): (r: Option<nat>)
    ensures r.Some? ==> r.value < |goals| && goals[r.value].active && goals[r.value].account == account
    ensures r.None? ==> forall i :: 0 <= i < |goals| ==> !(goals[i].active && goals[i].account == account)
  {
    if goals == [] then None
    else
      var n := |goals| - 1;
      if goals[n].active && goals[n].account == account then Some(n)
      else ActiveGoal(goals[..n], account)
  }

  /** The user's primary account. */
  function Primary(accounts: seq<Account>, user: nat): (r: Option<nat>)
    ensures r.Some? ==> r.value < |accounts| && accounts[r.value].primary && accounts[r.value].user == user
    ensures r.None? ==> forall i :: 0 <= i < |accounts| ==> !(accounts[i].primary && accounts[i].user == user)
  {
    if accounts == [] then None
    else
      var n := |accounts| - 1;
      if accounts[n].primary && accounts[n].user == user then Some(n)
      else Primary(accounts[..n], user)
  }

  /** The user's oldest salak account. */
  function FirstSalak(accounts: seq<Account>, user: nat): (r: Option<nat>)
    ensures r.Some? ==> r.value < |accounts| && accounts[r.value].kind == Salak && accounts[r.value].user == user
  {
    if accounts == [] then None
    else
      var n := |accounts| - 1;
      match FirstSalak(accounts[..n], user)
      case Some(i) => Some(i)
      case None => if accounts[n].kind == Salak && accounts[n].user == user then Some(n) else None
  }

  predicate IsBuyRow(r: Row, holding: nat) {
    r.kind == BuySalakRow && r.holding == Some(holding)
  }

  /** The buy_salak row that minted a holding. */
  function BuyRow(rows: seq<Row>, holding: nat): (r: Option<nat>)
    ensures r.Some? ==> r.value < |rows| && IsBuyRow(rows[r.value], holding)
    ensures r.None? ==> forall i :: 0 <= i < |rows| ==> !IsBuyRow(rows[i], holding)
  {
    if rows == [] then None
    else
      var n := |rows| - 1;
      if IsBuyRow(rows[n], holding) then Some(n) else BuyRow(rows[..n], holding)
  }

  predicate Counted(r: Row, goal: nat, from: Stamp, to: Stamp) {
    r.goal == goal && r.kind in {WithdrawRow, WithdrawWithFeeRow}
    && Instant(from) <= Instant(r.createdAt) < Instant(to)
  }

  /** CountByGoalAndTypesInWindow over the withdrawal types. */
  function CountWithdrawals(rows: seq<Row>, goal: nat, from: Stamp, to: Stamp): nat {
    if rows == [] then 0
    else
      var n := |rows| - 1;
      CountWithdrawals(rows[..n], goal, from, to) + (if Counted(rows[n], goal, from, to) then 1 else 0)
  }
}
