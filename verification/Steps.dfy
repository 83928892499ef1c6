/** Every service call as one atomic step on the database: the guards in the
    order the services apply them, and the whole effect when they all pass. A
    refused call leaves the database as it was. */
module Steps {
  import opened Outcomes
  import opened Calendar
  import opened Database
  import Fees
  import Tickets

  const FREE_WITHDRAWALS := 2
  const LAST_TICKET := 9_999_999

  datatype Outcome<+T> = Done(db: Db, value: T) | Refused(error: Error)

  /** One balance move and the ledger entry that records it. */
  function Post(b: Books, a: nat, debit: bool, amount: int, refType: RefType, ref: nat,
                holding: Option<nat>, now: Stamp): Books
    requires a < |b.accounts|
  {
    var after := b.accounts[a].balance + (if debit then -amount else amount);
    Books(b.accounts[a := b.accounts[a].(balance := after)],
          b.ledger + [Entry(a, debit, amount, after, refType, ref, holding, now)])
  }

  /** A debit and a credit under one reference. */
  function Transfer(b: Books, from: nat, to: nat, out: int, into: int, refType: RefType, ref: nat,
                    holding: Option<nat>, now: Stamp): Books
    requires from < |b.accounts| && to < |b.accounts|
  {
    Post(Post(b, from, true, out, refType, ref, holding, now), to, false, into, refType, ref, holding, now)
  }

  /** GetByID together with the account-type check of every caller. */
  function CheckAccount(db: Db, user: nat, account: nat, kind: Kind): (r: Option<Error>)
    ensures r.None? <==> account < |db.books.accounts| && db.books.accounts[account].user == user
                         && db.books.accounts[account].kind == kind
  {
    if account >= |db.books.accounts| || db.books.accounts[account].user != user then Some(AccountNotFound)
    else if db.books.accounts[account].kind != kind then Some(WrongAccountKind)
    else None
  }

  function CheckProduct(products: seq<Product>, product: nat): (r: Option<Error>)
    ensures r.None? <==> product < |products| && products[product].active
  {
    if product >= |products| then Some(ProductNotFound)
    else if !products[product].active then Some(ProductInactive)
    else None
  }

  predicate ProductTerms(p: Product) {
    0 < p.unitPrice && 0 < p.minPurchase <= p.maxPurchase && 0 < p.step && 0 < p.interest
  }

  function ValidatePurchase(p: Product, amount: int): (r: Option<Error>)
    requires ProductTerms(p)
    ensures r.None? <==> p.minPurchase <= amount <= p.maxPurchase && amount % p.step == 0
  {
    if amount <= 0 then Some(AmountNotPositive)
    else if amount < p.minPurchase then Some(BelowMinimum)
    else if amount > p.maxPurchase then Some(AboveMaximum)
    else if amount % p.step != 0 then Some(NotStepMultiple)
    else None
  }

  predicate IsDrawDay(p: Product, day: int) {
    day in p.drawDays
  }

  // ---- accounts, products, terms

  /** The tables' CHECK and the index of primary accounts, and one assumption: a
      kapook or salak account opens empty, as every service opens it. With money
      that no goal or holding accounts for, the laws would not hold. */
  function OpenAccount(db: Db, user: nat, kind: Kind, opening: int, primary: bool, now: Stamp): Outcome<nat> {
    if opening < 0 || (kind != Savings && (primary || opening != 0)) then Refused(CheckViolated)
    else if primary && Primary(db.books.accounts, user).Some? then Refused(CheckViolated)
    else
      var accounts := db.books.accounts + [Account(user, kind, opening, opening, primary)];
      Done(db.(books := Books(accounts, db.books.ledger), clock := now), |db.books.accounts|)
  }

  /** Registration opens a customer's three accounts in one transaction. */
  function Register(db: Db, user: nat, opening: int, now: Stamp): Outcome<(nat, nat, nat)> {
    match OpenAccount(db, user, Savings, opening, true, now)
    case Refused(e) => Refused(e)
    case Done(one, savings) =>
      match OpenAccount(one, user, Salak, 0, false, now)
      case Refused(e) => Refused(e)
      case Done(two, salak) =>
        match OpenAccount(two, user, Kapook, 0, false, now)
        case Refused(e) => Refused(e)
        case Done(three, kapook) => Done(three, (savings, salak, kapook))
  }

  function AddProduct(db: Db, p: Product, now: Stamp): Outcome<nat> {
    if !ProductTerms(p) then Refused(CheckViolated)
    else Done(db.(products := db.products + [p],
                  cursors := db.cursors + [Tickets.Cursor(Tickets.CONSONANT_START, 0)],
                  clock := now), |db.products|)
  }

  /** The conflict branch of the product upsert: new terms, the cursor kept. */
  function ReviseProduct(db: Db, product: nat, p: Product, now: Stamp): Outcome<()> {
    if product >= |db.products| then Refused(ProductNotFound)
    else if !ProductTerms(p) then Refused(CheckViolated)
    else Done(db.(products := db.products[product := p], clock := now), ())
  }

  function AcceptTerms(db: Db, user: nat, now: Stamp): Outcome<()> {
    Done(db.(accepted := db.accepted + {user}, clock := now), ())
  }

  // ---- the goal

  function CreateGoal(db: Db, user: nat, account: nat, product: nat, target: int, now: Stamp): Outcome<nat>
    requires forall p :: 0 <= p < |db.products| ==> ProductTerms(db.products[p])
  {
    match CheckAccount(db, user, account, Kapook)
    case Some(e) => Refused(e)
    case None =>
      if user !in db.accepted then Refused(TermsNotAccepted)
      else if ActiveGoal(db.goals, account).Some? then Refused(GoalAlreadyExists)
      else
        match CheckProduct(db.products, product)
        case Some(e) => Refused(e)
        case None =>
          match ValidatePurchase(db.products[product], target)
          case Some(e) => Refused(e)
          case None =>
            var goal := Goal(account, product, target, 0, 0, true, None, None, 0, None, None, now);
            Done(db.(goals := db.goals + [goal], clock := now), |db.goals|)
  }

  function Deposit(db: Db, user: nat, kapook: nat, savings: nat, amount: int, now: Stamp): Outcome<nat> {
    if kapook == savings then Refused(SameAccount)
    else
      match CheckAccount(db, user, kapook, Kapook)
      case Some(e) => Refused(e)
      case None =>
        match CheckAccount(db, user, savings, Savings)
        case Some(e) => Refused(e)
        case None =>
          if amount <= 0 then Refused(AmountNotPositive)
          else
            match ActiveGoal(db.goals, kapook)
            case None => Refused(NoActiveGoal)
            case Some(g) =>
              if db.goals[g].saving + amount > db.goals[g].target then Refused(DepositExceedsTarget)
              else if db.books.accounts[savings].balance < amount then Refused(InsufficientFunds)
              else Done(Deposited(db, kapook, savings, g, amount, now), g)
  }

  /** What a deposit and a withdrawal both write: the transfer, the goal and
      one kapook_transactions row whose id is the ledger reference. */
  function Moved(db: Db, g: nat, goal: Goal, from: nat, to: nat, out: int, into: int, row: Row, now: Stamp): Db
    requires from < |db.books.accounts| && to < |db.books.accounts| && g < |db.goals|
  {
    db.(books := Transfer(db.books, from, to, out, into, KapookTransaction, db.nextId, None, now),
        goals := db.goals[g := goal], rows := db.rows + [row], nextId := db.nextId + 1, clock := now)
  }

  function Deposited(db: Db, kapook: nat, savings: nat, g: nat, amount: int, now: Stamp): Db
    requires kapook < |db.books.accounts| && savings < |db.books.accounts| && g < |db.goals|
  {
    var goal := db.goals[g];
    var saving := goal.saving + amount;
    var reached := if saving == goal.target then Some(now) else goal.reachedAt;
    Moved(db, g, goal.(saving := saving, reachedAt := reached), savings, kapook, amount, amount,
          Row(db.nextId, DepositRow, amount, kapook, g, Some(savings), None, None, now), now)
  }

  datatype Withdrawal = Withdrawal(goal: nat, charged: bool, fee: int, net: int, closed: bool)

  /** Whether a withdrawal from the goal at `now` is beyond the free ones. */
  predicate FeeDue(db: Db, g: nat, now: Stamp)
    requires g < |db.goals|
  {
    var w := Window(db.goals[g].createdAt, now);
    CountWithdrawals(db.rows, g, w.0, w.1) >= FREE_WITHDRAWALS
  }

  function Withdraw(db: Db, user: nat, kapook: nat, amount: int, now: Stamp): Outcome<Withdrawal> {
    match CheckAccount(db, user, kapook, Kapook)
    case Some(e) => Refused(e)
    case None =>
      match Primary(db.books.accounts, user)
      case None => Refused(NoPrimaryAccount)
      case Some(savings) =>
        if amount <= 0 then Refused(AmountNotPositive)
        else
          match ActiveGoal(db.goals, kapook)
          case None => Refused(NoActiveGoal)
          case Some(g) =>
            var goal := db.goals[g];
            if amount > goal.Available() then Refused(WithdrawalExceedsBalance)
            else if goal.reachedAt.Some? && amount < goal.Available() then Refused(WithdrawalMustBeFull)
            else if db.books.accounts[kapook].balance < amount then Refused(InsufficientFunds)
            else
              var charged := FeeDue(db, g, now);
              var (fee, net) := Fees.ComputeWithdrawalFee(amount, charged);
              Done(Withdrawn(db, kapook, savings, g, amount, charged, now),
                   Withdrawal(g, charged, fee, net, goal.reachedAt.Some?))
  }

  function Withdrawn(db: Db, kapook: nat, savings: nat, g: nat, amount: int, charged: bool, now: Stamp): Db
    requires kapook < |db.books.accounts| && savings < |db.books.accounts| && g < |db.goals|
  {
    var goal := db.goals[g];
    var net := Fees.ComputeWithdrawalFee(amount, charged).1;
    var kind := if charged then WithdrawWithFeeRow else WithdrawRow;
    Moved(db, g, goal.(saving := goal.saving - amount, active := goal.reachedAt.None?),
          kapook, savings, amount, net,
          Row(db.nextId, kind, amount, kapook, g, Some(savings), None, None, now), now)
  }

  // ---- purchases

  /** MintHolding: the holding and the product's next cursor. The cursor and
      holding CHECKs refuse an exact block fill and a one-ticket range. */
  function Mint(db: Db, salak: nat, product: nat, amount: int, now: Stamp): Result<(Holding, Tickets.Cursor), Error>
    requires product < |db.products| && product < |db.cursors| && ProductTerms(db.products[product])
  {
    var units := amount / db.products[product].unitPrice;
    if units <= 0 then Failure(NoWholeUnits)
    else
      match Tickets.Reserve(db.cursors[product], units)
      case Failure(e) => Failure(CannotReserve(e))
      case Success((range, next)) =>
        if next.number > LAST_TICKET || range.end <= range.start then Failure(CheckViolated)
        else Success((Holding(salak, product, units, range.letter, range.start, range.end,
                              amount, Day(now), None), next))
  }

  predicate Tables(db: Db) {
    && |db.cursors| == |db.products|
    && forall p :: 0 <= p < |db.products| ==> ProductTerms(db.products[p])
  }

  /** mintAndSettle: debit the funding account, mint, credit the salak account. */
  function Purchase(db: Db, funding: nat, salak: nat, product: nat, amount: int, now: Stamp): Outcome<nat>
    requires Tables(db) && product < |db.products|
    requires funding < |db.books.accounts| && salak < |db.books.accounts|
  {
    if db.books.accounts[funding].balance < amount then Refused(InsufficientFunds)
    else
      match Mint(db, salak, product, amount, now)
      case Failure(e) => Refused(e)
      case Success((holding, next)) =>
        Done(Purchased(db, funding, salak, product, amount, holding, next, now), |db.holdings|)
  }

  function Purchased(db: Db, funding: nat, salak: nat, product: nat, amount: int,
                     holding: Holding, next: Tickets.Cursor, now: Stamp): Db
    requires product < |db.cursors| && funding < |db.books.accounts| && salak < |db.books.accounts|
  {
    var h := |db.holdings|;
    db.(books := Transfer(db.books, funding, salak, amount, amount, BuySalakRef, db.nextId, Some(h), now),
        holdings := db.holdings + [holding],
        cursors := db.cursors[product := next], nextId := db.nextId + 1, clock := now)
  }

  /** The product rules and the draw-day guard of every purchase. */
  function CheckPurchase(db: Db, product: nat, amount: int, now: Stamp): (r: Option<Error>)
    requires Tables(db)
    ensures r.None? ==> product < |db.products| && amount > 0
  {
    match CheckProduct(db.products, product)
    case Some(e) => Some(e)
    case None =>
      match ValidatePurchase(db.products[product], amount)
      case Some(e) => Some(e)
      case None => if IsDrawDay(db.products[product], Day(now)) then Some(DrawDay) else None
  }

  function BuySalak(db: Db, user: nat, funding: nat, salak: nat, product: nat, amount: int, now: Stamp): Outcome<nat>
    requires Tables(db)
  {
    if funding == salak then Refused(SameAccount)
    else
      match CheckAccount(db, user, funding, Savings)
      case Some(e) => Refused(e)
      case None =>
        match CheckAccount(db, user, salak, Salak)
        case Some(e) => Refused(e)
        case None =>
          match CheckPurchase(db, product, amount, now)
          case Some(e) => Refused(e)
          case None => Purchase(db, funding, salak, product, amount, now)
  }

  datatype Bought = Bought(goal: nat, holding: nat, completed: bool)

  function BuyFromGoal(db: Db, user: nat, kapook: nat, salak: nat, amount: int, automatic: bool,
          now: Stamp): Outcome<Bought>
    requires Tables(db)
  {
    if kapook == salak then Refused(SameAccount)
    else
      match CheckAccount(db, user, kapook, Kapook)
      case Some(e) => Refused(e)
      case None =>
        match CheckAccount(db, user, salak, Salak)
        case Some(e) => Refused(e)
        case None =>
          if amount <= 0 then Refused(AmountNotPositive)
          else
            match ActiveGoal(db.goals, kapook)
            case None => Refused(NoActiveGoal)
            case Some(g) => BuyFrom(db, kapook, salak, g, amount, automatic, now)
  }

  /** The part of a goal purchase that follows finding its goal. */
  function BuyFrom(db: Db, kapook: nat, salak: nat, g: nat, amount: int, automatic: bool, now: Stamp): Outcome<Bought>
    requires Tables(db) && g < |db.goals|
    requires kapook < |db.books.accounts| && salak < |db.books.accounts|
  {
    var goal := db.goals[g];
    match CheckProduct(db.products, goal.product)
    case Some(e) => Refused(e)
    case None =>
      var p := db.products[goal.product];
      if goal.Available() < p.minPurchase then Refused(BalanceBelowMinimum)
      else
        match ValidatePurchase(p, amount)
        case Some(e) => Refused(e)
        case None =>
          if amount > goal.Available() then Refused(BuyExceedsBalance)
          else if IsDrawDay(p, Day(now)) then Refused(DrawDay)
          else
            match Purchase(db, kapook, salak, goal.product, amount, now)
            case Refused(e) => Refused(e)
            case Done(paid, h) =>
              Done(Converted(paid, g, kapook, amount, h, automatic, now),
                   Bought(g, h, goal.salak + amount >= goal.target))
  }

  /** The goal's side of a purchase: salak grows, the failure streak clears. */
  function Converted(db: Db, g: nat, kapook: nat, amount: int, h: nat, automatic: bool, now: Stamp): Db
    requires g < |db.goals|
  {
    var goal := db.goals[g];
    var salak := goal.salak + amount;
    var row := Row(db.nextId, BuySalakRow, amount, kapook, g, None, Some(h), Some(automatic), now);
    db.(goals := db.goals[g := goal.(salak := salak, active := salak < goal.target, deferredUntil := None,
                                     attempts := 0, lastError := None, lastAttempt := None)],
        rows := db.rows + [row], nextId := db.nextId + 1)
  }

  // ---- settlement

  datatype Settlement = Settlement(principal: int, interest: int, primary: nat)

  /** The interest as the ledger stores it, in whole satang. */
  function Interest(p: Product, units: int): int {
    Fees.RoundHalfAway(p.interest * units, 100)
  }

  function Settle(db: Db, h: nat, now: Stamp): Outcome<Settlement>
    requires forall i :: 0 <= i < |db.holdings| ==> db.holdings[i].account < |db.books.accounts|
    requires forall j :: 0 <= j < |db.rows| ==> db.rows[j].goal < |db.goals|
  {
    if h >= |db.holdings| then Refused(HoldingNotFound)
    else if db.holdings[h].settledAt.Some? then Refused(AlreadySettled)
    else
      var holding := db.holdings[h];
      match CheckProduct(db.products, holding.product)
      case Some(e) => Refused(e)
      case None =>
        var interest := Interest(db.products[holding.product], holding.units);
        match Primary(db.books.accounts, db.books.accounts[holding.account].user)
        case None => Refused(NoPrimaryAccount)
        case Some(primary) =>
          if db.books.accounts[holding.account].balance < holding.amount then Refused(InsufficientFunds)
          else if interest <= 0 then Refused(CheckViolated)
          else Done(Expired(Paid(db, h, primary, interest, now), h, now),
                    Settlement(holding.amount, interest, primary))
  }

  /** The three legs of the payout and the settled mark. */
  function Paid(db: Db, h: nat, primary: nat, interest: int, now: Stamp): Db
    requires h < |db.holdings| && db.holdings[h].account < |db.books.accounts| && primary < |db.books.accounts|
  {
    var holding := db.holdings[h];
    var id := db.nextId;
    var b := Transfer(db.books, holding.account, primary, holding.amount, holding.amount, SalakMaturity, id, Some(h),
        now);
    db.(books := Post(b, primary, false, interest, SalakMaturityInterest, id, Some(h), now),
        holdings := db.holdings[h := holding.(settledAt := Some(now))], nextId := id + 1, clock := now)
  }

  /** The goal's side of a settlement, when a goal bought the holding. */
  function Expired(db: Db, h: nat, now: Stamp): Db
    requires h < |db.holdings|
    requires forall j :: 0 <= j < |db.rows| ==> db.rows[j].goal < |db.goals|
  {
    match BuyRow(db.rows, h)
    case None => db
    case Some(j) =>
      var g := db.rows[j].goal;
      var amount := db.holdings[h].amount;
      var row := Row(db.nextId, SalakExpirationRow, amount, db.rows[j].account, g, None, Some(h), None, now);
      db.(goals := db.goals[g := db.goals[g].(salak := db.goals[g].salak - amount)],
          rows := db.rows + [row], nextId := db.nextId + 1)
  }

  // ---- the worker's bookkeeping

  function Defer(db: Db, g: nat, until: int, now: Stamp): Db
    requires g < |db.goals|
  {
    db.(goals := db.goals[g := db.goals[g].(deferredUntil := Some(until))], clock := now)
  }

  function RecordFailure(db: Db, g: nat, e: Error, now: Stamp): Db
    requires g < |db.goals|
  {
    var goal := db.goals[g];
    db.(goals := db.goals[g := goal.(attempts := goal.attempts + 1, lastError := Some(e), lastAttempt := Some(now))],
        clock := now)
  }
}
