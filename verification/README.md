# GSB Salak and Kapook: a verified model

This project models the money side of a bank backend. A customer saves in a
*kapook* account towards a goal; money leaves it as a withdrawal or becomes
lottery-bond tickets (*salak*) bought from the goal; a worker buys whatever is
left once a reached goal's countdown has run out; a settled holding pays its
principal and interest to the customer's primary account. Everything is
recorded twice: in a double-entry ledger and in a log of kapook transactions.

How the files fit together:

- `Database.dfy` holds the rows and the lookups, `Steps.dfy` every service call
  as one atomic step (guards in the source's order, then the whole effect).
- `Service.dfy` is the same calls as the source writes them: a class whose
  fields are the tables, updated statement by statement, with rollback to the
  start of the transaction or savepoint. Each method is proved to be exactly
  the step of its name, refusals included.
- `Answers.dfy` says what each call answers, as a table of checks in their order;
  `Effects.dfy` what an accepted call changes, row by row.
- `Laws.dfy` states what every reachable database satisfies; `LawsKept.dfy`,
  `StepsKept.dfy` and `PurchasesKept.dfy` prove that every step keeps it, and
  `Runs.dfy` carries it over any sequence of calls and worker passes.
- `Consequences.dfy`, `History.dfy`, `Issued.dfy`, `Openings.dfy`, `Terms.dfy`,
  `Ownership.dfy`, `Expiry.dfy` and `Aborts.dfy` draw what that means for
  customers, for the bank and for the worker.
- `Worker.dfy` is one pass over its claimed goals and `Publishing.dfy` what it has
  written before it commits; `WorkerRaces.dfy`, `WithdrawRaces.dfy`,
  `SettleRaces.dfy` and `LockOrder.dfy` are about calls that overlap in time.
- `Tickets.dfy`, `Calendar.dfy`, `DrawDays.dfy`, `Fees.dfy`, `Chooser.dfy` and
  `Sums.dfy` are the arithmetic underneath.

Conventions. Money is in satang (`numeric(18,2)`), a product's interest in
hundredths of a satang, rounded half away from zero when it is stored. Ids are
positions in their tables; a row's `created_at` is the instant of its call, and
the clock does not go back. The tables' CHECKs abort the transaction that trips
them: those on goals, balances and overlapping ticket ranges are proved never
to fire; those on the ticket cursor, on a holding's range and on the ledger's
amounts can, and are modelled as refusals.

What the proofs turned up, where the code and what is said of it differ; the
model follows the code:

- A settlement on a still-active goal pays its principal to the primary account
  but leaves the goal's saving amount, so the goal's available balance exceeds
  the cash in its account from then on (`Expiry.AvailableCanExceedCash` is such
  a run; `History.SettlingStrandsExactly` says which goals this befalls). No
  later call ever closes that goal, and its account can take no other
  (`Runs.SettledActiveGoalNeverCloses`, `Runs.StuckAccountTakesNoGoal`).
  `Consequences.WithdrawExactlyWhen` and `BuyFromGoalExactlyWhen` say exactly
  what can still be taken out.
- The comment on Withdraw says it never touches the active flag
  (`internal/kapook/service/kapook_service.go:475-476`); a full withdrawal of a
  reached goal closes it (lines 516-550).
- A purchase that exactly fills a letter's block, and a purchase of one ticket,
  always abort: the cursor's CHECK stops at 9,999,999
  (`migrations/000025_redesign_salak_ticket_sequence.up.sql:15`) and a
  holding's CHECK wants its last ticket above its first
  (`migrations/000005_create_salak_holdings.up.sql:7`). `Aborts.BothAreReached`
  is a run to both, and `Aborts.CheckRefusesExactlyWhen` the exact condition.
- A settlement reads its goal without a lock and then overwrites the salak amount
  (`internal/kapook/service/kapook_service.go:801-806`). Purchases of the goal wait
  for its row, settlements for the primary account they all pay
  (`internal/transaction/service/settle_holding_service.go:70`), and a purchase and
  a settlement for a common salak account only. So no interleaving loses a change
  if and only if all use one salak account, or all buy, or all settle
  (`SettleRaces.LosesNothingExactlyWhen`). Registration opens one salak account.
- Taking locks in one order rules out deadlock among customer calls. A settlement
  against a purchase, and a pass that buys of two products against another pass or
  a purchase, can wait in a circle (`LockOrder.SettlementCanDeadlock`,
  `PassesCanDeadlock`, `PassAndPurchaseCanDeadlock`). While all passes buy of one
  product they cannot, nor with customer calls among them
  (`LockOrder.OneProductNeverDeadlocks`): its ticket cursor admits one at a time.
- A deferred goal is not left as it was
  (`internal/kapook/worker/worker.go:36-39`): its retry date is stored, and it
  is not claimed again before that date.

## Model

| member | source | states |
|---|---|---|
| Runs.RunKeepsInv | internal/kapook/service/kapook_service.go:180-820 | every law of Laws.dfy holds in every state of every run of calls and worker passes |
| Runs.EventIsItsCall | internal/kapook/service/kapook_service.go:180-820 | each event of a run is its call: refused with nothing done, or done as the call does it, a worker pass on its claim included |
| Runs.ApplyKeepsInv | internal/kapook/service/kapook_service.go:180-820 | each kind of call keeps every law |
| Runs.EmptyHasInv | migrations/000013_create_kapook_goals.up.sql:1-24 | the empty database satisfies every law |
| Runs.RunGrows | internal/kapook/repository/gorm_goal_repository.go:58-98 | over any run both logs only grow, a closed goal stays closed with what it saved, a reached-at stamp is never moved, and a holding changes only by being settled, once |
| Runs.SettledActiveGoalNeverCloses | internal/kapook/service/kapook_service.go:793-820 | once part of an active goal has expired, no run closes it |
| Runs.StuckAccountTakesNoGoal | internal/kapook/service/kapook_service.go:193-199 | and its account is refused every new goal |
| StepsKept.DepositKeepsInv | internal/kapook/service/kapook_service.go:300-409 | a deposit keeps balances, ledger, goals and logs in agreement |
| StepsKept.WithdrawKeepsInv | internal/kapook/service/kapook_service.go:480-598 | so does a withdrawal, with or without a fee, closing or not |
| StepsKept.CreateGoalKeepsInv | internal/kapook/service/kapook_service.go:180-231 | a new goal keeps at most one active goal per account and starts owning no cash |
| StepsKept.OpenAccountKeepsInv | internal/account/service/account_service.go:56-74 | so does opening an account; kapook and salak accounts open empty |
| Openings.OpeningKeepsInvExactlyWhen | internal/account/service/account_service.go:56-74 | an account alone keeps the laws if and only if it is a savings account or opens empty |
| Openings.SeededHasInv | cmd/seed/main.go:160-251 | the demo data, a kapook account opened with the money of a goal already reached, satisfies every law, so every run from it does |
| Openings.DemoGoalIsBought | cmd/seed/main.go:208-212 | the worker's next attempt buys the demo goal whole, unless it is a draw day of its product |
| Runs.RegisterIsARun | internal/user/service/auth_service.go:67-80 | registration is a run of three such calls or nothing, keeps every law, and leaves the customer a primary account and a salak account |
| StepsKept.ReviseProductKeepsInv | internal/salak/repository/gorm_product_repo.go:52-83 | so does revising a product: its cursor is kept, and tickets stay disjoint |
| StepsKept.DepositGuards | internal/kapook/service/kapook_service.go:301-346 | a deposit that goes through found an active goal of that account with room for it, and its money in a different account |
| StepsKept.WithdrawGuards | internal/kapook/service/kapook_service.go:480-529 | a withdrawal that goes through is covered, nets a positive amount to a savings account, and is charged as its window says |
| PurchasesKept.BuySalakKeepsInv | internal/transaction/service/buy_salak_service.go:36-74 | a purchase from savings keeps every law |
| PurchasesKept.BuyFromGoalKeepsInv | internal/kapook/service/kapook_service.go:725-779 | a purchase from a goal keeps every law, closing the goal only when its account is left empty |
| PurchasesKept.SettleKeepsInv | internal/kapook/service/kapook_service.go:784-827 | a settlement keeps every law |
| PurchasesKept.SettlementIsCovered | internal/transaction/service/settle_holding_service.go:66-69 | the settlement's debit never lacks funds, and the goal's salak amount always covers the principal, so the clamp at zero never acts |
| PurchasesKept.BuyGuards | internal/kapook/service/kapook_service.go:725-751 | a purchase that goes through is from the account's one active goal, of money it has, into a salak account |
| PurchasesKept.BookkeepingKeepsInv | internal/kapook/repository/gorm_goal_repository.go:115-131 | deferrals and failure records keep every law |
| LawsKept.MintedIsFresh | internal/salak/repository/gorm_holding_repo.go:50-93 | a newly minted range overlaps no holding of its product, so the exclusion constraint never fires |
| LawsKept.BalancedGroupKeepsReferences | internal/kapook/service/kapook_service.go:107-150 | entries whose debits and credits differ by the fee of their row keep every reference balanced |
| LawsKept.RowKeepsFees | internal/kapook/service/kapook_service.go:415-422 | a row recorded as charged exactly when two earlier ones share its window keeps the fee law for all rows |
| LawsKept.PostKeepsShown | internal/account/service/account_service.go:86-128 | a balance move with its entry keeps every balance_after equal to the replay of the ledger up to it |
| LawsKept.BoughtIsLivePlusExpired | internal/kapook/service/kapook_service.go:755-820 | what a goal ever bought is its salak amount plus what has expired from it |
| Consequences.KapookBalance | internal/kapook/domain/goal.go:50-60 | a kapook account's balance is the sum over its goals of saving less salak, minus its expirations |
| Consequences.ActiveGoalCash | internal/kapook/domain/goal.go:50-60 | the account's cash is all its active goal's; a closed goal has none |
| Consequences.WithdrawShortExactlyWhen | internal/kapook/service/kapook_service.go:506-540 | a withdrawal that passed its checks runs short exactly when it asks for expired money, so never while nothing has expired |
| Consequences.BuyShortExactlyWhen | internal/transaction/service/buy_salak_service.go:132-136 | the same for the debit of a purchase from a goal |
| Consequences.ReachedAndExpiredIsLocked | internal/kapook/service/kapook_service.go:516-523 | a reached goal with an expiration can be neither withdrawn nor bought by the worker |
| History.ClosedExactlyOnceFinished | internal/kapook/domain/goal.go:14-17 | in any run from an empty database a goal is closed exactly from the moment it was reached and nothing of it was left but tickets |
| History.RefusedWhileUnfinished | internal/kapook/service/kapook_service.go:193-199 | a customer who may open a goal is refused exactly while a goal opened on the account before has never been finished |
| History.SettlingStrandsExactly | internal/kapook/service/kapook_service.go:793-820 | a settlement leaves an active goal with expired money exactly when it bought the holding, or had some before |
| Consequences.WithdrawExactlyWhen | internal/kapook/service/kapook_service.go:480-545 | a withdrawal succeeds exactly when it is neither in tickets nor expired, and is the whole of a reached goal |
| Consequences.BuyFromGoalExactlyWhen | internal/kapook/service/kapook_service.go:696-751 | a purchase from a goal succeeds exactly when its product sells the amount that day, a letter block has room, and the amount is neither in tickets nor expired |
| Consequences.SettleExactlyWhen | internal/transaction/service/settle_holding_service.go:41-105 | a settlement is never refused for insufficient funds, and succeeds exactly for an unsettled holding of an active product, a primary account, and interest of at least half a satang |
| Answers.DepositAnswers | internal/kapook/service/kapook_service.go:300-357 | a deposit is accepted exactly when nine checks pass, the last two that some open goal of the account has room for it, to the target included, and that the savings account has it; otherwise it answers the error of the first check that fails |
| Answers.WithdrawAnswers | internal/kapook/service/kapook_service.go:480-545 | the same for the eight checks of a withdrawal |
| Answers.BuySalakAnswers | internal/transaction/service/buy_salak_service.go:36-136 | the same for the seventeen checks of a purchase from savings, product rules, draw day, money and tickets in that order |
| Answers.BuyFromGoalAnswers | internal/kapook/service/kapook_service.go:610-751 | the same for a purchase from a goal, before and after the goal is found |
| Answers.CreateGoalAnswers | internal/kapook/service/kapook_service.go:180-231 | the same for the ten checks of a new goal |
| Answers.SettleAnswers | internal/transaction/service/settle_holding_service.go:41-105 | the same for the six checks of a settlement, money not among them |
| Answers.OpenAccountAnswers | internal/account/service/account_service.go:56-74 | the same for opening an account |
| Answers.ProductAnswers | internal/salak/repository/gorm_product_repo.go:52-83 | the same for adding and revising a product |
| Answers.AttemptAnswers | internal/kapook/worker/worker.go:150-200 | the worker's attempt buys when every check of a purchase of all that is left passes, is deferred or finds no date when the first to fail is the draw day, and otherwise fails with the error of that check |
| Effects.DepositMoves | internal/kapook/service/kapook_service.go:348-401 | a deposit moves its amount, all of it, from savings to kapook account and goal, stamps the goal exactly when it reaches the target, logs it, and changes nothing else |
| Effects.WithdrawMoves | internal/kapook/service/kapook_service.go:497-590 | a withdrawal takes its amount from account and goal and pays it to the primary account less a charge: none for the first two of the window, two percent to the nearest satang for others; a reached goal closes |
| Effects.BuySalakMoves | internal/transaction/service/buy_salak_service.go:125-197 | a purchase moves its amount from savings to the salak account and mints one holding, dated that day, of the whole tickets the amount buys, next in line |
| Effects.BuyFromGoalMoves | internal/kapook/service/kapook_service.go:751-779 | the same out of the kapook account; the goal's tickets grow by the amount, it closes exactly at the target, and its retry date and failure streak are cleared |
| Effects.CreateGoalMoves | internal/kapook/service/kapook_service.go:213-231 | a new goal is open with nothing saved, and nothing else changes |
| Effects.SettleMoves | internal/transaction/service/settle_holding_service.go:54-105 | a settlement pays the holding's amount and its interest, to the nearest satang, to the owner's primary account, marks the holding, and takes the amount off the tickets of the goal that bought it |
| Effects.CatalogueMoves | internal/salak/repository/gorm_product_repo.go:52-83 | opening an account, listing or revising a product and accepting the terms each change their own table only |
| Effects.RunSellsByTheRules | internal/transaction/service/buy_salak_service.go:102-123 | every holding minted by any call of any run, the worker's included, is of a product then on sale, for an amount its terms then allowed, on a day without a draw |
| History.MoneyIsConserved | internal/transaction/service/settle_holding_service.go:30-40 | over any stretch of a run all balances together move by the openings of new accounts and the interest paid, less the fees the new withdrawal rows recompute to |
| History.PaidAtMostOnce | internal/transaction/service/settle_holding_service.go:46-48 | the ledger pays a holding's principal, whole, in the stretch of a run that settles it and in no other |
| Issued.RunTicketsDiffer | internal/salak/domain/holding.go:40-46 | in any state of any run, different tickets of one product never print the same |
| Issued.RunCursorIsExact | internal/salak/repository/gorm_holding_repo.go:50-93 | in any state of any run the place of a product's cursor is exactly the tickets of its holdings plus the tails before them, each smaller than the holding that skipped it, and at most 440,000,000 |
| Issued.RunKeepsTickets | internal/salak/repository/gorm_holding_repo.go:50-93 | in any state of any run, serving a product's holdings again from the first ticket on hands out their ranges and ends at its cursor |
| Issued.EmptyHasTickets | migrations/000025_redesign_salak_ticket_sequence.up.sql:12-17 | the empty database is a place to start |
| Consequences.FirstTwoAreFree | internal/kapook/service/kapook_service.go:35-37 | in each anniversary window exactly the first two withdrawals of a goal are free |
| History.CountStaysOverRun | internal/kapook/repository/gorm_transaction_repository.go:28-38 | over any stretch of a run without a withdrawal call on the account, the goal's count in every window stays the same |
| History.QuoteIsCharged | internal/kapook/service/kapook_service.go:428-462 | a quote is what any later withdrawal in the same window is charged, if no withdrawal from the account was called in between and its goal is still open |
| Consequences.QuoteShows | internal/kapook/service/kapook_service.go:428-462 | a quote is given exactly to the owner of an account with an open goal, counts down from two, and charges from the third on |
| Consequences.TrackerShows | internal/kapook/service/kapook_service.go:256-294 | the tracker is shown exactly while the product is on sale, with the whole seconds left, rounded down |
| Consequences.TrackerFollows | internal/kapook/service/kapook_service.go:256-294 | the tickets and purchases it shows start at none and grow with each purchase of the goal, by its tickets and by one |
| Consequences.TrackerIsHonest | internal/kapook/service/kapook_service.go:256-294 | the tracker says reached exactly when the target is met, shows no time left on a goal the worker may claim, is ineligible only when no purchase can succeed, and counts every purchase |
| Expiry.AvailableCanExceedCash | internal/kapook/service/kapook_service.go:784-820 | a run of nine calls after which the available balance cannot be withdrawn |
| Aborts.CheckRefusesExactlyWhen | internal/salak/repository/gorm_holding_repo.go:66-92 | a purchase every service check passed is refused by a CHECK exactly when its range fills a block or holds one ticket |
| Aborts.BothAreReached | migrations/000025_redesign_salak_ticket_sequence.up.sql:12-17 | a run of three calls after which one ticket cannot be bought, nor a whole block, while two tickets can |
| Aborts.SeededFillAborts | cmd/seed/main.go:56-67 | with the seeded terms and ten tickets left in a block, the purchase of ten aborts |
| Terms.OpenedGoalKeepsTerms | internal/salak/service/salak_service.go:62-76 | while no call after its creation revises its own product's terms, a goal's target is a valid purchase and all it has in tickets came in steps |
| Terms.RunKeepsTerms | internal/salak/service/salak_service.go:62-76 | the same from any state where it holds |
| Terms.RemainderIsValid | internal/kapook/worker/worker.go:143-149 | what is left of a reached goal is then a valid purchase |
| Terms.ReachedGoalIsBought | internal/kapook/worker/worker.go:150-176 | so the worker buys it whole on a day without a draw, leaving saving, salak and target equal, the goal closed and its account empty |
| Ownership.CallTouchesOwn | internal/account/service/account_service.go:33-44 | a call moves balances, changes goals and writes entries, under one fresh reference, only of its own customer, and opens a goal only for one who accepted the terms |
| Ownership.RunKeepsOwners | internal/account/service/account_service.go:33-44 | over any run no ledger reference spans two customers and every purchase is in its goal owner's salak account |
| Ownership.EmptyHasOwners | migrations/000013_create_kapook_goals.up.sql:1-24 | the empty database satisfies the ownership law |
| Ownership.SettleTouches | internal/transaction/service/settle_holding_service.go:56-78 | a settlement pays only the holding's owner, and only that owner's goal changes |
| Worker.BookkeepingOnly | internal/kapook/worker/worker.go:185-218 | an attempt that does not buy changes only the goal's retry date or failure streak |
| Worker.ProcessLeavesOthers | internal/kapook/worker/worker.go:143-149 | an attempt changes no other goal |
| Worker.DeferralWaits | internal/kapook/repository/gorm_goal_repository.go:100-119 | a deferred goal's date is the next day without a draw, it is not due before that date, and the draw-day guard passes on it |
| Worker.DeferredExactlyWhen | internal/kapook/worker/worker.go:161-200 | an attempt is deferred if and only if its amount could be bought but for the draw day, and one of the next 45 days has no draw |
| Worker.DeferralEnds | internal/kapook/repository/gorm_goal_repository.go:100-113 | a due goal that is deferred is due again exactly from its retry date on |
| Worker.DueExactlyFrom | internal/kapook/repository/gorm_goal_repository.go:100-113 | an open, reached goal is due exactly from the later of the end of its countdown and the start of its retry date |
| Worker.ClaimIsFair | internal/kapook/repository/gorm_goal_repository.go:100-113 | a due goal nobody holds is left out only of a claim of twenty, none of which was reached after it |
| Worker.SeededDeferralIsTomorrow | cmd/seed/draw_dates.go:11-40 | on a seeded calendar that date is tomorrow |
| Worker.MintSucceedsExactlyWhen | internal/salak/service/salak_service.go:116-163 | minting succeeds exactly for at least two units that fit a block without filling it |
| Worker.WorkerBuysExactlyWhen | internal/kapook/worker/worker.go:150-176 | an attempt on a reached goal buys exactly when six conditions, all checkable beforehand, hold |
| Worker.PurchaseCompletesGoal | internal/kapook/service/kapook_service.go:755-779 | the worker's purchase leaves saving, salak and target equal, the goal closed, its account empty, one more holding and one automatic row |
| Worker.Pass | internal/kapook/worker/worker.go:111-141 | a pass reports one result per claimed goal and leaves products, account holders and the number of goals alone |
| Worker.PassMidway | internal/kapook/worker/worker.go:117-136 | a pass keeps every law and every unclaimed goal, and meets each claimed goal as it was claimed |
| Worker.PassIsIsolated | internal/kapook/worker/worker.go:124-134 | each attempt in a pass has the outcome, and writes to goal, cash, holdings, log and ledger what it would alone on the starting database, but for where earlier goals left the ticket cursors |
| Worker.PurchaseLeaves | internal/kapook/service/kapook_service.go:751-775 | all a worker's purchase writes, from the goal's row, its cash and the minted holding |
| Worker.PassRows | internal/kapook/worker/worker.go:150-218 | after a pass each claimed row is closed, deferred to a later day, or its own row with one more failure |
| Worker.PassShrinksDue | internal/kapook/repository/gorm_goal_repository.go:100-113 | at a fixed clock a pass takes out of the due set exactly the goals it bought or deferred |
| Worker.Count | internal/kapook/worker/worker.go:66-74 | the loop counts the results of one kind |
| Worker.SummaryCountsWhatLeft | internal/kapook/worker/worker.go:56-74 | the counts add up to the claim, and purchased plus deferred is how many goals left the due set |
| Worker.PassTakesABatch | internal/kapook/worker/worker.go:24-28 | a pass without failures takes min(20, due) goals out of the due set |
| Worker.DueGoalsDrain | internal/kapook/worker/worker.go:24-28 | without failures n due goals are gone after ceil(n/20) passes |
| Publishing.AttemptIsWritten | internal/kapook/worker/worker.go:150-176 | what an attempt records stands on the view it ran on, and laid over that view gives exactly what the attempt left |
| Publishing.PublishMidway | internal/kapook/worker/worker.go:117-136 | the recorded writes of a pass, published on whatever has been committed since, keep every law and every goal not yet reached, while the rows it holds are as it read them |
| Publishing.PublishLeaves | internal/kapook/worker/worker.go:117-136 | a commit changes no goal, account or ticket cursor its pass does not hold |
| Publishing.UndisturbedIsPass | internal/kapook/worker/worker.go:111-141 | with nothing committed in between, attempts and commit amount to processing the claim at once |
| WorkerRaces.NextIsSafe | internal/kapook/worker/worker.go:117-136 | every claim, attempt, commit, abort and customer call of an interleaving keeps every law, keeps what passes hold apart and what they wrote standing, and never buys a goal automatically twice |
| WorkerRaces.InterleavingIsSafe | internal/kapook/worker/worker.go:76-80 | so does any interleaving of any number of passes |
| WorkerRaces.BoughtExactlyOnce | internal/kapook/worker/worker.go:76-80 | an attempt of a pass that commits leaves its goal with one automatic purchase if and only if every check on it passed in its turn, whatever was committed in between; from then on it has exactly that one, with a holding of its own for all that was left and the very tickets the attempt got |
| WorkerRaces.EmptyIsSafe | internal/kapook/worker/worker.go:76-80 | an empty system with any number of idle passes is a place to start |
| WithdrawRaces.NoLostUpdateNoThirdFree | internal/kapook/service/kapook_service.go:469-479 | under any interleaving of locks, counts, writes, commits and aborts of deposits, withdrawals and purchases, no saving or salak update is lost, a withdrawal is charged exactly from the third of its window on, and so at most two per window are free |
| WithdrawRaces.PutIsDeposit | internal/kapook/service/kapook_service.go:326-371 | the race lets a deposit through, and leaves goal and log row, exactly as the call does |
| WithdrawRaces.TakeIsWithdraw | internal/kapook/service/kapook_service.go:497-560 | the same for a withdrawal |
| WithdrawRaces.BuyIsPurchase | internal/kapook/service/kapook_service.go:725-779 | the same for a purchase from the goal |
| SettleRaces.HarmlessLosesNothing | internal/kapook/service/kapook_service.go:784-806 | callers of whom no settlement and purchase use different salak accounts lose no change of the goal's salak amount, however they interleave |
| SettleRaces.CrossingCanLose | internal/kapook/service/kapook_service.go:801-806 | any settlement overwrites the change of any purchase into another salak account in some interleaving |
| SettleRaces.LosesNothingExactlyWhen | internal/transaction/service/settle_holding_service.go:66-73 | no interleaving loses a change if and only if the callers share one salak account, or all buy, or all settle |
| LockOrder.NoDeadlock | internal/kapook/service/kapook_service.go:348-357 | transactions that take their locks in rising order never wait in a circle |
| LockOrder.OneProductNeverDeadlocks | internal/kapook/worker/worker.go:117-136 | passes that buy of one product, with any customer calls among them, never wait in a circle |
| LockOrder.SettlementCanDeadlock | internal/transaction/service/settle_holding_service.go:66-73 | the order is needed: a settlement and a purchase can wait for each other |
| LockOrder.PassesCanDeadlock | internal/kapook/worker/worker.go:117-136 | two passes buying of two products in opposite order can wait for each other's cursors |
| LockOrder.PassAndPurchaseCanDeadlock | internal/kapook/worker/worker.go:117-136 | a pass holding a salak account and a purchase into it can wait for each other |
| Service.Bank.constructor | migrations/000013_create_kapook_goals.up.sql:1-24 | a fresh bank is empty and lawful |
| Service.Bank.LockForUpdate | internal/account/service/account_service.go:105-113 | reads the account and holds its lock, or reports it missing and holds none |
| Service.Bank.Debit | internal/account/service/account_service.go:86-103 | takes the amount off exactly one balance unless that would make it negative |
| Service.Bank.Credit | internal/account/service/account_service.go:115-128 | adds the amount to exactly one balance |
| Service.Bank.FindActiveForUpdate | internal/kapook/repository/gorm_goal_repository.go:46-56 | finds and locks the account's active goal |
| Service.Bank.CreateAccount | internal/account/service/account_service.go:56-74 | is exactly the atomic step |
| Service.Bank.Register | internal/user/service/auth_service.go:67-80 | opens all three accounts or, on any error, none |
| Service.Bank.UpdateGoal | internal/kapook/repository/gorm_goal_repository.go:58-98 | writes one goal row; every caller is proved to meet the table's CHECKs |
| Service.Bank.RecordKapookLedgerPair | internal/kapook/service/kapook_service.go:107-150 | appends one row and its two entries under the row's own fresh id |
| Service.Bank.CreateGoal | internal/kapook/service/kapook_service.go:180-231 | is exactly the atomic step and keeps every law |
| Service.Bank.Deposit | internal/kapook/service/kapook_service.go:300-409 | is exactly the atomic step with rollback, keeps every law, and takes its locks in rising order, a kapook account's after its open goal's |
| Service.Bank.WriteDeposit | internal/kapook/service/kapook_service.go:348-401 | the writes amount to the step; the guard against re-stamping a reached goal never matters |
| Service.Bank.Withdraw | internal/kapook/service/kapook_service.go:480-598 | is exactly the atomic step with rollback, keeps every law, and takes its locks in rising order, a kapook account's after its open goal's |
| Service.Bank.WithdrawInTx | internal/kapook/service/kapook_service.go:497-529 | the window search and the count decide the charge as the step says |
| Service.Bank.ReserveTicketRange | internal/salak/repository/gorm_holding_repo.go:50-93 | hands out what the cursor step hands out, and aborts on an exact block fill |
| Service.Bank.InsertHolding | migrations/000025_redesign_salak_ticket_sequence.up.sql:25-31 | callers are proved to meet the exclusion constraint; a one-ticket range is refused |
| Service.Bank.MintHolding | internal/salak/service/salak_service.go:116-163 | stores the holding of the minting step and its next cursor, or reports the step's error |
| Service.Bank.MintAndSettle | internal/transaction/service/buy_salak_service.go:132-197 | debit, mint, credit and the ledger pair amount to the purchase step |
| Service.Bank.ValidateSalakSide | internal/transaction/service/buy_salak_service.go:102-123 | checks the account, the product, its rules and its draw days in that order |
| Service.Bank.BuySalak | internal/transaction/service/buy_salak_service.go:36-74 | is exactly the atomic step with rollback, keeps every law, and takes its locks in rising order, a kapook account's after its open goal's |
| Service.Bank.BuySalakForKapook | internal/transaction/service/buy_salak_service.go:77-96 | the kapook-funded purchase inside the caller's transaction, with the locks it adds |
| Service.Bank.ConvertGoal | internal/kapook/service/kapook_service.go:755-775 | grows the salak amount, clears the failure streak, closes the goal when it is full, and logs the purchase |
| Service.Bank.BuyFromGoalCore | internal/kapook/service/kapook_service.go:725-779 | the body shared by customer and worker amounts to the step |
| Service.Bank.BuyInTransaction | internal/kapook/service/kapook_service.go:635-651 | on any error the savepoint leaves the database as it was |
| Service.Bank.BuyFromGoal | internal/kapook/service/kapook_service.go:610-625 | is exactly the atomic step, keeps every law, and takes its locks in rising order, a kapook account's after its open goal's |
| Service.Bank.PayLegs | internal/transaction/service/settle_holding_service.go:66-77 | the debit fails exactly for want of funds, the credits never; salak is locked before savings |
| Service.Bank.WriteEntries | internal/transaction/service/settle_holding_service.go:97-101 | the loop writes all entries in order, or fails exactly when one has no positive amount |
| Service.Bank.SettleMaturedHoldingInTx | internal/transaction/service/settle_holding_service.go:41-116 | pays as the step says, holding the locks of the holding, the salak account and the savings account in that order |
| Service.Bank.ExpireFromGoal | internal/kapook/service/kapook_service.go:801-818 | takes the principal off the goal's salak amount, the clamp never acting, and logs the expiration |
| Service.Bank.SettleMaturedHolding | internal/kapook/service/kapook_service.go:784-827 | is exactly the atomic step with rollback and keeps every law |
| Service.Bank.ClaimDueGoals | internal/kapook/repository/gorm_goal_repository.go:100-113 | claims and locks due, unlocked goals, the longest waiting first, as many as there are up to the limit |
| Service.Bank.Fail | internal/kapook/worker/worker.go:210-218 | records the failure on the goal and reports the same error |
| Service.Bank.DeferGoal | internal/kapook/worker/worker.go:185-200 | stores the next day without a draw, or records why there is none |
| Service.Bank.ProcessGoal | internal/kapook/worker/worker.go:150-176 | is exactly one attempt of the pass and keeps every law |
| Service.Bank.RunOnce | internal/kapook/worker/worker.go:111-141 | claims, processes every claimed goal in order without skipping one, and amounts to the pass |
| Tickets.LettersAreTheConsonants | internal/salak/domain/ticket_letters.go:5-16 | the cycle is every consonant of the block but the two vowels, in strictly increasing order |
| Tickets.BuildTicketLetters | internal/salak/domain/ticket_letters.go:22-31 | the loop builds exactly those 44 letters |
| Tickets.NextLetter | internal/salak/domain/ticket_letters.go:40-60 | the next letter with none between, defined on every letter but the last |
| Tickets.ReserveStep | internal/salak/repository/gorm_holding_repo.go:50-93 | when a request can be served; the range has the asked size, stays in one letter, ends at the cursor and skips fewer tickets than it hands out |
| Tickets.ServedInOrder | internal/salak/repository/gorm_holding_repo.go:66-92 | over any requests ranges strictly increase, so are disjoint, and lie below the cursor |
| Tickets.ServedConserves | internal/salak/repository/gorm_holding_repo.go:66-92 | the cursor's place is what was issued plus what was abandoned, and at most 440,000,000 tickets are ever issued |
| Tickets.TicketIdParses | internal/salak/domain/holding.go:40-46 | a ticket prints as its letter and seven digits, and parsing undoes it |
| Tickets.IssuedIdsDiffer | internal/salak/domain/holding.go:40-46 | tickets issued within one product never print the same |
| Calendar.WithdrawalWindow | internal/kapook/domain/withdrawal_window.go:10-16 | the loop ends on the window of the search, which contains now |
| Calendar.WindowsTile | internal/kapook/domain/withdrawal_window.go:5-9 | windows contain their instant, and two of them are equal or disjoint |
| Calendar.WindowLasts365Or366Days | internal/kapook/domain/withdrawal_window.go:5-9 | each window lasts 365 or 366 whole days |
| Calendar.WindowFound | internal/kapook/domain/withdrawal_window.go:10-16 | every window is one of the anniversary intervals of its anchor |
| Calendar.YearsOnClosedForm | internal/kapook/domain/withdrawal_window.go:10-16 | the k-th start is the same month and day k years on, except that 29 February becomes 1 March and stays there |
| DrawDays.NextAvailableDate | internal/salak/service/salak_service.go:101-114 | the least later day without a draw, failing only when all 45 that follow have one |
| DrawDays.WhenDrawn | cmd/seed/draw_dates.go:25-40 | the one-year product is drawn on the 16th of each month, the two-year one on the first, but in January and May on the second, and no other is |
| DrawDays.GenerateDrawDates | cmd/seed/draw_dates.go:11-23 | the nested loops list one draw for each month of the years in order, exactly the drawn days |
| DrawDays.CalendarAscends | cmd/seed/draw_dates.go:11-23 | for years in order each listed draw is at least 28 days after the one before it |
| DrawDays.DrawsApart | cmd/seed/draw_dates.go:25-40 | two draw days of one calendar are at least 28 days apart |
| DrawDays.DrawDayWaitsOneDay | internal/salak/service/salak_service.go:94-99 | on a draw day of such a calendar the search answers tomorrow |
| Fees.RoundIsNearest | internal/kapook/service/kapook_service.go:45-58 | the rounding is to the nearest whole number, a half going away from zero |
| Fees.FeeIsNearest | internal/kapook/service/kapook_service.go:45-58 | the fee is two percent to the nearest satang, a half going up, and always leaves a positive net |
| Fees.NetIsMonotone | internal/kapook/service/kapook_service.go:52-58 | withdrawing more never pays less |
| Fees.SplittingMovesOneSatang | internal/kapook/service/kapook_service.go:52-58 | splitting a withdrawal moves the total fee by at most one satang |
| Chooser.NewChooser | internal/chooser/chooser.go:13-37 | refuses exactly empty, negative and all-zero weights, otherwise builds the running totals |
| Chooser.Pick | internal/chooser/chooser.go:39-42 | the binary search finds what a left-to-right scan finds, always in range |
| Chooser.PickedIntervals | internal/chooser/chooser.go:39-42 | the points picking an index form one interval as long as its weight, so a zero weight is never picked |

## Left out

- Sub-satang request amounts and the upper bound of `numeric(18,2)`: amounts are whole satang without a limit.
- Uniqueness of generated ids: references come from a counter, which stands for fresh uuids.
- StepsKept.OpenAccountKeepsInv: a kapook or salak account with an opening balance is refused here, though `internal/account/service/account_service.go:56-74` and the table's CHECK accept it; the services open these accounts empty only, and the demo data, which does not, is `Openings.SeededHasInv`.
- Service.Bank.CreateAccount: the same refusal.
- The ownership law from the demo data: its customer has a goal without having accepted the terms, so that law starts from the empty database only.
- LockOrder.OneProductNeverDeadlocks: settlements are not among the calls, since `SettlementCanDeadlock` needs no pass.
- LockOrder.NoDeadlock: covers the explicit FOR UPDATE locks of customer calls, not the database's own foreign-key locks or its deadlock detection.
- WorkerRaces.NextIsSafe: what a pass publishes carries the instant of its commit; an attempt that is refused may have read a row another pass holds, where the source would wait for it; a settlement is one call, which SettleRaces justifies for customers with one salak account.
- WorkerRaces.InterleavingIsSafe: the same steps, over interleavings of any length.
- WorkerRaces.BoughtExactlyOnce: the same steps.
- WithdrawRaces.NoLostUpdateNoThirdFree: the races are on one goal row and its log; settlements of the goal are raced in SettleRaces and worker passes, which lock the goal throughout, in WorkerRaces; the balances those calls move are covered by the run laws, call by call.
- Service.Bank.ProcessGoal: the same one instant for an attempt as below.
- Worker.ProcessGoal: one instant serves a whole pass; the source reads the clock again for the draw-day guard, the retry date and the failure stamp, so a pass that crosses midnight may store a retry date counted from the later day.
- Every due goal being bought at last: goals that keep failing are claimed again first, and a settlement on an active goal makes it unbuyable, so nothing of the kind is claimed.
- Maturity dates: the code never checks them when it settles, so a holding does not store one here.
- Badges, registration, login, tokens, HTTP, paging and the admin lists: request plumbing with no law across calls.
- Products with a step or unit price of zero are not admitted; the step has no CHECK of its own in the tables.
- ON CONFLICT by product code: revising a product names it by position.
- Floating-point rounding in the weighted pick: weights and points are real numbers; the random source is a parameter.
- Loops of the database itself (counting rows in a window, finding a row by holding, joins) are functions over the tables; the claiming query is written out as a search.
- Error texts: errors keep only their kind.
