# Wallet, orders and jobs: a verified model

This project models three parts of the service and proves what they guarantee.

* **Wallet.** Points are kept in lots. A credit adds a lot, a debit takes points from a
  user's lots oldest first, and both append to a ledger whose entries carry a snapshot of
  the balance. Calls may carry an idempotency key. `PointService.dfy` has the two calls as
  methods on the tables, `Fifo.dfy` says what the debit loop means (a queue of single points),
  `WalletRuns.dfy` is a machine of any number of concurrent calls moving step by step, with
  failures anywhere, and `WalletSafety.dfy` has what holds in every state it can reach.
  `WalletFifo.dfy` says what first in, first out comes to when calls overlap. `WalletSolo.dfy` ties the two views together: an undisturbed call of the machine ends where
  the method ends.
* **Orders.** Creating and refunding open a transaction of their own, while the wallet call
  inside commits separately. `OrderService.dfy` has the two operations as methods,
  `OrderRuns.dfy` runs many of them over the concurrent wallet with a crash possible at every
  point. `OrderSafety.dfy` has what is visible and what becomes of every debit, `RefundSafety.dfy`
  and `RefundRaces.dfy` what refunds come to, and `OrderSolo.dfy` ties methods and machine.
* **Jobs.** `JobService.dfy` has the two runners, the admin operations, backoff and drain;
  `JobRuns.dfy` runs them concurrently under row locks. `Normalise.dfy` is the normalisation
  of source messages, `Polling.dfy` one poll of a source queue and one of the main queue, and
  `Pipeline.dfy` the whole way from source queue to processed message with redelivery and
  arbitrary failures, next to jobs the API sends there itself. `Canonical.dfy` is the string callback signatures cover.

`WalletTables.dfy` holds the wallet's tables and what it means for lots and ledger to agree,
and `Prelude.dfy` the few shared pieces. `dafny verify dfyconfig.toml` checks everything.

## What is assumed

* The database is PostgreSQL at READ COMMITTED: others see a write from commit on;
  `SELECT ... FOR UPDATE` picks candidate rows, then for each waits until no other
  transaction holds it and looks at the committed row again; locks last to the end of the
  transaction; an insert under a unique index waits for an uncommitted rival and fails on a
  committed one. A commit may take effect and still be reported as an error. Writing a lot's row and appending its ledger entry is one step, since
  nobody can see between the two.
* The balance that credit and debit start from is read outside their transaction
  (`getUserBalance` takes no manager). In the methods it is a parameter that may be any
  number; in the machine it is the committed balance at the time of the read.
* The request hash is the tuple of hashed fields itself: no two tuples collide. The direction
  is not among the fields. An amount is its text, which is hashed, and the integer it reads as.
* Generated row ids, random ids and job ids are new. An order's id is not known to callers
  while its creation is still running.
* `createdAt` may tie. The methods' table keeps later inserts last among equals; the machine
  allows every order the sort allows.
* Row ids and times of lots are integers, ids of orders and products are texts.
* How HTTP calls, message processing, sends, deletes and inserts end is a parameter of the
  methods and a free choice of the machines. Times are integers in milliseconds.

## Where the code and its documents differ

The model follows the code.

* README.md:119 says points are consumed by earliest expiry; they are consumed by creation
  time, and the expiry date is stored but never read.
* README.md:109-112 promises that a repeated keyed financial request gets the cached answer.
  For creating an order it does not hold (`Orders.CreationRepeats`), and a debit can be
  answered with an earlier credit (`Points.DebitAnsweredByCredit`).
* order.service.ts:68 and 135 say that the debit is in the order's transaction; it commits
  before it.
* docs/JOB_API_INTEGRATION_GUIDE.md:1499 gives one minute for the first retry and 1491 `DEAD`
  for exhausted jobs; the first delay is two minutes and exhausted jobs become `FAILED`.

## What turned out false, and exactly when it holds

* A debit need not be first in, first out over the user's lots: a lot whose credit commits
  after the debit's query can be older than the ones it takes from (`OlderLotPassedOver`). It
  is, and the queue of points loses its first ones, exactly when no such lot is older than
  the last one touched (`CommitIsFifoIff`). Lots the query saw are never passed over
  (`SeenLotsComeFirst`).
* Balance snapshots form a chain in serial runs (`SerialSnapshotsChain`); in concurrent ones a
  commit continues the chain exactly when the balance it read is still the balance
  (`SnapshotChainIff`), and two credits can record the same snapshot (`SnapshotsCanCollide`).
* A debit and a later credit commute exactly when the new lot is out of the debit's reach
  (`DebitCommutesWithCredit`).
* A replay answers a debit with a debit's response exactly when the call that recorded the key
  was a debit (`ReplayDirectionIff`, `ReplayTellsDirection`).
* A committed creation debit need not have an order. Its order is visible at the end of a run
  exactly when its creation finishes before it crashes, and is lost for good exactly when the
  crash comes first (`CreationFateIff`, `DebitHasOneFate`).
* Two refunds of one order can both credit it exactly when at most one of them has a key, or
  neither if the order's refund key is used already (`DoubleCreditIff`).
* A REFUNDED order need not have been credited: a wallet call from outside under its refund key
  can stand in (`RefundedByImposter`). When every refund request has a key, it was credited
  exactly when no such call did (`RefundedCreditIff`).
* Normalising twice is normalising once exactly when the query parameters were not given as
  null, and through parsing moreover only when the method is a known one (`SecondPassIff`,
  `SecondBridgeIff`; `SecondPassChanges` has an input for each). A forwarded message with
  another method is never processed (`UnknownMethodStays`). The raw text of a body that does
  not parse is never used (`FallbackForgets`).
* A failed job can be due again at once exactly when its retry count is far below zero
  (`DueAgainIff`), so draining is proved for every count from -16 up.
* The canonical string splits back exactly when method and path hold no newline, and is shared
  by no different request exactly when the body text holds none either (`SplitsBackIff`,
  `UniqueIff`).

## Model

| member | source | states |
|---|---|---|
| `WalletTables.InsertFacts` | src/modules/point/repositories/wallet-lot.repository.ts:20-40 | A new lot adds its points to its owner's balance and to nobody else's, and every other row is found as before |
| `WalletTables.SetFacts` | src/modules/point/repositories/wallet-lot.repository.ts:71-81 | Updating one row's remaining amount changes that column of that row only, and its owner's balance by the difference |
| `WalletTables.AvailableFacts` | src/modules/point/repositories/wallet-lot.repository.ts:48-66 | The rows a debit gets are exactly the user's rows with points left, and they add up to what the balance query returns |
| `WalletTables.AvailableKeepsOrder` | src/modules/point/repositories/wallet-lot.repository.ts:54-58 | Those rows come oldest first and none twice |
| `WalletTables.CreditReconciles` | src/modules/point/point.service.ts:91-119 | A new lot with its CREDIT entry keeps lots, ledger and balances in agreement |
| `WalletTables.DebitReconciles` | src/modules/point/point.service.ts:228-256 | One row update with its DEBIT entry keeps lots, ledger and balances in agreement |
| `Fifo.PiecesFacts` | src/modules/point/point.service.ts:220-267 | The loop touches a prefix of the rows, takes something from each, drains all of them but the last, never takes more than a row holds, and takes the whole amount or all there is |
| `Fifo.LoopIsDebit` | src/modules/point/point.service.ts:225-260 | The loop's row updates together are the debit defined by one pass over the lot table without a loop |
| `Fifo.DebitDropsUnits` | src/modules/point/point.service.ts:220-267 | With the lots read in order as a queue of single points tagged by lot, a debit of a drops exactly the first a points |
| `Fifo.DebitSparesOthers` | src/modules/point/repositories/wallet-lot.repository.ts:54-58 | No other user's queue changes |
| `Fifo.DebitsCompose` | src/modules/point/point.service.ts:220-260 | Debiting a and then b leaves the same lots as debiting a + b, whatever the funds |
| `Fifo.DebitCommutesWithCredit` | src/modules/point/point.service.ts:91-100 | A debit and a credit can be swapped exactly when the new lot is not usable by the debit or lies behind enough older points; a youngest lot lies behind the whole balance |
| `Fifo.CreditQueuesLast` | src/modules/point/point.service.ts:91-100 | A credit that is last in time puts its points at the back of its user's queue |
| `Fifo.LoopTurns` | src/modules/point/point.service.ts:225-260 | A turn of the loop keeps: pieces cut plus pieces to come are the pieces of the whole amount, spent plus remaining is the amount, entries carry the running balance |
| `Fifo.EntryAt` | src/modules/point/point.service.ts:228-256 | The i-th entry of a debit is for the i-th piece's lot and amount, and its snapshot is the balance read less all that was taken up to it |
| `Points.ConsumeLots` | src/modules/point/point.service.ts:213-261 | The loop over the selected rows writes the pieces of the amount, one ledger entry each with the running balance, and returns what could not be taken |
| `Points.PointService.CreditWallet` | src/modules/point/point.service.ts:43-147 | Tables and answer are those of `Credit`, whose every outcome and column `CreditMeaning` states |
| `Points.PointService.DebitWallet` | src/modules/point/point.service.ts:160-295 | Tables and answer are those of `Debit`, whose every outcome and column `DebitMeaning` states: the loop with its running variables, nothing left behind by a shortfall |
| `Points.DebitMeaning` | src/modules/point/point.service.ts:160-295 | Each outcome of a debit has its exact condition on amount, key, balance read and balance; only a done one changes a table: the user's queue loses its first a points and no other queue changes, each new ledger entry carries the request's fields and the running balance, the amounts add up to a, and a non-empty key is recorded with fields and response |
| `Points.CreditMeaning` | src/modules/point/point.service.ts:43-147 | Each outcome of a credit has its exact condition; only a done one changes a table, by exactly one full lot made now, one CREDIT entry with the request's fields and the new balance, and a row for a non-empty key |
| `Points.DebitKeepsAgreement` | src/modules/point/point.service.ts:199-295 | Lots and ledger agree after a debit however out of date the balance read was |
| `Points.CreditKeepsAgreement` | src/modules/point/point.service.ts:78-147 | Lots and ledger agree after a credit however out of date the balance read was |
| `Points.PiecesReconcile` | src/modules/point/point.service.ts:225-260 | Lots and ledger agree after any number of turns over rows that are in the table |
| `Points.SerialSnapshotsChain` | src/modules/point/point.service.ts:86-116 | Over every serial run each snapshot is the user's previous one plus or minus its entry's amount, within a multi-lot debit too, and the last is the balance |
| `Points.LaterCallsWithTheKey` | src/modules/point/point.service.ts:343-398 | After a call with a non-empty key is done, and any calls in between, a call of the same app with that key changes nothing and gets the recorded response for the same hashed fields and a conflict for others |
| `Points.KeylessCallsAlwaysRun` | src/modules/point/point.service.ts:62 | A call without a key, or with an empty one, is never answered from the key table and records nothing there |
| `Points.ReplayDirectionIff` | src/modules/point/point.service.ts:343-366 | After a keyed call is done, and any calls in between, a call with its key and fields is answered with a debit's response exactly when that call was a debit, and changes nothing |
| `Points.DebitAnsweredByCredit` | src/modules/point/point.service.ts:179-191 | Whatever the tables and the calls in between, a debit that repeats the key and fields of an earlier credit is answered with the credit's response and debits nothing |
| `WalletRuns.TurnOk` | src/modules/point/point.service.ts:225-260 | Between turns of a concurrent debit its uncommitted writes are the first of the pieces the amount cuts from the rows it holds |
| `WalletRuns.LockOk` | src/modules/point/repositories/wallet-lot.repository.ts:60-63 | A row read under lock joins the rows held, which stay in order of age and equal to the committed table |
| `WalletRuns.KeyUnused` | src/common/repositories/idempotency-key.repository.ts:44-59 | A call about to commit has written its key and no committed call has used it |
| `WalletRuns.CommitReconciles` | src/modules/point/point.service.ts:121-133 | A commit keeps committed lots and ledger in agreement and its entries add up to its amount |
| `WalletRuns.CommitStep` | src/modules/point/point.service.ts:263-283 | A commit keeps the invariant of the tables, of every other call under way and of every ended call |
| `WalletRuns.QuietStep` | src/modules/point/point.service.ts:160-295 | Every other step of any call keeps the invariant and leaves committed tables and log alone |
| `WalletSafety.RunKeepsInv` | src/modules/point/point.service.ts:199-295 | Every interleaving keeps the invariant, and what was committed stays committed |
| `WalletSafety.NeverOverdrawn` | src/modules/point/point.service.ts:199-295 | In every reachable state no lot is below zero or above its initial amount, no user's debits exceed the credits, and credits minus debits is the balance |
| `WalletSafety.LotsMatchLedger` | src/modules/point/point.service.ts:91-119 | In every reachable state a lot has exactly one CREDIT entry, for its initial amount, and has left that amount minus its DEBIT entries |
| `WalletSafety.OneEffectPerKey` | src/database/entities/idempotency-key.entity.ts:15 | In every reachable state the ledger is the committed calls' entries end to end, each call committed at most once, its entries carry its fields and add up to its amount, and no two calls of one app committed under the same non-empty key |
| `WalletSafety.OutcomesHold` | src/modules/point/point.service.ts:343-398 | What an ended call came to stays true in every later state: its effect is committed exactly when it is done or its commit went unheard; a replay returns the response of a committed call of its app with the same non-empty key and fields; a conflict means such a call has other fields |
| `WalletSafety.ReplayTellsDirection` | src/modules/point/point.service.ts:61-76 | In every reachable state a replay is a debit's response exactly when the one committed call that used the key was a debit |
| `WalletSafety.RowsHeldOnce` | src/modules/point/repositories/wallet-lot.repository.ts:60-63 | No lot row is held by two calls |
| `WalletSafety.CommittedDebitIsFifo` | src/modules/point/point.service.ts:214-267 | A debit about to commit takes its whole amount, oldest first, from the rows it holds, which are rows of its user still as it read them; all touched ones but the last are drained |
| `WalletFifo.SeenLotsComeFirst` | src/modules/point/repositories/wallet-lot.repository.ts:48-66 | In every reachable state a debit about to commit holds every usable lot of its user that its query saw, and has drained each that is older than the last one it touches |
| `WalletFifo.CommitIsFifoIff` | src/modules/point/point.service.ts:213-261 | When no two usable lots of the user are of one age, the commit does to the table what the debit of the whole table does exactly when no usable lot its query did not see is older than the last one touched; then the user's queue of points loses exactly its first a points |
| `WalletFifo.OlderLotPassedOver` | src/modules/point/repositories/wallet-lot.repository.ts:54-63 | For every credit and every debit it covers there is a reachable state in which the debit passes over an older lot that was credited after its query |
| `WalletFifo.DebitInOrder` | src/modules/point/repositories/wallet-lot.repository.ts:58 | In a debit of the whole table no usable lot is touched while an older one keeps points |
| `WalletSafety.SnapshotChainIff` | src/modules/point/point.service.ts:203-205 | A commit continues the user's snapshot chain exactly when the balance it read is the balance at commit; otherwise the chain breaks |
| `WalletSafety.SnapshotsCanCollide` | src/modules/point/point.service.ts:86-116 | For every keyless credit request there is a reachable state in which two of them record the same snapshot while the balance is twice the amount |
| `WalletSolo.SoloDebit` | src/modules/point/point.service.ts:160-295 | From every reachable state with no call under way the machine can run a debit to the tables, answer and log the method's function gives |
| `WalletSolo.SoloCredit` | src/modules/point/point.service.ts:43-147 | The same for a credit |
| `Orders.OrderService.CreateOrder` | src/modules/billing/services/order.service.ts:71-171 | Orders, wallet tables and answer are those of `Create` for every product, cart, key, balance read and either end of the outer transaction |
| `Orders.OrderService.RefundOrder` | src/modules/billing/services/order.service.ts:177-269 | Orders, wallet tables and answer are those of `Refund`, whose meaning the next row states, for every order, key, balance read and either end of the outer transaction |
| `Orders.RefundMeaning` | src/modules/billing/services/order.service.ts:186-257 | Each outcome of a refund has its exact condition; unless its key is recorded the owner gains one lot of the total, the ledger one REFUND entry with the reference given or its default, and a non-empty key is recorded under order:id:refund; a failed outer commit leaves the order PAID; every other refusal, among them any for a REFUNDED order, changes nothing |
| `Orders.CreateMeaning` | src/modules/billing/services/order.service.ts:84-171 | Each outcome of a creation has its exact condition on quantity, product, total, balance read, balance and outer commit; success means the order with every column as asked for, PAID; then and when only the outer commit fails the queue has lost the total, with BUY_ITEM entries under the order's id and a row under its key; any other refusal changes nothing |
| `Orders.CreationRepeats` | src/modules/billing/services/order.service.ts:136-148 | The same keyed creation sent again makes and charges a second order exactly when the funds are twice the total, because the derived key names the new row |
| `Orders.RefundAgain` | src/modules/billing/services/order.service.ts:226-253 | After a keyed refund whose outer commit failed, asking again with the same reference reaches REFUNDED and credits nothing, and with another reference it conflicts and changes nothing |
| `Orders.KeysDiffer` | src/modules/billing/services/order.service.ts:136-138 | Different order ids, whatever texts they are, give different debit and refund keys |
| `Decimal.RoundTrip` | src/modules/billing/services/order.service.ts:143 | The decimal text of a natural number holds only digits, has no leading zero and reads back as the number |
| `OrderRuns.OwnDebitIsDone` | src/modules/billing/services/order.service.ts:136-148 | The answer a creation gets from the wallet is its own debit, never a replay |
| `OrderRuns.StepKeepsInv` | src/modules/billing/services/order.service.ts:105-171 | Every step of every creation, refund, wallet call and crash keeps the invariant |
| `OrderRuns.RunKeepsInv` | src/modules/billing/services/order.service.ts:105-269 | Every interleaving keeps it |
| `OrderSafety.VisibleOrderIsPaid` | src/modules/billing/services/order.service.ts:105-163 | In every reachable state a visible order is PAID or REFUNDED, never PENDING, and its creation made exactly one committed debit, of price times quantity, with its id as reference |
| `OrderSafety.LedgerShowsOrder` | src/modules/billing/services/order.service.ts:140-148 | The ledger's BUY_ITEM debits under the order's id add up to its total, plus only what calls from outside booked under that id |
| `OrderSafety.CreationFateIff` | src/modules/billing/services/order.service.ts:117-163 | Along every continuation the order of a creation under way is visible at the end exactly when its last step comes before any crash of it, and is abandoned exactly when a crash comes first, before or after the wallet has answered |
| `OrderSafety.DebitHasOneFate` | src/modules/point/point.service.ts:281 | In every reachable state a committed creation debit has exactly one fate: its order is visible; its process is at work and can make it visible in one step unless the wallet's answer was lost; or it is abandoned |
| `OrderSafety.RunOnward` | src/modules/billing/services/order.service.ts:153-163 | Over every run committed effects, visible orders, REFUNDED orders and abandoned creations stay what they are |
| `RefundSafety.RefundFacts` | src/modules/billing/services/order.service.ts:226-240 | A committed refund credit carries its order's app, owner and total, reason REFUND, the reference given or its default, and the order's refund key exactly when a non-empty key was given |
| `RefundSafety.KeyedRefundOnce` | src/modules/billing/services/order.service.ts:226-240 | Of two committed refund credits of one order at most one was asked for with a key, over all interleavings and crashes, and each is for the full total |
| `RefundSafety.CommittedRefundIsRecorded` | src/modules/point/point.service.ts:121-131 | A committed keyed refund credit is the effect recorded under the order's refund key, with its fields and response |
| `RefundSafety.RetriedRefund` | src/modules/billing/services/order.service.ts:193-253 | From every reachable state where a keyed refund credit of a PAID order is committed a new keyed request runs to REFUNDED without touching the wallet, or conflicts when its reference differs |
| `RefundSafety.RefundedIsCredited` | src/modules/billing/services/order.service.ts:226-251 | In every reachable state a REFUNDED order has a committed refund credit for its total, unless the effect recorded under its refund key was made from outside with the fields of a refund of it |
| `RefundSafety.RefundedCreditIff` | src/modules/billing/services/order.service.ts:226-251 | When every refund request of it carries a key, a REFUNDED order was credited exactly when the effect under its refund key was not made from outside |
| `OrderSolo.RefundedByImposter` | src/modules/wallet/wallet.service.ts:18-48 | From every reachable state at rest a never refunded PAID order can become REFUNDED with one new wallet effect, made from outside, be it a credit or a debit |
| `RefundRaces.DoubleCreditIff` | src/modules/billing/services/order.service.ts:193-253 | From every reachable state two new refund requests for a PAID order can both credit it exactly when at most one of them carries a key, and neither if the refund key is used already |
| `OrderSolo.SoloCreate` | src/modules/billing/services/order.service.ts:71-171 | From every reachable state at rest the machine can run a creation to the orders and tables the method's function gives, whether its outer commit works or not |
| `OrderSolo.SoloRefund` | src/modules/billing/services/order.service.ts:177-269 | The same for a refund |
| `Jobs.JobService.RunDueDbJobs` | src/modules/job/job.service.ts:446-516 | A round updates each row of its batch by how its own attempt went, leaves all others alone, and returns the number that succeeded |
| `Jobs.RoundRows` | src/modules/job/job.service.ts:453-515 | After a round a job that succeeded is SUCCEEDED with no next time and no error; a failed one with retries left is RETRYING, one count up, with its error and due after its delay; any other failed one is FAILED for good; every other row is as it was; the count is the number that succeeded |
| `Jobs.DueAfterRun` | src/modules/job/job.service.ts:476-510 | A job that was run is due again exactly when it failed with retries left, from its delay on and not before |
| `Jobs.QueryReturns` | src/modules/job/repositories/job.repository.ts:96-107 | The due-jobs query returns only PENDING and RETRYING rows whose time has come, each once, longest due first, at most the limit, leaving out none that is due longer than one returned and none at all below the limit |
| `Jobs.JobService.RunDueJobs` | src/modules/job/job.service.ts:138-181 | The legacy round writes nothing for unified jobs or missing apps, keeps the status on a retry, and counts failed callbacks as handled |
| `Jobs.LegacyRows` | src/modules/job/job.service.ts:143-265 | After a legacy round a unified job or one without its app is as it was; a callback that went through is SUCCEEDED, one with retries left keeps its status and waits, any other is FAILED; the count is the callbacks carried out |
| `Jobs.JobService.ExecuteHttpCallback` | src/modules/job/job.service.ts:186-266 | The row after a callback: done, failed for good, or to be retried with the status column untouched |
| `Jobs.JobService.RetryJob` | src/modules/job/job.service.ts:286-306 | Found exactly when the row exists; only that row changes, to the reset one |
| `Jobs.JobService.DeadletterJob` | src/modules/job/job.service.ts:313-331 | Found exactly when the row exists; only that row changes, to the dead one |
| `Jobs.AdminEffects` | src/modules/job/job.service.ts:286-331 | A reset job is PENDING from count 0, without an error, due from now on and not before, with its whole retry budget; a dead-lettered one is DEAD and due at no time; no other column changes |
| `Jobs.DelayFacts` | src/modules/job/job.service.ts:694-697 | Delays never shrink as the count grows, are at most a day, reach a day exactly from count 11 on and are positive exactly above count -16 |
| `Jobs.DelayDoubles` | src/modules/job/job.service.ts:694-697 | The first delay is two minutes; from one minute at count 0 on each delay is twice the one before or a day, and below 0 half of the one above |
| `Jobs.TotalWaitClosed` | src/modules/job/job.service.ts:476-495 | From count 0 with m retries the delays add up to 2^m - 2 minutes for m up to 11, and to 2^11 - 2 minutes plus a day for each retry past 11 |
| `Jobs.ExhaustsExactly` | src/modules/job/job.service.ts:476-510 | A job that always fails is FAILED after exactly max(1, maxRetries - r) runs, not fewer, and the delays scheduled on the way add up to the total wait from r |
| `Jobs.RunSpends` | src/modules/job/job.service.ts:453-512 | Each run lowers the runs a job has left; a failed one by exactly one; none are left exactly when the job is final |
| `Jobs.DueAgainIff` | src/modules/job/job.service.ts:476-510 | An attempted job is due again at the query's own time exactly when it failed then, has retries left and its new count is at most -16 |
| `Jobs.RoundLeaves` | src/modules/job/repositories/job.repository.ts:96-107 | A round takes exactly its batch out of the due set and changes no other due job |
| `Jobs.RoundDrains` | src/modules/job/repositories/job.repository.ts:96-107 | A round lowers the number of due jobs by its limit, or to zero |
| `Jobs.DrainsFairly` | src/modules/job/job.service.ts:447-512 | Rounds at one time attempt no job twice and no other job at all, and leave none due exactly when rounds times limit reaches the number of due jobs; then each was attempted once |
| `JobRuns.StepKeepsInv` | src/modules/job/job.service.ts:446-516 | Every step of every runner and admin operation keeps the invariant |
| `JobRuns.HeldOnceAndWaiting` | src/modules/job/repositories/job.repository.ts:96-106 | In every reachable state no job is held by two runners, and a job has no next time exactly when it is SUCCEEDED, FAILED or DEAD |
| `JobRuns.LegacyFailureNeedsLiveRow` | src/modules/job/job.service.ts:255-263 | The legacy retry update, which writes a time but no status, keeps that rule exactly on rows that are not final |
| `JobRuns.CommitIsRound` | src/modules/job/job.service.ts:447-515 | A concurrent round that commits does to the table what the method does to its batch |
| `JobRuns.CommitIsLegacyRound` | src/modules/job/job.service.ts:139-159 | The same for a legacy round |
| `JobRuns.RunsAreBounded` | src/modules/job/job.service.ts:453-512 | Between resets, over every interleaving, a job is run by committed rounds at most max(1, maxRetries - r) times, and a final job stays final and is not run |
| `Normalise.Complete` | src/modules/job/services/multi-queue-polling.service.ts:241-372 | One pass leaves path, method, resource, headers, execution type and key non-empty for every message, and the group exactly when message or queue names one |
| `Normalise.FieldsTakeFirst` | src/modules/job/services/multi-queue-polling.service.ts:249-307 | Path, method, resource, execution type, group, key and job id are the first non-empty of their candidates in order of precedence, or their default; app id, base URL, function name and URL and invocation type the first non-empty one, or empty |
| `Normalise.BodyKept` | src/modules/job/services/multi-queue-polling.service.ts:319-360 | The payload is forwarded: the nested body if given, else the flat one; a text as it is, an object as its JSON text; without either the raw text if there is any, else null |
| `Normalise.RestTakesFirst` | src/modules/job/services/multi-queue-polling.service.ts:309-341 | Encoding flag, path parameters, query, headers and context are the first given of nested and flat value or the default, which for path parameters is the path without its leading slash; the retry count is the first that is not 0 |
| `Normalise.ParseMeaning` | src/modules/job/services/multi-queue-polling.service.ts:205-233 | A source message is taken as it is exactly when it parses, its nested message is well-formed and its types are known; else only its raw text is kept |
| `Normalise.FallbackForgets` | src/modules/job/services/multi-queue-polling.service.ts:227-231 | What does not parse or validate is forwarded as an empty object posted to the root path, with every default, whatever its raw text |
| `Normalise.SecondPassIff` | src/modules/job/services/multi-queue-polling.service.ts:241-341 | Normalising the result again gives the same message but for id and time exactly when the query parameters were not given as null |
| `Normalise.SecondBridgeIff` | src/modules/job/services/multi-queue-polling.service.ts:205-341 | With parsing and validation in between, exactly when moreover the method is one the nested validation knows |
| `Normalise.MainValidation` | src/modules/job/dto/unified-job-message.dto.ts:21-180 | A main-queue message is accepted exactly when it has every required field and its method, execution type and invocation type are among those listed |
| `Normalise.ForwardedAcceptedIff` | src/modules/job/dto/unified-job-message.dto.ts:78-142 | What the bridge forwards, with nested values of their declared types, passes the main queue's validation exactly when method, execution type and invocation type are known and there is a group |
| `Normalise.KeyStaysIff` | src/modules/job/services/multi-queue-polling.service.ts:275-278 | Two forwards of a message carry the same deduplication key exactly when the message brings a key along |
| `Polling.MultiQueuePolling.PollQueue` | src/modules/job/services/multi-queue-polling.service.ts:57-159 | For every way sends, deletes and inserts can fail: the main queue gets the forms of the messages that were sent, in order, the source queue loses exactly those also deleted, the rest are saved, and the count is the deletions |
| `Polling.MultiQueuePolling.ForwardOne` | src/modules/job/services/multi-queue-polling.service.ts:98-120 | Nothing is deleted that was not sent before |
| `Polling.MultiQueuePolling.SaveFailedMessage` | src/modules/job/services/multi-queue-polling.service.ts:418-453 | A failed message becomes a job row unless the insert fails or its app id is empty, and stays queued |
| `Polling.SavedColumns` | src/modules/job/job.service.ts:340-354 | The row of a failed message is what the bridge would forward with a new job id, the app named or the default one, its execution type as group and no retries; it is saved exactly when send or delete failed, the insert works and the app id is not empty |
| `Polling.PickIsSubsequence` | src/modules/job/services/multi-queue-polling.service.ts:97-109 | What is sent, deleted or saved in one poll is a subsequence of what was received, in order, missing nothing that was chosen |
| `Polling.PollAccounts` | src/modules/job/services/multi-queue-polling.service.ts:94-150 | Forwarded plus failed is received, every message whose send went through is in the list sent, and every failed one that can be saved is a row |
| `Polling.StaysUnlessDeleted` | src/modules/job/services/multi-queue-polling.service.ts:108-115 | A received message leaves its queue exactly when its send and its delete both went through |
| `MainPolling.MainQueue.PollAndProcess` | src/modules/job/job.service.ts:377-439 | The count is the deletions; processed, deleted and saved messages are those their parse and fates say, in order, and failed ones stay queued |
| `MainPolling.DeletedWereProcessed` | src/modules/job/job.service.ts:399-415 | Every message a poll deletes was valid and processed by it |
| `MainPolling.LeavesWhenDone` | src/modules/job/job.service.ts:397-415 | A received message was processed exactly when it parses, validates and processing succeeds, and leaves the queue exactly when its delete went through as well |
| `MainPolling.RowsOfPoll` | src/modules/job/job.service.ts:615-645 | The rows of a poll are those of the valid messages not processed and deleted that name an app and could be saved, each with its own retry count and the delay that gives, and no others |
| `Pipeline.StepKeepsInv` | src/modules/job/services/multi-queue-polling.service.ts:97-137 | Every step of bridges, consumers, queues and failures keeps the invariant |
| `Pipeline.NothingIsLost` | src/modules/job/services/multi-queue-polling.service.ts:97-137 | Under every interleaving, failure and redelivery, with the API sending jobs too, a message put in a source queue is still there, or the main queue took its form or, if it brings a key, something under that key; and what the main queue took is still there or was processed |
| `Pipeline.TurnRuns` | src/modules/job/services/multi-queue-polling.service.ts:98-120 | A turn of the polling loop, with every way its send and delete can fare, is a run of the machine |
| `Pipeline.KeylessIsForwarded` | src/modules/job/services/multi-queue-polling.service.ts:275-278 | A message without a key of its own leaves its queue only after its own form was taken |
| `Pipeline.UnknownMethodStays` | src/modules/job/job.service.ts:396-436 | A forwarded message with a method the main queue does not know is never processed and stays in the main queue |
| `Canonical.BodiesSigned` | src/common/utils/hmac.util.ts:20-22 | A text is signed as it is, an object as its JSON text and a missing or null body as an empty object |
| `Canonical.Capitals` | src/common/utils/hmac.util.ts:22 | The method is put in capitals letter by letter and nothing else in it changes |
| `Canonical.SplitsBackIff` | src/common/utils/hmac.util.ts:14-23 | Splitting at the first two and the last newline recovers method, path, body text and timestamp exactly when method and path hold no newline, whatever the body holds |
| `Canonical.Injective` | src/common/utils/hmac.util.ts:14-23 | Then equal canonical strings mean equal upper-cased method, path, body text and timestamp |
| `Canonical.UniqueIff` | src/common/utils/hmac.util.ts:14-23 | No different request shares a request's canonical string exactly when its method, path and body text hold no newline |

## Left out

- ForwardedAcceptedIff: does not cover nested execution, metadata or request-context values that
  are not texts; source-message.dto.ts:138-158 only checks for objects, so the bridge forwards
  them, or throws on a path that is not a text.
- Whether the wallet methods' own commit is reported as an error although it went through: the
  machines have that step, the methods do not.
- CommitIsFifoIff: leaves open the order among lots created at the same instant, which the
  query does not fix; `SeenLotsComeFirst` covers them.
- Expiry of points: stored with a lot and never read.
- Amounts that `BigInt` cannot read, and overflow of the bigint columns.
- Partial refunds: the private method takes an amount, its one caller passes none.
- Creating a job in both modes as one transaction, callback jobs and scheduled messages: the
  creation of rows appears as a step of `JobRuns` and in what the pollers save, sending as a
  step of `Pipeline`.
- Texts of errors and logs, and the formatting of validation errors.
- A receive that fails, or a main-queue poll without a configured queue: the poll throws before
  it changes anything. How many messages a receive may hand out is left to the queue.
- What processing a message does, and all HTTP, AWS and mail calls: each succeeds or fails.
- SHA-256 and HMAC themselves, signing and verifying.
- Whether a locked due job is skipped or fails the query: only that it is not taken twice.
- The limit of a concurrent round: `JobRuns` allows any free due rows up to the limit, not
  only the earliest; `Jobs` has the exact query.
- Authentication, roles, guards, including the idempotency guard no controller uses.
- Products, users, platforms and admin screens; DTO validation beyond method, execution type,
  invocation type, group and the required fields.
- Ledger pages, queue retention and dead-letter queues, order within a message group, drift
  of the clock.
- Upper-casing beyond ASCII and timestamps that are not natural numbers.
- Retry counts that are not integers.
- The columns of a job that hold its payload.
- The round trip of cached responses through JSON, which turns dates into texts.
- Job rows written by the pollers are not part of `Pipeline`: the queues alone lose nothing.
