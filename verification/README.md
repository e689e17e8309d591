# Verification of the ledger platform

A Dafny 4 model of the platform's money engine and of the protocols around it, with proofs of what they keep over every
run and every interleaving. `dafny verify dfyconfig.toml` checks everything.

## Reading guide

**The ledger.** `AtomicLedger.dfy` is the specification: each request plans a *script* (rows to insert, guards, locks,
increments, ledger rows, one event), which is refused by its first failing guard or committed as a whole. `Exec` runs a
sequence of calls from an empty database. `LedgerLaws.dfy` proves the accounting laws of all runs, `Operations.dfy` the
exact condition and effect of each operation, `HoldPool.dfy` the law of individual holds, and `DoubleCapture.dfy` the run
in which the capture guard is too weak.

**The code against it.** `Tables.dfy` and `TransferService.dfy` are the service as it is written: statements against
tables inside a transaction that rolls back, each method proved to have the outcome of the atomic operation.

**Concurrency.** `Transactions.dfy` gives each script as a program of single statements; `Concurrency.dfy` interleaves
any number of them, with row locks, private buffers, READ COMMITTED reads and aborts at any point before commit;
`Serialisability.dfy` and `Deadlock.dfy` prove that every interleaving refines the atomic specification and that locking
in id order leaves no deadlock; `Completion.dfy` proves the other direction, that what the specification grants is
committed.

**Around it.** `Accounts.dfy` and `Reconciliation.dfy` (what the two checks measure), `Idempotency.dfy`,
`IdempotencyProgress.dfy` and `IdempotencyRuns.dfy` (requests racing for one key, over the atomic ledger), `Outbox.dfy`,
`OutboxProtocol.dfy`, `OutboxPoll.dfy`, `OutboxRuns.dfy` and `Dlq.dfy` (polling, retries, the dead-letter table),
`Velocity.dfy` and `Limiters.dfy` (sliding windows), `Fees.dfy`, `Rounding.dfy`, `Exchange.dfy` and `Drift.dfy` (rounding).

## Properties that fail, and when they hold

* *Hold balances are never negative.* A hold is never marked as used, and the capture guard compares the pool with the
  captured amount although the whole held amount is deducted. `DoubleCapture.DoubleCaptureOverdraws` is a run that ends at
  -30; `HoldPool.HoldsNonNegativeIff` gives the exact condition over runs.
* *The nightly check reports agreement.* `Reconciliation.NightlyVerdict`: an account agrees exactly when its opening
  balance, hold and captured total add up to zero; `Reconciliation.FundedAccountIsReported`: funding one is enough.
* *The tenant check reports balance.* `Accounts.TenantVerdict`: exactly when nothing is on hold and nothing was captured;
  `Accounts.HoldIsReported`: one hold is enough.
* *A key executes once.* A step is harmless unless its GET finds the record gone or it expires the record of a key that is
  executing or has committed. `Idempotency.ExactlyOnce` holds for runs of harmless steps, and `Idempotency.NeverCanClashIff`
  says that exactly for those it was never within reach that two requests of a key execute at once, or one after a commit.
  `IdempotencyRuns.SplitDeleteCommitsTwice` and `IdempotencyRuns.ExpiryCommitsTwice` commit one key twice.
* *Replies concern the caller's own request.* Keys are not scoped to tenants. `Idempotency.AllOwnIff`: over harmless runs,
  exactly when every GET that replayed found its own tenant's record; `IdempotencyRuns.ReplayCrossesTenants` is a run in
  which one did not, and `Idempotency.AnswersStayInTenant` the case of a key that one tenant uses.
* *An event is enqueued once.* A retry reads its row, enqueues what it read, and deletes the row, in three statements.
  `OutboxProtocol.AtMostOnceIff`: exactly when every retry enqueued while its row was still there and not in the middle of
  another retry, and no row was dismissed in the middle of one. `OutboxRuns.dfy` has a run for each way to fail: two pushes
  before a delete, a push after another retry's delete, and a dismissal after the push or before it.
* *Money is conserved.* `Drift.RunDrift`: exactly when no accepted amount is an odd number of half-cents;
  `Drift.HalfCentMakesACent`: one that is.
* *"At most 5 per minute"* holds for minutes open at their start; for closed ones `Velocity.ClosedMinuteExceedsIff` says
  exactly when, and `Velocity.ClosedMinuteHoldsTwice` reaches twice the limit, whatever the limit.

## Assumptions

* Money is whole cents, or an exact real number in `Drift.dfy` and `Exchange.dfy`; binary floating point is not modelled.
* Account ids are UUIDs in canonical lower-case form, so that string order is the order of the naturals used for them; the
  empty string is 0. New ids are fresh, and nobody names an id that another transaction has drawn and not yet committed.
* Tenants and their fee configuration do not change.
* `Account.opening` is a history field: the balance a row was created with. The outbox doubles as the history of committed
  operations, since each writes one event.
* Limiter pipelines are atomic, both limiters see the same time for one attempt, and time does not run backwards.
* One outbox processor polls, and of its calls only `queue.add` fails; rows are ordered by creation.
* Ids of dead-letter rows are not used again, and of a retry's three statements only the push fails.
* A handler that fails has rolled back its transaction. Fingerprints do not collide.

## Model

| member | source | states |
|---|---|---|
| Fees.RoundHalfAway | src/transfer/transfer.service.ts:77-81 | the result is a nearest integer, and a tie goes away from zero, as `toFixed` does on exact values |
| Fees.RoundingIsDetermined | src/transfer/transfer.service.ts:77-81 | that contract has exactly one solution, so it says what rounding computes without its formula |
| Fees.RoundingAgrees | src/transfer/transfer.service.ts:77-81 | integer rounding is the rounding of exact decimals that the other modules use |
| Fees.Fee | src/transfer/transfer.service.ts:77-81 | the fee is within half a cent of the exact fee, a tie going up; where a negative plan makes that negative, it is zero |
| Fees.FeeIsExactOrZero | src/transfer/transfer.service.ts:77-81 | for every plan and amount, the fee is `fixed + amount * rate` to the nearest cent, a tie going up, or zero where that is negative |
| Fees.FeeWithinHalfCent | src/transfer/transfer.service.ts:77-81 | with a non-negative fee plan the fee is within half a cent of the exact fee, a tie going up |
| Fees.FeeIsMonotone | src/transfer/transfer.service.ts:77-81 | a larger transfer never pays a smaller fee |
| Fees.SeparateFeesDrift | src/transfer/transfer.service.ts:77-81 | the rounded fees of n payments differ from the exact total by at most n half-cents |
| Fees.SplittingAPayment | src/transfer/transfer.service.ts:77-81 | splitting one payment into n parts costs n-1 further fixed fees, up to (n+1)/2 cents either way |
| AtomicLedger.LockOrder | src/transfer/transfer.service.ts:111-122 | rows are locked in strictly increasing id order, and exactly the rows of the parties and the revenue account, each once |
| AtomicLedger.NoHoldIff | src/transfer/transfer.service.ts:377-388 | a hold id finds nothing exactly when the tenant has no HOLD row of that transaction |
| Sums.PostColumn | src/transfer/transfer.service.ts:147-169 | increments on one tenant's accounts move that tenant's column sums by their total and leave every other tenant's sums alone |
| LedgerLaws.TransferIsBalanced | src/transfer/transfer.service.ts:147-220 | the rows, increments and event of a transfer agree for every account, tenant and transaction id, also when sender, receiver or revenue account coincide |
| LedgerLaws.CaptureIsBalanced | src/transfer/transfer.service.ts:426-489 | the same for a capture, full or partial |
| LedgerLaws.HoldIsBalanced | src/transfer/transfer.service.ts:296-316 | the same for a hold, whose single ledger row is one-sided |
| LedgerLaws.ReleaseIsBalanced | src/transfer/transfer.service.ts:586-606 | the same for a release |
| LedgerLaws.TransferChecksHold | src/transfer/transfer.service.ts:124-145 | the five checks of a transfer pass together exactly when sender and receiver are accounts of the tenant and the sender's balance covers amount and fee |
| LedgerLaws.CaptureChecksHold | src/transfer/transfer.service.ts:402-424 | the checks of a capture pass together exactly under the stated condition on amount, hold, pool and receiver |
| LedgerLaws.Granted | src/transfer/transfer.service.ts:124-145 | whatever a granted request posts stays within its tenant, never takes a balance below zero, and is labelled with its tenant and transaction id; for capture and release this rests on every HOLD row naming an account of its own tenant |
| LedgerLaws.ApplyKeepsLaws | src/transfer/transfer.service.ts:68-245 | one granted operation or account opening keeps all the accounting laws |
| LedgerLaws.EveryRunIsSound | src/transfer/transfer.service.ts:147-220 | on every run: an account's TRANSFER and FEE rows sum to balance + hold - opening balance; its HOLD and RELEASE rows sum to -(hold + captured from it); its hold equals holds - releases - full held amounts of captured holds; a tenant's ledger sums to -(holds + captured); a tenant's assets equal its opening balances; the moves of each transaction id sum to zero; no balance is negative |
| Operations.TransferGrantedIff | src/transfer/transfer.service.ts:39-47 | a transfer succeeds if and only if the request is valid, the tenant exists, both parties are its accounts and the sender can pay amount and fee |
| Operations.TransferEffect | src/transfer/transfer.service.ts:147-242 | a granted transfer takes amount and fee from the sender, credits receiver and revenue account, touches no other account, and appends exactly its two or four ledger rows and one event |
| Operations.FeeCharged | src/transfer/transfer.service.ts:77-81 | the fee a granted transfer charges and reports is `fixed + amount * rate` to the nearest cent, a tie going up, or zero where that is negative |
| Operations.HoldGrantedIff | src/transfer/transfer.service.ts:272-294 | a hold succeeds if and only if the account is the tenant's and its balance covers it |
| Operations.HoldEffect | src/transfer/transfer.service.ts:296-332 | a granted hold moves the amount from balance to hold on that one account and appends exactly one row and one event |
| Operations.CaptureGrantedIff | src/transfer/transfer.service.ts:369-424 | for an existing hold, a capture succeeds if and only if the receiver is another account of the tenant, the amount is at most the held amount and the pool covers the amount |
| Operations.CaptureEffect | src/transfer/transfer.service.ts:426-508 | a granted capture takes the whole held amount from the pool, pays the captured part to the receiver and returns the rest; it appends exactly its two or three ledger rows and one event |
| Operations.ReleaseGrantedIff | src/transfer/transfer.service.ts:546-584 | the same for a release of an existing hold |
| Operations.ReleaseEffect | src/transfer/transfer.service.ts:586-623 | a granted release moves the amount back from hold to balance on that one account and appends exactly one row and one event |
| Operations.ReleaseUndoesHold | src/transfer/transfer.service.ts:586-606 | releasing a fresh hold in full restores the account table, unless the pool was negative before, in which case the release is refused |
| Operations.FullCaptureIsATransfer | src/transfer/transfer.service.ts:426-489 | without fees, holding and then capturing in full leaves the account table of a transfer, and is granted exactly when the transfer is and the pool was not negative |
| Operations.OtherTenantsUntouched | src/transfer/transfer.service.ts:147-220 | an operation changes no account of another tenant and appends rows and events of its own tenant only |
| Operations.FindAppended | src/transfer/transfer.service.ts:377-388 | appending ledger rows never changes which HOLD row an existing hold id finds |
| Operations.OneEventPerCommit | src/transfer/transfer.service.ts:226-242 | on every run the outbox holds one row per committed request, and that row reports the request; a refused request writes none |
| Operations.FeesGoToRevenue | src/transfer/transfer.service.ts:84-109 | on every run, a FEE row with a positive amount names an account of type PLATFORM_REVENUE of the tenant it is labelled with |
| Operations.OpenEffect | src/accounts/accounts.service.ts:19-49 | an opening succeeds if and only if the tenant is named and exists, the opening balance is not negative and the id is new; it then adds exactly that row |
| HoldPool.EveryRunIsPooled | src/transfer/transfer.service.ts:297-304 | on every run with fresh transaction ids an account's hold balance is the sum, over its individual holds, of amount minus releases minus a full amount per capture |
| HoldPool.WellUsedIffCovered | src/transfer/transfer.service.ts:407-414 | a hold has a non-negative rest exactly when it was captured once and never released, or only released up to its amount |
| HoldPool.WellUsedPoolsAreCovered | src/transfer/transfer.service.ts:407-414 | while every hold is well used, no hold balance is negative and each covers what any one hold has left |
| HoldPool.HeldBalanceRefusalsNeverFire | src/transfer/transfer.service.ts:413-414 | while every hold is well used, capturing an unused hold, or releasing no more than it has left, is never refused for insufficient held balance |
| HoldPool.CaptureKeepsPoolIff | src/transfer/transfer.service.ts:413-454 | a granted capture leaves a non-negative pool if and only if the pool covered the whole held amount; the code only compares it with the captured amount |
| HoldPool.StepKeepsHoldsIff | src/transfer/transfer.service.ts:413-454 | one operation keeps all hold balances non-negative exactly when, if it is a capture, the pool covers the whole held amount |
| HoldPool.HoldsNonNegativeIff | src/transfer/transfer.service.ts:407-454 | over a whole run hold balances stay non-negative if and only if every committed capture found the whole held amount in the pool |
| DoubleCapture.DoubleCaptureOverdraws | src/transfer/transfer.service.ts:407-454 | a concrete run with fresh ids in which capturing one hold twice is granted and leaves a hold balance of -30 |
| DoubleCapture.RunIsFresh | src/transfer/transfer.service.ts:373 | that run uses a new transaction id for every operation |
| Transactions.RunUpdates | src/transfer/transfer.service.ts:147-169 | updates executed one after another on row versions add up to the net posting of the atomic operation |
| Transactions.ProgramMeans | src/transfer/transfer.service.ts:72-245 | run without interruption, the statements of a transaction give the atomic operation's error, or its rows, ledger entries and event |
| Concurrency.PlansAreDisciplined | src/transfer/transfer.service.ts:111-145 | every operation locks all rows it checks or updates, in increasing order, and checks only existence before locking |
| Concurrency.LocksComeFirst | src/transfer/transfer.service.ts:111-169 | every statement that depends on the contents of a row comes after that row's lock |
| Concurrency.LocksIncrease | src/transfer/transfer.service.ts:111-122 | lock statements of a transaction come in strictly increasing id order |
| Serialisability.PrefixIsStable | src/transfer/transfer.service.ts:111-145 | what a transaction has produced so far does not change while the rows it locked do not, whatever others commit |
| Serialisability.ProgramIsAtomic | src/transfer/transfer.service.ts:72-245 | the statements of a planned transaction, run on the rows committed now, have the outcome of the atomic operation now |
| Serialisability.FailureIsAtomic | src/transfer/transfer.service.ts:124-145 | a statement that fails does so with the error of the atomic operation |
| Serialisability.ReachableInv | src/transfer/transfer.service.ts:72-245 | in every reachable state each private buffer is what its statements would produce on the rows committed now |
| Serialisability.StepsAreAtomic | src/transfer/transfer.service.ts:72-245 | in every interleaving a commit changes accounts, ledger and outbox exactly as the atomic operation on the committed state of that moment; every other step or abort changes nothing committed |
| Serialisability.InterleavingsAreSerial | src/transfer/transfer.service.ts:72-245 | the committed database of any interleaving is that of its committed operations run one after another |
| Serialisability.RefusalsAreAtomic | src/transfer/transfer.service.ts:77-145 | a transaction ended by its lookups or by one of its statements was refused by the atomic operation at that moment, with the same error; `Completion.GrantedStay` has the converse |
| Serialisability.InterleavingsAreSound | src/transfer/transfer.service.ts:147-220 | every accounting law holds in every state of every interleaving |
| Serialisability.LockedRowsStay | src/transfer/transfer.service.ts:111-122 | a locked row keeps its committed value, and its owner the lock, until the owner finishes |
| Serialisability.RevenueIsFound | src/transfer/transfer.service.ts:84-109 | in any interleaving, what the lookup finds is a PLATFORM_REVENUE account of the tenant, it opens one only if the tenant has none committed, and it goes without only if the fee is zero |
| Serialisability.InterleavedFeesGoToRevenue | src/transfer/transfer.service.ts:84-109 | in every interleaving, FEE rows with a positive amount name PLATFORM_REVENUE accounts of their tenant |
| Deadlock.WaitsForGreater | src/transfer/transfer.service.ts:111-122 | a waiting transaction waits for an id greater than every id it holds |
| Deadlock.NoCircularWait | src/transfer/transfer.service.ts:398-400 | in no reachable state do transactions wait for one another in a circle |
| Deadlock.SomeoneCanStep | src/transfer/transfer.service.ts:111-122 | while transactions are in flight, one of them can take a step of its own |
| Deadlock.StepsLower | src/transfer/transfer.service.ts:68-245 | every own step or abort lowers the number of steps left |
| Deadlock.RunsAreShort | src/transfer/transfer.service.ts:68-245 | any interleaving of own steps and aborts is at most as long as the number of steps left |
| Deadlock.EveryoneCanFinish | src/transfer/transfer.service.ts:68-245 | from every reachable state the transactions in flight can all finish; `Completion.AloneCommitsIff` says which finish by committing |
| Completion.GrantedStay | src/transfer/transfer.service.ts:68-245 | a lookup or a statement ends its transaction only if the atomic operation at that moment is an error; while it grants, the transaction stays in flight with its request; a commit ends it and is logged; no step touches another transaction |
| Completion.AloneCommitsIff | src/transfer/transfer.service.ts:68-245 | in any reachable state, a transaction that steps alone from its lookup until it ends is logged as committed if and only if the atomic operation grants it, and leaves what that operation leaves |
| Completion.CallCanRun | src/transfer/transfer.service.ts:111-145 | if the rows it needs are not locked, a transaction about to make its lookup can step alone to its end, with a commit exactly when the atomic operation grants it |
| Completion.RunsAreInterleavings | src/transfer/transfer.service.ts:68-245 | the converse of `Serialisability.InterleavingsAreSerial`: every sequential run of calls, granted and refused, is the committed database of an interleaving that leaves nobody in flight |
| Tables.Database.FindHoldEntry | src/transfer/transfer.service.ts:378-384 | the search returns the first HOLD row of that transaction and tenant, and nothing only if there is none |
| Tables.Database.FindRevenue | src/transfer/transfer.service.ts:84-109 | the search returns an account of the tenant of type PLATFORM_REVENUE, and nothing only if there is none |
| TransferService.TransferDecision | src/transfer/transfer.service.ts:124-145 | the decision of a transfer as the chain of tests in the order of the code, with the error of each |
| TransferService.CaptureDecision | src/transfer/transfer.service.ts:392-424 | the same for a capture |
| TransferService.HoldDecision | src/transfer/transfer.service.ts:272-294 | the same for a hold |
| TransferService.ReleaseDecision | src/transfer/transfer.service.ts:546-584 | the same for a release |
| TransferService.Validation | src/transfer/transfer.service.ts:39-47 | which request is refused before any account is read, and with which error |
| TransferService.Service.ExecuteTransfer | src/transfer/transfer.service.ts:68-245 | the method has the outcome of the atomic transfer, leaves no trace when refused, returns the fee charged, and locks in increasing order; the account credited with the fee is one of the tenant of type PLATFORM_REVENUE, opened only if the tenant has none |
| TransferService.Service.PostTransfer | src/transfer/transfer.service.ts:147-242 | the statement-by-statement updates and inserts are the writes of the atomic transfer |
| TransferService.Service.HoldFunds | src/transfer/transfer.service.ts:266-353 | the method has the outcome of the atomic hold |
| TransferService.Service.CaptureHold | src/transfer/transfer.service.ts:362-532 | the method has the outcome of the atomic capture, with both rows locked in order |
| TransferService.Service.PostCapture | src/transfer/transfer.service.ts:426-508 | its updates and inserts are the writes of the atomic capture |
| TransferService.Service.ReleaseHold | src/transfer/transfer.service.ts:540-645 | the method has the outcome of the atomic release |
| Accounts.AccountsService.CreateAccount | src/accounts/accounts.service.ts:19-49 | a missing tenant, user or type is refused; otherwise the method has the outcome of the atomic opening: a row with the given tenant, type and opening balance, nothing on hold and no ledger row, or the error and no change |
| Accounts.AccountsService.ReconcileTenantBalance | src/accounts/accounts.service.ts:87-111 | the summing loop reports the tenant's ledger sum, verdict and number of accounts |
| Accounts.TenantReport | src/accounts/accounts.service.ts:93-101 | the tolerance of 0.001 accepts exactly a ledger sum of zero |
| Accounts.TenantVerdict | src/accounts/accounts.service.ts:87-111 | on every run the reported sum is -(money on hold + money captured), so the tenant is balanced exactly when that is zero |
| Accounts.HoldIsReported | src/accounts/accounts.service.ts:87-111 | for every tenant and amount: after one opening and one hold the tenant is reported unbalanced, by the amount held |
| Accounts.TransfersAreBalanced | src/accounts/accounts.service.ts:87-111 | a run of openings and transfers only is always reported balanced |
| Accounts.AccountsAreCounted | src/accounts/accounts.service.ts:95-107 | on every run the number of accounts reported is the number of openings granted to that tenant, by calls or by fees, and other tenants do not change it |
| Reconciliation.Differs | src/reconciliation/reconciliation.service.ts:69-71 | the tolerance of 0.001 tells apart exactly the whole-cent amounts that differ |
| Reconciliation.ReconciliationService.QueryLedgerSums | src/reconciliation/reconciliation.service.ts:37-43 | one row for each account the ledger names, with its sum, in any order |
| Reconciliation.ReconciliationService.BuildLedgerMap | src/reconciliation/reconciliation.service.ts:55-59 | the map built in the loop holds the ledger sum of every account the ledger names and nothing else |
| Reconciliation.ReconciliationService.CompareAccounts | src/reconciliation/reconciliation.service.ts:61-82 | the loop counts exactly the listed accounts whose filtered ledger sum differs from balance + hold |
| Reconciliation.ReconciliationService.CountOrphans | src/reconciliation/reconciliation.service.ts:84-96 | the loop counts exactly the ids in the map that are no account |
| Reconciliation.ReconciliationService.ReconcileLedger | src/reconciliation/reconciliation.service.ts:28-117 | every account found by the second query is compared, and the count is of mismatching accounts plus orphans, with the ledger of the first query and the accounts of the second |
| Reconciliation.NightlyVerdict | src/reconciliation/reconciliation.service.ts:61-96 | on every run, if nothing is committed between the two queries, there are no orphans, and an account is counted exactly when opening balance + hold + captured from it is not zero |
| Reconciliation.TwoMomentVerdict | src/reconciliation/reconciliation.service.ts:37-96 | whatever is committed between the two queries, there are no orphans, and an account is counted exactly when that quantity at the second query, plus what was posted to it in between, is not zero |
| Reconciliation.FundedAccountIsReported | src/reconciliation/reconciliation.service.ts:61-82 | for every tenant, id and amount: an account opened with money is the one mismatch of the next check |
| Idempotency.Interceptor.Intercept | src/common/interceptors/idempotency/idempotency.interceptor.ts:57-93 | uninterrupted, by the record found: none, and the handler runs; another body's, and the answer is the mismatch; the same body's in progress, and it is the conflict; the same body's completed, and it is the stored status and transaction; a record found stays as it is |
| Idempotency.Interceptor.Finish | src/common/interceptors/idempotency/idempotency.interceptor.ts:96-111 | what is stored or freed after the handler is what the next step of its session stores or frees; a repeat then gets the response, another body a mismatch, and a failed key is free |
| Idempotency.ReachableInv | src/common/interceptors/idempotency/idempotency.interceptor.ts:57-111 | in every run of harmless steps a request past SET NX holds its key's record alone, and records, commits and answers agree |
| Idempotency.ExactlyOnce | src/common/interceptors/idempotency/idempotency.interceptor.ts:57-111 | in every interleaving whose steps are harmless, a key has at most one ledger transaction, and every success reply to it has status 201, carries that transaction's id and was made with the same body |
| Idempotency.CommittedFields | src/common/interceptors/idempotency/idempotency.interceptor.ts:95-105 | that one transaction has the kind, accounts, hold and amount of the body of every request answered with success |
| Idempotency.AnswersAgree | src/common/interceptors/idempotency/idempotency.interceptor.ts:88-91 | all success replies for one key, first or replayed, are the same status and body |
| Idempotency.OneAtATime | src/common/interceptors/idempotency/idempotency.interceptor.ts:57-93 | at most one request per key executes at a time, and only the one whose fingerprint is in the record |
| Idempotency.CompletedIsFinal | src/common/interceptors/idempotency/idempotency.interceptor.ts:96-111 | a completed record is kept by every step except its own expiry |
| Idempotency.GetAnswers | src/common/interceptors/idempotency/idempotency.interceptor.ts:65-92 | what a GET that finds a record answers: mismatch for another body, else conflict while in progress, else the stored reply |
| Idempotency.ConflictMeansUnfinished | src/common/interceptors/idempotency/idempotency.interceptor.ts:82-86 | on all runs, a GET answers conflict exactly for a record in progress with its own body, and then another request with that key and body has taken the key and has neither stored its reply nor freed it |
| Idempotency.MismatchMeansOtherBody | src/common/interceptors/idempotency/idempotency.interceptor.ts:70-80 | on all runs, a mismatch is answered only if another request was sent with that key and a different body |
| Idempotency.CommitsAreReal | src/common/interceptors/idempotency/idempotency.interceptor.ts:96-105 | every logged commit was granted by the ledger as it stood |
| Idempotency.MissedGetAdmitsTwo | src/common/interceptors/idempotency/idempotency.interceptor.ts:65-68 | a GET that finds the record gone lets a second request execute beside the next holder of the lock |
| IdempotencyProgress.HandlerAnswers | src/common/interceptors/idempotency/idempotency.interceptor.ts:95-111 | a handler commits and answers success exactly when the ledger as it stands grants its request; otherwise it answers a rejection and commits nothing |
| IdempotencyProgress.AnswersStand | src/common/interceptors/idempotency/idempotency.interceptor.ts:57-111 | on all runs, an answer once given never changes, and a request keeps its tenant, key and body |
| IdempotencyProgress.EveryCommitIsAnswered | src/common/interceptors/idempotency/idempotency.interceptor.ts:95-105 | on all runs, harmless or not, every commit of a key was reported, with status 201 and its transaction id, to a request for exactly that operation |
| IdempotencyProgress.RequestRuns | src/common/interceptors/idempotency/idempotency.interceptor.ts:57-111 | a request with a free key, undisturbed: executed, answered with success and put on record exactly when the ledger grants it, else rejected with the key free again |
| IdempotencyProgress.RepeatRuns | src/common/interceptors/idempotency/idempotency.interceptor.ts:65-92 | a repeat after a completed one, undisturbed, executes nothing and gets the stored reply exactly when its body is the same, else a mismatch |
| IdempotencyProgress.FirstGrantedIs | src/common/interceptors/idempotency/idempotency.interceptor.ts:95-111 | the try that `RetriesExecuteOnce` names is the first that the ledger grants |
| IdempotencyProgress.RetriesExecuteOnce | src/common/interceptors/idempotency/idempotency.interceptor.ts:57-111 | at least and at most once: of any number of tries of one request under a free key, the first that the ledger grants is executed and no other; those before are rejected, it and all later ones get its reply |
| Idempotency.StepKeepsRecordsIff | src/common/interceptors/idempotency/idempotency.interceptor.ts:57-111 | one step leaves every executing or committed key on record if and only if it is harmless: a GET finds a record, and a record expires only when its key is neither executing nor committed |
| Idempotency.AlwaysRecordedIff | src/common/interceptors/idempotency/idempotency.interceptor.ts:57-111 | over whole runs, no key is ever exposed if and only if every step was harmless |
| Idempotency.HarmlessRunsAreSafe | src/common/interceptors/idempotency/idempotency.interceptor.ts:57-111 | no harmless continuation of a harmless run makes two requests of a key execute at once, or one execute after a commit |
| Idempotency.CanClashIff | src/common/interceptors/idempotency/idempotency.interceptor.ts:57-111 | after a harmless run, one more step brings such a clash within reach of harmless steps if and only if it is not harmless |
| Idempotency.NeverCanClashIff | src/common/interceptors/idempotency/idempotency.interceptor.ts:57-111 | over whole runs, a clash was never within reach if and only if every step was harmless |
| Idempotency.NewcomerExecutesIff | src/common/interceptors/idempotency/idempotency.interceptor.ts:57-63 | a key is exposed exactly when a new request would execute beside another one or after a commit |
| Idempotency.AnswersStayInTenant | src/common/interceptors/idempotency/idempotency.interceptor.ts:42-55 | for a key that one tenant uses, every success reply is for that tenant's own request |
| Idempotency.StepKeepsOwnIff | src/common/interceptors/idempotency/idempotency.interceptor.ts:65-93 | one harmless step keeps every success reply for the caller's own request if and only if a GET that replays finds the record of its own tenant's request, a guard the code lacks |
| Idempotency.AllOwnIff | src/common/interceptors/idempotency/idempotency.interceptor.ts:65-93 | over whole harmless runs, every success reply is for the caller's own tenant and body if and only if every GET that replayed found its own tenant's record |
| IdempotencyRuns.SplitDeleteCommitsTwice | src/common/interceptors/idempotency/idempotency.interceptor.ts:57-68 | a run in which a delete falls between SET NX and GET ends with two ledger transactions of one key, each reported as a success |
| IdempotencyRuns.ExpiryCommitsTwice | src/common/interceptors/idempotency/idempotency.interceptor.ts:104-104 | a run in which a completed record expires before a repeat ends the same way |
| IdempotencyRuns.ReplayCrossesTenants | src/common/interceptors/idempotency/idempotency.interceptor.ts:88-91 | a run in which a second tenant, with the same key and body, is answered with the first tenant's transaction |
| Outbox.PendingFrom | src/webhook/outbox.processor.ts:32-36 | a batch is the oldest pending rows, in order, at most the limit, and skips one only if full |
| Outbox.Batch | src/webhook/outbox.processor.ts:32-36 | a batch has at most 50 rows, and all pending ones if it has fewer |
| Outbox.PolledAt | src/webhook/outbox.processor.ts:46-113 | a poll attempts each row of its batch once and leaves every other row alone |
| Outbox.AcceptedAre | src/webhook/outbox.processor.ts:46-65 | the rows a poll pushes are exactly those of its batch whose push was accepted, in increasing order, hence each once |
| Outbox.BuriedAre | src/webhook/outbox.processor.ts:83-101 | the failures of a poll are exactly the rows refused at their fifth attempt |
| Outbox.Processor.AttemptEntry | src/webhook/outbox.processor.ts:47-113 | marking, pushing and settling one entry completes it, returns it to pending, or fails it with a dead-letter row at the fifth attempt |
| Outbox.Processor.AttemptAll | src/webhook/outbox.processor.ts:46-114 | the loop attempts each entry of the batch once, in order, against the rows as fetched; it pushes those whose push is accepted, and records as failures those refused at the fifth attempt |
| Outbox.Processor.ProcessPendingOutbox | src/webhook/outbox.processor.ts:23-121 | a run while another is in progress does nothing; otherwise the batch is polled and the flag cleared: a row is pushed exactly once if its push was accepted and not at all otherwise, a failure with 5 attempts is recorded exactly for a row refused at its fifth attempt, and an empty batch changes neither |
| Outbox.WaitingIsPaidFor | src/webhook/outbox.processor.ts:46-112 | while a row is pending, each poll costs it an attempt or spends a full batch of attempts on older rows |
| Outbox.NoStarvation | src/webhook/outbox.processor.ts:31-36 | a new row with k older pending rows is completed or failed after floor(k/10) + 5 polls, whatever arrives later and whatever fails |
| OutboxProtocol.ReachableInv | src/webhook/outbox.processor.ts:46-113 | in every reachable state whose steps met the condition on retries and dismissals, each row is where its status says, and a retry's copy is of a failed row |
| OutboxProtocol.ReachableCore | src/webhook/outbox.processor.ts:46-113 | in every reachable state of processor, retries and dismissals, status, attempts and dead-letter rows agree and the table is the fetched one with its first entries attempted |
| OutboxProtocol.EveryEventHasOnePlace | src/webhook/outbox.processor.ts:46-113 | at rest every event is in exactly one of: pending, enqueued once, dead-letter table, dismissed, if every step met the condition on retries and dismissals |
| OutboxProtocol.AttemptsAreBounded | src/webhook/outbox.processor.ts:83-112 | at every moment a pending row has at most 4 attempts, a failed row exactly 5, and a row at most one dead-letter row |
| OutboxProtocol.RunIsRounds | src/webhook/outbox.processor.ts:28-121 | whatever is interleaved with them, the completed polls act on the table as whole rounds |
| OutboxProtocol.EveryRowSettles | src/webhook/outbox.processor.ts:31-36 | no starvation at the grain of statements: the bound of floor(k/10) + 5 polls holds in every interleaving |
| OutboxProtocol.StepKeepsIff | src/webhook/webhook-dlq.controller.ts:69-128 | one step keeps every event enqueued or dismissed at most once if and only if a retry enqueues what it read only while the row is there and not in the middle of another retry, and a row in the middle of a retry is not dismissed |
| OutboxProtocol.AtMostOnceIff | src/webhook/webhook-dlq.controller.ts:68-134 | over whole runs, every event was enqueued or dismissed at most once if and only if every step met that condition |
| OutboxPoll.PollIsARun | src/webhook/outbox.processor.ts:28-121 | from any reachable state at rest and for any outcomes of the pushes, the protocol has a run of Tick, Mark, Push, Settle, Bury and Finish steps that leaves the table, the jobs and the dead-letter rows as the processor does |
| OutboxPoll.PollsStayApart | src/webhook/outbox.processor.ts:46-113 | statements of polls always meet the condition on retries and dismissals, so polling keeps every event enqueued at most once |
| OutboxRuns.OverlappingRetriesDuplicate | src/webhook/webhook-dlq.controller.ts:79-93 | a run from the empty table, five refused polls and two retries whose pushes both precede the delete, that enqueues one event twice |
| OutboxRuns.StaleRetryDuplicates | src/webhook/webhook-dlq.controller.ts:69-93 | a second retry that read the row before the first one deleted it enqueues the event again afterwards, when no retry is half done |
| OutboxRuns.OverlappingDismissalEnqueues | src/webhook/webhook-dlq.controller.ts:79-128 | a dismissal between the push and the delete of a retry: the event is both enqueued and dismissed |
| OutboxRuns.DismissedCopyIsEnqueued | src/webhook/webhook-dlq.controller.ts:69-128 | a dismissal between the read and the push of a retry, with the same outcome |
| Dlq.DlqController.RetryFailedWebhook | src/webhook/webhook-dlq.controller.ts:68-107 | the three statements in a row: without interference a retry enqueues the event and deletes the row, a refused push leaves the row, an unknown id changes nothing |
| Dlq.DlqController.FindFailure | src/webhook/webhook-dlq.controller.ts:69-77 | the read is a step of the protocol: it keeps a copy of the row, or changes nothing |
| Dlq.DlqController.Enqueue | src/webhook/webhook-dlq.controller.ts:79-88 | the push is a step of the protocol: it enqueues the copy, whatever has become of the row |
| Dlq.DlqController.DeleteRetried | src/webhook/webhook-dlq.controller.ts:90-93 | the delete is a step of the protocol, and without effect when the row is gone |
| Dlq.DlqController.DismissFailedWebhook | src/webhook/webhook-dlq.controller.ts:114-134 | a dismissal deletes the row without enqueueing; an unknown id changes nothing |
| Velocity.TrimTwice | src/security/security.service.ts:28-29 | trimming a set and trimming it again later is trimming it once |
| Velocity.VisitTracks | src/security/security.service.ts:28-35 | one attempt counts exactly the recent history, expired key or not, and leaves a set that still answers like the history |
| Velocity.RecentIsLastMinute | src/security/security.service.ts:17-29 | the recent history is the attempts of the last 60000 milliseconds, that many of them |
| Velocity.WithinIsInMinute | src/security/security.service.ts:18-29 | the attempts counted in a window are those with `end - 60000 < time <= end` |
| Velocity.CountsTheHistory | src/security/security.service.ts:28-37 | on every run the trimmed and expiring set is the recent part of the whole history |
| Velocity.CountsAreExact | src/security/security.service.ts:28-37 | on every run the trimmed and expiring set has as many members as there were earlier attempts with `time > now - 60000` |
| Velocity.ExpiryIsUnobservable | src/security/security.service.ts:34-35 | two runs with the same times count the same, whichever keys had expired |
| Velocity.AdmissionsAreBounded | src/security/security.service.ts:43-53 | if an attempt is admitted when fewer than `limit` are recent, no window of one minute, open at its start, admits more than `limit` |
| Velocity.SetsAdmitAsHistoryDoes | src/security/security.service.ts:43-53 | a limiter working from its sorted set admits the attempts that one working from the whole history would |
| Velocity.LimitsAreKept | src/security/security.service.ts:17-53 | on every run the sorted-set limiter admits at most `limit` attempts with `end - 60000 < time <= end`, for every end |
| Velocity.NeverPausingStaysBlocked | src/security/security.service.ts:32-33 | blocked attempts are logged too: an account that never pauses gets only its first `limit` attempts admitted, ever |
| Velocity.ClosedMinuteHoldsTwice | src/security/security.service.ts:20-29 | for every limit, a full burst at either end of a closed minute is admitted whole, twice the limit in all |
| Velocity.AdmittedAt | src/security/security.service.ts:43-53 | of the attempts of one moment, as many are admitted as the minute before it leaves room for |
| Velocity.ClosedMinuteExceedsIff | src/security/security.service.ts:20-29 | a minute closed at both ends never holds more than twice the limit, and it exceeds the limit exactly when more was admitted before its last instant than attempted after its first one, and these and the attempts of the last instant are together too many |
| Limiters.Redis.LogAttempt | src/security/security.service.ts:28-42 | the pipeline trims, counts, logs and renews the expiry of one key |
| Limiters.SecurityService.EnforceTransferVelocity | src/security/security.service.ts:17-53 | while the set tracks the history, a transfer is allowed exactly when fewer than 5 earlier attempts have `time > now - 60000`, and the set tracks on; every attempt is logged; no other key changes |
| Limiters.RiskService.EvaluateTransaction | src/risk/risk.service.ts:54-111 | reasons are exactly those that apply, velocity first: more than 10 earlier attempts in the minute, critical and blocking, and an amount above 10,000 dollars, high and not blocking; flags that cannot be stored change neither verdict nor reasons |
| Limiters.KnockTracks | src/transfer/transfer.service.ts:49-66 | behind the security check the risk window tracks exactly the attempts that check admitted |
| Limiters.RiskVelocityNeverBlocks | src/risk/risk.service.ts:62-72 | after every run, an attempt the security check lets through finds at most four others in the risk window, so the velocity rule never blocks |
| Limiters.MinuteQuotas | src/risk/risk.service.ts:62-72 | alone, the risk rule admits at most 11 and the security check at most 5 attempts in any minute open at its start |
| Limiters.TransferGate.AdmitTransfer | src/transfer/transfer.service.ts:49-66 | the two checks in a row: who is refused and why, that only the sender's windows change, and that the risk rules never refuse while the windows track the history |
| Rounding.Nearest | src/exchange/exchange.service.ts:81-82 | a nearest integer, ties away from zero |
| Rounding.NearestIsDetermined | src/exchange/exchange.service.ts:81-82 | that contract has exactly one solution |
| Rounding.SixPlaces | src/exchange/exchange.service.ts:81-82 | the nearest multiple of a millionth, a tie going away from zero |
| Rounding.FourPlaces | src/exchange/exchange.service.ts:102-104 | the nearest multiple of a ten-thousandth, a tie going away from zero |
| Exchange.ConvertedIff | src/exchange/exchange.service.ts:89-98 | a conversion is answered if and only if the amount is positive, both codes are non-empty, and they are equal or both have a non-zero rate |
| Exchange.RefusalOf | src/exchange/exchange.service.ts:54-98 | which refusal is given, by the first of the tests in order that fails |
| Exchange.AnswersAreRounded | src/exchange/exchange.service.ts:80-104 | the quoted rate is T/F rounded to six decimals, or 1 for equal codes, and the converted amount is the amount times that quote rounded to four, ties away from zero |
| Exchange.ConversionError | src/exchange/exchange.service.ts:80-104 | the converted amount is within a*5e-7 + 5e-5 of a*T/F |
| Exchange.RoundTripIff | src/exchange/exchange.service.ts:89-104 | converting back is possible exactly when amount times quoted rate is at least 5e-5 |
| Exchange.RoundTripError | src/exchange/exchange.service.ts:80-104 | converting there and back returns the amount up to the first error a*5e-7 + 5e-5, carried back at F/T, plus the error of the second conversion |
| Exchange.ConversionIsMonotone | src/exchange/exchange.service.ts:102-104 | a larger amount never converts to less |
| Exchange.BaseDoesNotMatter | src/exchange/exchange.service.ts:80-82 | scaling the whole rate table changes no answer and no refusal |
| Exchange.ExchangeService.GetLatestRates | src/exchange/exchange.service.ts:119-184 | a table that came from the cache or went into it is what the next readable call is served; the source says which of cache, provider and fallback answered, and no other base is touched |
| Exchange.CachedTableStays | src/exchange/exchange.service.ts:127-142 | a cached table stays through any series of readable calls |
| Exchange.OneTableIsServed | src/exchange/exchange.service.ts:119-184 | while Redis works and nothing expires, all calls from the first that is not answered with the fallback on use one table |
| Exchange.ExchangeService.QuoteRate | src/exchange/exchange.service.ts:46-85 | the answer of the table served, with its source and its effect on the cache; empty or equal codes never consult it |
| Exchange.ExchangeService.ConvertAmount | src/exchange/exchange.service.ts:90-114 | the conversion over the table served, with its source and its effect on the cache; a non-positive amount never consults it |
| Drift.StoredCredit | prisma/schema.prisma:107-108 | crediting a stored balance rounds the amount up at a tie |
| Drift.StoredDebit | prisma/schema.prisma:107-108 | debiting one rounds it down at a tie |
| Drift.TransferDrift | src/transfer/transfer.service.ts:147-169 | one transfer changes the tenant total by nothing, or by exactly one cent if the amount is an odd number of half-cents |
| Drift.StoredRowsBalance | src/transfer/transfer.service.ts:171-220 | whatever the amount, the ledger rows as stored sum to zero |
| Drift.SenderDrift | src/transfer/transfer.service.ts:148-197 | each account's stored balance moves with its ledger rows, also where the three accounts coincide, except that the sender keeps the cent of a tie |
| Drift.RunDrift | src/transfer/transfer.service.ts:147-169 | n transfers drift by exactly the number of ties, at most n cents, and the total is conserved if and only if there was none |
| Drift.HalfCentMakesACent | src/transfer/transfer.service.ts:147-169 | half a cent sent by anyone who has a cent is accepted and makes the total grow by one |
| Drift.WholeCentsAreExact | src/transfer/transfer.service.ts:147-169 | on whole cents the columns are exact |

## Left out

- TransferService.Service.ExecuteTransfer: has no arbitrary system fault (the `SystemError` branch); faults and aborts at any statement are steps of the machine in `Concurrency.dfy`. It starts after the limiters, which are `Limiters.TransferGate.AdmitTransfer`.
- Idempotency.ExactlyOnce: is about runs of harmless steps; `Idempotency.NeverCanClashIff` shows that condition to be exact, and `IdempotencyRuns.dfy` has double commits without it.
- OutboxProtocol.EveryEventHasOnePlace: is about moments at rest and runs that meet the condition `OutboxProtocol.AtMostOnceIff` shows to be exact; delivery by the queue's workers is outside.
- Limiters.RiskVelocityNeverBlocks: assumes one timestamp for both limiters and a Redis that answers; the database fallback count of the risk service is not modelled.
- Exchange.ConversionError: codes are taken as already trimmed and in upper case, and rates as exact reals.
- The find-or-create race between transactions that both see no revenue account: it is in the model, and each opens its own account; that the code then has several is not prevented.
- Locks that PostgreSQL takes on its own (row locks of updates, foreign-key share locks); all rows updated are locked explicitly first.
- Currency, exchange-rate and fee columns of ledger rows, descriptions, timestamps and the account version counter, which no check reads.
- Requests that are not POST or carry no idempotency key.
- A Redis that returns no result for a pipeline, and random suffixes of sorted-set members.
- Webhook delivery and signing, FX fetching and its response formats, cache expiry of rates, authentication, DTO validation, audit log, risk flag queries, pagination, metrics, health checks and deployment.
- Database faults inside the outbox error handler, and several processors polling at once.
