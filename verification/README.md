# Wanpey core: verified model of the payment aggregator

This project models the part of the platform where several writers share one database: merchant
requests, provider callbacks, the expiry sweep and the outbox workers; and the in-memory cache with the
idempotency middleware that runs on it. Provider calls appear only as arbitrary outcomes, failures as
arbitrary faults at any write, and time as whole seconds (disbursement days as day numbers).

| File | Content |
|---|---|
| `Entities.dfy`, `Sums.dfy`, `Fees.dfy` | rows and their predicates; SQL sums; layered fees |
| `Store.dfy` | the tables as a value, the queries, each transaction as a function with its failing constraints |
| `Database.dfy` | the same transactions as step by step writes of a class, with rollback, proved equal to `Store` |
| `Trail.dfy`, `Platform.dfy` | what audits, ledger and outbox record; the step machine of all requests |
| `PaymentClaims.dfy`, `PaymentTheorems.dfy` | invariants over every run, and the claims about payments |
| `Requests.dfy`, `Effects.dfy`, `Provenance.dfy` | what starts a request and what it holds; what each write does to the rows, column by column; every row traced back to the action that asked for it |
| `DisbursementClaims.dfy`, `DisbursementTheorems.dfy`, `Irregular.dfy` | invariants and claims about money; runs in which an irregular write breaks a claim |
| `Outbox.dfy`, `OutboxWorker.dfy` | rows under any number of workers; claiming, delivery and batches on slots |
| `Cache.dfy`, `Idempotency.dfy` | the TTL map against a plain map; claim, replay and release of request keys |

A run is any finite sequence of steps, in any order; every theorem about runs is therefore about every
reachable state under every interleaving and every failure. `HandleWebhook` is split into its unlocked
read and its transaction, `CancelPayment` into read, first and last transaction, `Disburse` into balance
read, reservation and answer, the disbursement callback into read and transaction. A request may die
between any two of its steps.

What the proofs found, where the code and what is said about it part ways (the model follows the code). Each
claim that fails has a run that shows it; for the writes that break it, the stored state that decides is proved
in both directions:

- A final payment is described as immutable (`README.md:156` of the repository), but a cancel that read the
  payment while it was pending overwrites a paid row (`StaleCancelErasesPaid`). A final status is kept exactly
  while no cancel transaction commits on it other than one that confirms a cancelled payment (`FinalKeptIff` for
  a step, `FinalMeansFinal` for a continuation). Paid and credited agree exactly for payments whose paid row no
  cancel overwrote (`PaidIffCredited`); the others are never paid again (`ErasedNeverPaid`).
- The marking step of a cancel is described as preventing double-cancel races (`README.md:480`), but two cancels
  that both read a pending payment both pass it, and the second can reopen the cancelled payment
  (`SecondCancelReopens`). The second mark finds a stored status other than pending: marks that found it pending,
  and webhooks that do not make it pending, leave at most one cancel at work (`GuardAdmitsOneCancel`).
- Three fee layers that each fit the amount can exceed it together (`LayersCanExceedAmount`). The ledger then rolls
  every delivery of the paid webhook back: a paid webhook on an open payment goes through exactly when the fee
  lies within the amount and no earlier credit was erased (`PaidWebhookCommitsIffFeeCovered`).
- A disbursement callback does not look at the stored status. It parts debit and status exactly when it takes a
  completed row elsewhere (`DebitKeptIff`, `OverlappedCallbacksFailDebited`); it raises the non-failed gross of the
  merchant and of the day exactly when it gives a failed row another status, and takes room from the balance
  exactly when it gives a settled row a status other than failed (`CallbackKeepsBounds`,
  `RevivedDisbursementOverspends`). `Conservation`, `OverdraftBound`, `DailyLimit` and `DebitExactness` hold for every
  run and merchant with these writes accounted for.
- A payout that its provider completes at once is never debited, because only the callback writes the debit
  (`SyncCompletionOverspends`, `DebitExactness`). Balance and pending total are two reads, and a callback that commits
  between them is seen by neither (`SplitReadsOverspend`). Either way it is an accepted reservation that overspends:
  the reserved gross stays covered exactly when the debits between its reads are made up by what its check left over
  and the credits between them, and the credits still cover the non-failed gross exactly when the same holds with
  what was completed without a debit added to the debits, and fees and the debits of rows changed later added to the
  other side (`ReservationKeepsBounds`). `Conservation` bounds what a whole run can lose.
- Another request reaches a row that still awaits its provider exactly through a callback with an empty external
  id (`EmptyIdAdmitsCallback`, `EmptyIdIsOverwritten`).
- The five seconds of a mark start before the post: a receiver that answers later than that is posted to without
  end, even if it answers with success (`SlowReceiverIsPostedForever`). While deliveries keep to their leases and the
  database is up, posts exceed the attempts exactly by those late answers and by crashes (`RetryBounds`).
- The worker's claim predicate ignores `failed_at`. It differs from the lease query exactly after a stored retry mark
  on an undelivered row that has failed for good (`ClaimFilterEquivalence`, `LateMarkRevivesFailedRow`); such a mark
  takes some delivery that outlives its lease (`PromptFiltersAgree`).
- A batch of ten on five slots fits the lease when two deliveries take less than 60 s, and workers that keep to such
  batches never deliver one row at once (`BatchFitsLease`, `ScheduledWorkersExclude`); at exactly 60 s a row is
  claimable again (`LeaseExclusion`).
- A handler that runs longer than the 30 s guard, or a response that cannot be stored, admits a second successful
  run of the same key (`OverrunSucceedsTwice`, `LostRecordRunsAgain`).

## Model

| member | source | states |
|---|---|---|
| PaymentTheorems.SingleCredit | internal/usecase/impl/payment.go:290-393 | in every run a payment has at most one credit, exactly as many as its webhook audits to paid, made out for its own merchant and amount with a fee within it, even when a stale cancel replaced the status |
| PaymentTheorems.AuditReplay | internal/usecase/impl/payment.go:207-349 | in every run folding a payment's audits gives its stored status and every webhook and expiry row starts at the status before it; without an overlapped cancel every row does |
| PaymentTheorems.AuditsChainIff | internal/usecase/impl/payment.go:219-287 | in every run all audit rows of a payment chain if and only if every committed cancel mark found it pending and every committed cancel finish found it cancelling |
| PaymentTheorems.PaidIffCredited | internal/usecase/impl/payment.go:207-365 | "paid iff one credit" holds if and only if no cancel overwrote the paid row; without an overlapped cancel nothing did, and the paid and cancelled times fit the status |
| PaymentTheorems.WebhooksAndSweepsRespectFinal | internal/usecase/impl/payment.go:304-322 | in every run no step but a cancel transaction changes a final row, however old the webhook's first read |
| PaymentTheorems.FinalMeansFinal | internal/domain/entity/payment.go:90-101 | a final payment keeps its status through every state of a continuation if and only if no cancel transaction in it overwrites the status |
| PaymentTheorems.FinalKeptIff | internal/usecase/impl/payment.go:223-287 | in any reachable state a step changes a final status if and only if it commits a cancel transaction that does not confirm a cancelled payment; without a committing cancel the whole row stays |
| PaymentTheorems.FinalWithoutOverlap | internal/usecase/impl/payment.go:207-287 | the whole row of a final payment stays through any continuation in which no cancel of it overlaps another writer |
| PaymentTheorems.OneCancelAtWork | internal/usecase/impl/payment.go:207-235 | two requests between the two transactions of a cancel of one payment imply an overlapping write |
| PaymentTheorems.GuardAdmitsOneCancel | internal/usecase/impl/payment.go:223-237 | if every committed mark found the stored status pending and no webhook made it pending, at most one cancel is at work and the stored status is then not pending |
| PaymentTheorems.SecondCancelReopens | internal/usecase/impl/payment.go:219-288 | a run in which the second of two cancels turns a cancelled payment back to pending |
| PaymentTheorems.StaleCancelErasesPaid | internal/infrastructure/database/postgres/gen/payment.sql.go:261-271 | a run that ends with a credited payment in status cancelled |
| PaymentTheorems.WebhookTablesMatch | internal/usecase/impl/payment.go:313-392 | committed webhooks are listed one for one and in order by the audits, by the ledger (those to paid) and by the outbox (those with a callback URL), and the announced nets plus those without URL are the merchant's credited nets |
| PaymentTheorems.PaidWebhookCommitsIffFeeCovered | migrations/000002_schema.up.sql:155-163 | the transaction of a paid webhook on an open payment credits it if and only if the fee lies within the amount and no earlier credit of it was erased by a cancel; otherwise the database is unchanged |
| PaymentTheorems.ErasedNeverPaid | internal/usecase/impl/payment.go:341-365 | a payment whose paid row a cancel overwrote is never paid again and keeps its one credit, in every continuation |
| PaymentTheorems.LayersCanExceedAmount | internal/usecase/impl/fee_resolver.go:43-83 | sane fee layers, each within the amount, whose total exceeds it |
| PaymentClaims.RunKeepsTables | internal/usecase/impl/payment.go:182-393 | every reachable state keeps: copies held by requests agree with their rows on fixed columns, audits, ledger, outbox and webhook commits agree, nets agree |
| PaymentClaims.RunKeepsOrderly | internal/usecase/impl/payment.go:207-288 | for every payment without an overlapped cancel: paid iff credited, all audits chained, and every request holds what the row still says |
| PaymentClaims.RunKeepsCredits | internal/usecase/impl/payment.go:341-365 | for every payment in every run: credited iff paid or erased by a cancel, and an erased one is never paid again |
| Store.SweepIsSetUpdate | internal/infrastructure/worker/expiry_worker.go:43-57 | the sweep gives status expired to exactly the rows that were pending with an expiry before now, and changes nothing else |
| Store.BalanceIsInMinusOut | internal/infrastructure/database/postgres/gen/mutation.sql.go:24-34 | the balance query is credited nets minus debits |
| Requests.CancelStartsIff | internal/usecase/impl/payment.go:207-217 | in every run a cancel starts if and only if the payment exists, belongs to the asking merchant and is pending |
| Requests.WebhookStartsIff | internal/usecase/impl/payment.go:300-306 | in every run a webhook goes on to its transaction if and only if the payment exists and is pending or cancelling |
| Requests.CallbackStartsIff | internal/usecase/impl/disbursement.go:261-267 | in every run a callback goes on if and only if the disbursement has its provider and external id and is pending or processing |
| Requests.ReservationStartsIff | internal/usecase/impl/disbursement.go:101-104 | in every run a reservation starts if and only if no other of its merchant is under way, as the lock on the merchant's row provides |
| Requests.ReadsAnswer | internal/usecase/impl/payment.go:207-217 | which of its answers each first read gives: missing (also for another merchant), settled or not cancellable, or a copy of the row |
| Requests.RequestsHold | internal/usecase/impl/payment.go:300-372 | in every run every request holds what the action that started it asked and what that action read; the callback URL is the payment's own if it has one, otherwise the merchant's |
| Requests.CancelsAreTheMerchants | internal/usecase/impl/payment.go:208-217 | in every run every cancel transaction on a payment, committed or not, comes from a cancel that the payment's own merchant asked for while it was pending |
| Effects.CreateEffect | internal/usecase/impl/payment.go:182-194 | the payment row and its audit row, column by column, if the amount is positive and nothing fails; otherwise nothing |
| Effects.WebhookEffect | internal/usecase/impl/payment.go:308-392 | exactly when the transaction goes through, and then status, times, audit row, credit and notice, column by column; otherwise nothing |
| Effects.CancelMarkEffect | internal/usecase/impl/payment.go:223-237 | the columns of the stale copy with status cancelling and the audit row, whatever is stored |
| Effects.CancelFinishEffect | internal/usecase/impl/payment.go:251-287 | cancelled with the time, or pending without one, with the audit row, whatever is stored |
| Effects.SweepEffect | internal/infrastructure/worker/expiry_worker.go:43-57 | after a sweep that succeeds no payment is pending past its expiry; exactly those expired, and every other row is unchanged |
| Effects.SweepAudits | internal/infrastructure/worker/expiry_worker.go:52-57 | the sweep appends one audit row from pending to expired for each payment it expires, and no other |
| Effects.QueriesFromRows | internal/infrastructure/database/postgres/gen/disbursement.sql.go:207-230 | the pending sum, the sum of the day and the balance are the sums over exactly the rows they are meant for |
| Effects.ReserveEffect | internal/usecase/impl/disbursement.go:101-147 | exactly when a reservation is accepted, and then the row it appends, column by column; otherwise nothing |
| Effects.AnswerEffect | internal/usecase/impl/disbursement.go:160-178 | a provider error stores failed, an answer its id and status unless another row of the provider has the id; nothing else changes |
| Effects.CallbackEffect | internal/usecase/impl/disbursement.go:277-322 | exactly when the transaction goes through, whatever status is stored, and then id, status, debit and notice, column by column; otherwise nothing |
| Provenance.PaymentsAsCreated | internal/usecase/impl/payment.go:182-194 | in every run every payment has the merchant, amount, expiry and callback URL of the action that created it |
| Provenance.DisbursementsAsAsked | internal/usecase/impl/disbursement.go:131-146 | in every run every disbursement has the merchant, provider, amount, fee and day that a reservation asked for |
| Provenance.ReservationStoresWhatWasAsked | internal/usecase/impl/disbursement.go:101-147 | in every run a reservation's transaction leaves the disbursements alone or appends exactly the row asked for by the action that started its request, and it appends it exactly when the balance read, the limit, amount, fee and writes allow it, with the sums taken over the rows |
| Provenance.LedgerTells | internal/usecase/impl/disbursement.go:281-296 | in every run every ledger row is a credit of its payment's amount with a fee within it, or a debit of its disbursement's amount plus fee without one |
| Provenance.DebitIsWhatWasAsked | internal/usecase/impl/disbursement.go:281-296 | in every run the debit of a disbursement is the amount plus the fee that its reservation asked for |
| Provenance.NoticesTell | internal/usecase/impl/payment.go:366-391 | in every run every notice has the merchant and amount of its row, a net of amount minus fee, a fee only if paid, a ledger row behind every paid or completed one, the URL of the payment before that of the merchant, and a webhook or callback that reported it |
| Provenance.PaidNoticeFee | internal/usecase/impl/payment.go:341-384 | the fee and net that a paid notice announces are those of the payment's one ledger entry |
| Provenance.IdsStayUnique | migrations/000002_schema.up.sql:131-132 | in every run no two disbursements of one provider share an external id |
| Database.Tables.EndTx | internal/infrastructure/database/db.go:62-87 | the state is kept if the body and the commit succeed, and otherwise is the state at begin |
| Database.Tables.SavePaymentWithAudit | internal/usecase/impl/payment.go:182-194 | payment and creation audit, or neither, under any fault |
| Database.Tables.WebhookTx | internal/usecase/impl/payment.go:308-392 | the step by step writes under any fault end in exactly the webhook transaction of the model or in the state before it; final rows are left alone |
| Database.Tables.CancelMarkTx | internal/usecase/impl/payment.go:223-237 | status write and audit of the first cancel transaction, all or nothing |
| Database.Tables.CancelFinishTx | internal/usecase/impl/payment.go:251-287 | cancelled with its time, or back to pending, with the matching audit, all or nothing |
| Database.Tables.ExpirePayments | internal/infrastructure/worker/expiry_worker.go:43-57 | row by row expiry with audits equals the one set update, or nothing on a fault |
| Database.Tables.ReserveTx | internal/usecase/impl/disbursement.go:101-147 | a pending row with the gross and fee is added if and only if the unreserved balance and the daily limit allow it, the schema accepts it and nothing fails |
| Database.Tables.StoreProviderAnswer | internal/usecase/impl/disbursement.go:160-178 | one write stores failure, or external id and status together, unless the id is taken |
| Database.Tables.CallbackTx | internal/usecase/impl/disbursement.go:277-322 | status, debit on completion and notice, all or nothing |
| DisbursementTheorems.Conservation | internal/usecase/impl/disbursement.go:101-147 | in every run, for every merchant, the non-failed gross, without disbursements brought back from failed since the last accepted reservation, is at most the credited net plus what that reservation did not see: debits between its two reads, and gross completed without a debit |
| DisbursementTheorems.OverdraftBound | internal/usecase/impl/disbursement.go:104-117 | in every run, for every merchant, balance minus reserved gross is at least minus what happened since the last accepted reservation: fees debited, debits slipped past its balance read, gross of settled rows debited or put in flight; the reserved gross is not negative |
| DisbursementTheorems.DebitExactness | internal/usecase/impl/disbursement.go:281-296 | in every run a disbursement has at most one debit, of its gross plus fee; "completed exactly when debited" holds if and only if it was neither completed without a debit nor given another status after it |
| DisbursementTheorems.DebitKeptIff | internal/usecase/impl/disbursement.go:277-296 | from any reachable state in which debit and status match, a step parts them if and only if a committed callback takes a completed row elsewhere, or a provider answer completes a row or takes a completed one elsewhere |
| DisbursementTheorems.CallbackKeepsBounds | internal/usecase/impl/disbursement.go:265-280 | in any reachable state a committed callback does not raise the non-failed gross of its merchant, or of its row's day, if and only if it does not give a failed row another status; it takes no room if and only if it does not give a settled row a status other than failed |
| DisbursementTheorems.AnswerKeepsBounds | internal/usecase/impl/disbursement.go:160-178 | the same of the provider's answer, which takes room if and only if it puts a settled row in flight |
| DisbursementTheorems.ReservationKeepsBounds | internal/usecase/impl/disbursement.go:101-147 | from any reachable state an accepted reservation leaves the reserved gross covered if and only if the debits between its reads are at most what its check left over plus the credits between its reads; it leaves the non-failed gross within the credited net if and only if the same holds with the gross completed undebited added to the debits, and the gross debited and then changed and all fees added to the other side |
| DisbursementTheorems.DailyLimit | internal/usecase/impl/disbursement.go:118-129 | in every run a day's non-failed gross is at most a positive limit plus that of the disbursements brought back from failed since the last accepted reservation that counted the day, so within the limit if there is none |
| DisbursementTheorems.InitiatorOwnsRow | internal/usecase/impl/disbursement.go:149-178 | while a request awaits its provider its row is as reserved and no callback or other request holds it |
| DisbursementTheorems.EmptyIdAdmitsCallback | internal/usecase/impl/disbursement.go:261-267 | in every run a callback read of a row that awaits its provider starts a callback if and only if its external id is empty, its provider the row's and the row unsettled; every callback holding the row holds an empty id |
| DisbursementTheorems.RefusedStaysFailed | internal/usecase/impl/disbursement.go:160-171 | a disbursement failed by a provider error never changes again |
| DisbursementTheorems.RunStaysRegular | internal/usecase/impl/disbursement.go:261-267 | with callbacks one at a time and with ids, reservations on one snapshot and no immediate completion, no row is completed without debit, debited and then changed, or brought back, and nothing slips |
| DisbursementTheorems.RegularRunsConserve | internal/usecase/impl/disbursement.go:101-296 | in such runs: non-failed gross within credited net, the overdraft bound by fees alone, balance at least the reserved gross without fees, debits are completed gross plus fees, completed iff debited |
| DisbursementClaims.RunKeepsDebits | internal/usecase/impl/disbursement.go:277-296 | in every run the ledger has exactly the debits that the history of status writes says, each on its row's own terms |
| DisbursementClaims.RunKeepsMoney | internal/infrastructure/database/postgres/gen/disbursement.sql.go:224-230 | the money invariant of every merchant in every run: debits are completed gross, less what was completed undebited, plus what was debited and then changed, plus fees; reserved gross is covered up to fees, slips and reopened rows |
| DisbursementClaims.RunKeepsLimit | internal/infrastructure/database/postgres/gen/disbursement.sql.go:207-214 | every day's gross, without disbursements brought back since the last accepted reservation that counted the day, stays within the limit through every step |
| DisbursementClaims.RunKeepsHandOff | internal/infrastructure/database/postgres/gen/disbursement.sql.go:240-250 | callbacks hold only rows with an id, awaiting requests only rows without one, each its own |
| Irregular.SyncCompletionOverspends | internal/usecase/impl/disbursement.go:174-178 | a run that spends a credit twice after an immediate completion |
| Irregular.SplitReadsOverspend | internal/usecase/impl/disbursement.go:105-117 | a run that spends a credit twice because a callback commits between the two reads |
| Irregular.OverlappedCallbacksFailDebited | internal/usecase/impl/disbursement.go:261-280 | a run that ends with a debited disbursement in status failed |
| Irregular.RevivedDisbursementOverspends | internal/usecase/impl/disbursement.go:261-280 | a run in which a stale completing callback brings a failed disbursement back after its gross was reserved again: credit spent twice, reserved gross uncovered and the day over its limit, with no slip, no missed debit and no fees |
| Irregular.EmptyIdIsOverwritten | internal/usecase/impl/disbursement.go:174-178 | a run in which the initiating request overwrites a completing callback with an empty id |
| Fees.FeeBounds | internal/usecase/impl/fee_resolver.go:43-134 | for sane fees each layer lies in 0..amount, the total is their sum, and layers and total grow with the amount |
| Fees.LayerBounds | internal/usecase/impl/helpers.go:54-65 | one layer lies in 0..amount and grows with the amount |
| Fees.LayerExact | internal/usecase/impl/helpers.go:54-65 | one layer is exactly the smaller of flat fee and amount, the integer part of the percentage share, or nothing |
| Fees.ResolutionExact | internal/usecase/impl/fee_resolver.go:43-167 | which fee makes each layer: the contract's if configured, otherwise the default's; the margin's while enabled; the surcharge's on a holiday; and exactly when resolution fails and nothing is charged |
| Outbox.NoLostEvent | internal/infrastructure/worker/outbox_worker.go:145-192 | after any crashes, lost or late marks a row is delivered, finally failed or becomes claimable at its next retry time; final failure means max_attempts recorded failures or a refused URL |
| Outbox.TakeEffect | internal/infrastructure/worker/outbox_worker.go:109-124 | a row is claimed exactly when undelivered, due and with attempts left, and is deferred by 60 seconds; nothing else changes |
| Outbox.InsertEffect | migrations/000001_outbox.up.sql:1-15 | a new row is due at once with no attempt made |
| Outbox.ResolveEffect | internal/infrastructure/worker/outbox_worker.go:145-192 | the columns that the mark of a delivery writes, case by case, and that a mark later than five seconds writes nothing |
| Outbox.LeaseExclusion | internal/infrastructure/worker/outbox_worker.go:108-124 | when deliveries end within their lease no row is with two workers, and a row in delivery is claimable if and only if its lease is over |
| Outbox.ClaimFilterEquivalence | internal/infrastructure/database/postgres/gen/outbox.sql.go:67-76 | in any run, prompt or not, the worker's claim predicate and the lease query agree on a row through every state of a continuation if and only if no stored retry mark in it revives a finally failed row |
| Outbox.FilterKeptIff | internal/infrastructure/worker/outbox_worker.go:109-121 | in any reachable state a step parts the two predicates on a row if and only if it is a stored retry mark of an allowed, undelivered, finally failed row |
| Outbox.PromptFiltersAgree | internal/infrastructure/database/postgres/gen/outbox.sql.go:67-76 | in prompt runs the two predicates select the same rows at any time |
| Outbox.SettledRowsStay | internal/infrastructure/database/postgres/gen/outbox.sql.go:163-222 | in any run a settled row stays as it is through every state of a continuation if and only if none of its steps is a claim of a revived row or a stored mark that says something new |
| Outbox.SettledKeptIff | internal/infrastructure/worker/outbox_worker.go:145-192 | in any reachable state a settled row stays settled, and a step changes it if and only if it is a claim of a revived row or a stored mark that says something new |
| Outbox.PromptSettledStay | internal/infrastructure/database/postgres/gen/outbox.sql.go:163-222 | in prompt runs a delivered or finally failed row never changes again |
| Outbox.RetryBounds | internal/infrastructure/worker/outbox_worker.go:179-192 | in prompt runs posts are the stored attempts plus those answered after the deadline, dropped by the database or lost with their worker, with none dropped while the database is up; giving up comes after 10(m-1)m(2m-1)/6 seconds of scheduled backoff |
| Outbox.FailedPostUsesAttempt | internal/infrastructure/worker/outbox_worker.go:179-192 | in prompt runs a failed post recorded in time leaves exactly one attempt less, and fails the row finally if and only if none is left |
| Outbox.BackoffClosedForm | internal/infrastructure/worker/outbox_worker.go:248-250 | the sum of the quadratic delays in closed form |
| Outbox.LateMarkRevivesFailedRow | internal/infrastructure/database/postgres/gen/outbox.sql.go:216-222 | a run in which the retry mark of a delivery begun after its lease makes a finally failed row claimable again |
| Outbox.SlowReceiverIsPostedForever | internal/infrastructure/worker/outbox_worker.go:153-171 | for every n, and every answer time from five seconds up to the lease, a run within all leases and with the database up that posts n times, is answered with success each time, and uses no attempt |
| OutboxWorker.OutboxTable.FetchAndClaim | internal/infrastructure/worker/outbox_worker.go:108-143 | at most ten distinct claimable rows are leased, none passed over for a later one, all of them if fewer than ten, the others unchanged |
| OutboxWorker.OutboxTable.Deliver | internal/infrastructure/worker/outbox_worker.go:145-192 | one row gets the mark that its URL, the answer and the attempt call for, if the mark is in time and stored; no other row changes |
| OutboxWorker.ProcessBatch | internal/infrastructure/worker/outbox_worker.go:80-102 | rows on one slot follow each other, row i starts within floor(i/slots) deliveries and ends one later, in order |
| OutboxWorker.AtMostSlotsRunning | internal/infrastructure/worker/outbox_worker.go:91-101 | at no time are more rows in delivery than slots |
| OutboxWorker.BatchFitsLease | internal/infrastructure/worker/outbox_worker.go:24-30 | ten rows on five slots end within two deliveries, inside the lease if these take less than it |
| OutboxWorker.ScheduledIsPrompt | internal/infrastructure/worker/outbox_worker.go:80-102 | a run of any number of workers that deliver their batches on the schedule of processBatch, two deliveries of which take less than the lease, keeps every delivery within its lease |
| OutboxWorker.ScheduledWorkersExclude | internal/infrastructure/worker/outbox_worker.go:80-143 | in such a run no row is in delivery by two workers |
| Cache.MemoryCache.Get | internal/infrastructure/cache/memory.go:74-92 | the live value if there is one; only an entry still expired at the second look is removed |
| Cache.MemoryCache.Set | internal/infrastructure/cache/memory.go:94-103 | stores unless the key is new and the map full; size within capacity |
| Cache.MemoryCache.SetNX | internal/infrastructure/cache/memory.go:105-118 | claims exactly a key without live entry in a map with room; size within capacity |
| Cache.MemoryCache.Del | internal/infrastructure/cache/memory.go:120-127 | removes exactly the given keys |
| Cache.MemoryCache.EvictExpired | internal/infrastructure/cache/memory.go:64-72 | keeps exactly the live entries |
| Cache.CacheRefinesPlainMap | internal/infrastructure/cache/memory.go:64-134 | after any schedule of operations, lazy deletes and evictions the live entries are those of an unbounded plain map, and the size is within capacity |
| Cache.RepliesAgree | internal/infrastructure/cache/memory.go:74-134 | every reply but a capacity error is the plain map's |
| Cache.CapacityErrorIff | internal/infrastructure/cache/memory.go:94-118 | a capacity error comes if and only if the map is full and Set's key is not held, or SetNX's key is not live |
| Cache.TimeToLiveExact | internal/infrastructure/cache/memory.go:17-19 | a stored value is found for exactly its time to live, and for ever if that is not positive |
| Cache.EvictionKeepsLive | internal/infrastructure/cache/memory.go:64-92 | a lazy delete or an eviction, at whatever moment, removes and changes no live entry |
| Idempotency.Begin | internal/delivery/http/middleware/idempotency.go:39-80 | how a request is met, as a function of the key's entry, and the guard it leaves |
| Idempotency.Complete | internal/delivery/http/middleware/idempotency.go:82-110 | the response recorded for 24 hours, or the key released after an error or a status from 500 |
| Idempotency.MeetExact | internal/delivery/http/middleware/idempotency.go:56-80 | each way a request is met, if and only if its key has a live guard, a live response, or nothing, with or without room and cache |
| Idempotency.ArriveEffect | internal/delivery/http/middleware/idempotency.go:54-58 | a guarded request leaves a guard of 30 seconds; any other leaves the cache alone |
| Idempotency.HandlerEndDecides | internal/delivery/http/middleware/idempotency.go:88-110 | in timely runs an error or a status from 500 releases the key and the next request runs; any other response is recorded and replayed for 24 hours |
| Idempotency.HandlerEndsUncached | internal/delivery/http/middleware/idempotency.go:88-108 | while the cache does not answer the end of a handler changes no entry |
| Idempotency.NoServerErrorReplayed | internal/delivery/http/middleware/idempotency.go:88-96 | in every run no status from 500 is recorded, counted as a success or replayed |
| Idempotency.CacheKeysDiffer | internal/delivery/http/middleware/idempotency.go:51 | keys of different merchants never collide |
| Idempotency.IdempotentReplay | internal/delivery/http/middleware/idempotency.go:36-113 | within 24 hours of a success every answered request of the key is exactly its replay, so no second run succeeds; every replay is of such a success |
| Idempotency.ArrivalTells | internal/delivery/http/middleware/idempotency.go:56-80 | 409 if and only if a handler of the key is running, replay if and only if in the window, otherwise the handler runs |
| Idempotency.TimelyRunsKeep | internal/delivery/http/middleware/idempotency.go:56-110 | in every timely run each key's entry is its response in the window, its guard while running, and nothing live otherwise |
| Idempotency.GuardLastsThirtySeconds | internal/delivery/http/middleware/idempotency.go:22-24 | a duplicate of a running request gets 409 if and only if at most 30 s passed since the claim; after that it runs, unguarded if the cache is full |
| Idempotency.OverrunSucceedsTwice | internal/delivery/http/middleware/idempotency.go:56-108 | every overrun of the guard can lead to two successes in one window |
| Idempotency.LostRecordRunsAgain | internal/delivery/http/middleware/idempotency.go:103-108 | after an unstored response a retry runs again if and only if the guard is over, unguarded if the cache is full |

## Left out

- Provider adapters, their status maps and signatures: only their outcomes appear, as arbitrary values.
- Circuit breaker, Redis cache, task queue, HTTP handlers, configuration, logging, tracing and seeding.
- Merchant, bank account and admin CRUD, pagination, masking, role checks, IP allowlist: single-branch claims.
- The checks of `Disburse` before its transaction (merchant active, account owned and verified, provider enabled): they only refuse.
- Float rounding of percentages: exact rationals with truncation take its place.
- 64-bit overflow of amounts and sums: amounts are unbounded integers.
- JSON, HMAC and database encodings: recorded responses and payloads are values.
- Columns that no claim reads: `fee_amount` and `failed_at` of payments, failure reasons, bank data, actors and audit metadata, last errors.
- Lookup of payments by provider and external id: these columns are unique and never change, so a step names the row.
- Transaction isolation below the level of the modelled steps: a transaction is one step, except the reservation, whose balance read is a step of its own; its pending and today reads and its insert are one step. A callback between them can move both sums either way; the money claims see the reservation at its pending read (where no limit is checked), the daily limit at its today read (where the balance does not matter), and the insert commutes with callbacks.
- A webhook's fee is an argument of its commit step, because the fee tables may change between any two steps; `Fees.ChargedFee` says what the resolver would answer.
- Database clock and time zones: arguments of the steps.
- RunInTx's panic path has the effect of its error path on the database and is not a step of its own.
- MarkOutboxFailed and LeaseOutboxEvents as operations: the worker does not call them; the lease query's predicate is compared.
- The ten seconds after which the HTTP client gives a post up: a delivery may take any time, since the signing key is read without a deadline.
- The order in which the claim statement returns its rows: the model returns them earliest first.
- A losing request's SetNX and Get are one lookup: an entry that expires between the two lets the request through.
- Requests without an idempotency key or merchant pass through `Begin` and are not part of the step machine.
- Removal of one expired entry after another in `evictExpired` runs under one lock and is one step of the machine.
- Database.Tables.ExpirePayments: a fault of the audit insert is the same fault as one of the update, because both are one statement.
