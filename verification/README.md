# The repayment service, modelled and proved

The service takes payment notifications from a bank at least once, in any order and possibly many at a
time, and credits each one to the customer's deployment exactly once. This project models that service in
Dafny and proves what it keeps.

How the model is laid out:

- `Money`, `Text`, `AmountText`, `RoundTrips`, `Deployments` - decimal amounts, how they are read and
  written, and the repayment arithmetic. An amount is an integer number of micro-units, the finest step of
  the `NUMERIC(24,6)` columns.
- `Ledger`, `LedgerLaws` - the `deployments` and `payments` tables with their constraints, the three
  statements that write them, and what every history of statements leaves behind.
- `ApplyProtocol` - any number of those statements in flight at once: stale probe, row lock, reference key,
  commit or rollback. Every interleaving is proved equal to the statements of `Ledger` in some order.
- `Notifications`, `Streams`, `Handling`, `HandlingLaws` - admission, the broker, and one call of `Accept`
  or one worker's handling of one message as the sequence of reads and writes it makes.
- `WholeSystem`, `SystemLaws`, `Retries` - any number of calls and handlers in flight over one database, one
  broker and two lossy caches, with lost replies, evictions, redeliveries, reclaims and restarts.
- `Witnesses` - histories of a fresh service in which the retry limit is exceeded and an accepted credit lost.
- `Storage`, `Repositories`, `Queues`, `Services`, `Workers` - the same code as classes whose methods update
  the tables, caches and stream in place, each proved to do exactly what the step machine does.
- `Outcomes` - what each kind of call comes to, case by case and in the fields of the tables, the caches and the
  stream.
- `QueueLaws`, `Refinement` - what the two consumer loops achieve, and that every sequence of method calls is
  one of the whole system's histories, so that every law of `SystemLaws` speaks about the methods too.

Where the code and its documentation part ways, the model follows the code:

- The project's README (line 155) promises that an identical notification sent again is a duplicate. It is,
  unless the money landed in a deployment of another currency: the stored row keeps the deployment's currency
  and the check compares the notification's. `HandlingLaws.IdenticalRetry` gives the exact condition,
  `HandlingLaws.CrossCurrencyRetryConflicts` the failing retry.
- The routing cache is described as safe because it holds immutable fields only. A cached route still pays
  into a deployment that has completed since, where the database would file the credit as unmatched:
  `HandlingLaws.CachedRouteAgreesIffOpen`.
- The first row under a reference wins. A settled notification that follows an ignored or unmatched one with
  the same reference moves nothing: `LedgerLaws.FirstRowWins`.
- `Parse` strips the currency code before reading the number, so a code that looks like the start of a number
  can take part of the amount with it: `RoundTrips.RoundTripsIffHarmless`, `AmountText.DigitCodeEatsTheAmount`.
- `MaxAttempts` bounds the hand-outs of a message exactly when every claim of it finds no handler on its last
  attempt still at work: `Retries.BoundHoldsIffClaimsWait`. A process has one reclaimer, which handles what it
  claims to the end before it claims again, so one process keeps a limit of two or more:
  `Retries.OneProcessKeepsTheBound`. Nothing makes its claim wait for another process's, nor for the worker that
  first read the message, which matters for a limit of one. Each further process can add one hand-out and no
  more: `Retries.ReclaimersBoundRetries`, `Witnesses.ClaimCanOverlapTheLastAttempt`.
- A message may be dead-lettered and applied, since a slow worker may still hold what the reclaimer retires.
  Only "acknowledged implies settled or dead-lettered" holds: `SystemLaws.AckedIsSettledOrDead`.
- The stream's length limit is the one way a credit can be lost: `SystemLaws.LostIffTrimmedUnsettled`,
  `SystemLaws.TrimCanDropACredit`, and a history in which it happens: `Witnesses.AcceptedCreditIsTrimmed`.

## Model

| member | source | states |
|---|---|---|
| ApplyProtocol.RunsKeepInv | src/internal/infrastructure/database/repositories/payment_repository.go:24-79 | in every interleaving of Apply, Record and Create statements, whatever is waiting, rolled back or aborted, the tables stay sound, locks and keys stay exclusive and what a statement read under a lock is still true |
| ApplyProtocol.MoneyIsConserved | src/internal/infrastructure/database/repositories/payment_repository.go:24-139 | in every reachable state each balance is the sum, and each count the number, of its committed applied rows, and no reference has two rows |
| ApplyProtocol.CommitIsAtomic | src/internal/infrastructure/database/repositories/payment_repository.go:24-79 | the commit of a statement that began in the past is the whole statement done at that instant |
| ApplyProtocol.EveryRunLinearizes | src/internal/infrastructure/database/repositories/payment_repository.go:102-139 | every interleaving leaves the tables, and tells every statement that did not fail, exactly what executing those statements one at a time in their order of ending would, each once |
| ApplyProtocol.OneWinnerPerReference | src/internal/infrastructure/database/repositories/payment_repository.go:126-134 | of all statements carrying one reference at most one ever commits a row |
| ApplyProtocol.SomeoneCanGo | src/internal/infrastructure/database/repositories/payment_repository.go:24-79 | while a statement is unfinished some statement is not waiting for another, registrations waiting on a deployment being advanced included |
| ApplyProtocol.NoDeadlock | src/internal/infrastructure/database/repositories/payment_repository.go:24-79 | no reachable state of any interleaving is a deadlock |
| ApplyProtocol.StatementsStayBounded | src/internal/infrastructure/database/repositories/payment_repository.go:24-79 | any schedule makes at most four productive steps a statement |
| ApplyProtocol.UndisturbedStatementsSucceed | src/internal/infrastructure/database/repositories/payment_repository.go:24-139 | however it interleaves, a statement nothing aborts fails only for an amount that is not positive, an outcome that is not filed or a deployment there is none of; a positive credit to an existing deployment ends with a row under its reference |
| ApplyProtocol.LoneCreditIsApplied | src/internal/infrastructure/database/repositories/payment_repository.go:24-79 | and if no other statement carries the reference, that row is the credit's own, applied to its deployment for its amount |
| ApplyProtocol.StaleProbeCollides | src/internal/infrastructure/database/repositories/payment_repository.go:126-134 | the race is there: two copies both probe before either writes, and the second is rolled back on the key; one row, one advance |
| ApplyProtocol.RegistrationWaits | src/internal/infrastructure/database/migrations/20260801000000_create_deployments.up.sql:40-45 | a registration is not answered while a credit to an open deployment of its customer is in flight |
| ApplyProtocol.EveryoneCanFinish | src/internal/infrastructure/database/repositories/payment_repository.go:24-79 | from every reachable state all statements can be brought to an end without aborting one, and each then unfinished has done what it is for |
| Ledger.SqlSplitIsSplitPayment | src/internal/infrastructure/database/repositories/payment_repository.go:46-53 | the split computed backwards from the updated row is the domain's split of the balance before the credit, on every input |
| Ledger.WhatStatementsAnswer | src/internal/infrastructure/database/repositories/payment_repository.go:102-198 | when Apply and Record write, when they find the reference taken or the deployment missing, and when the tables refuse them; without a write nothing changes |
| Ledger.CreatedAsAsked | src/internal/infrastructure/database/repositories/deployment_repository.go:29-56 | a stored deployment has the input's customer, currency, principal, term and start date, the clock as creation time, and nothing paid |
| Ledger.ApplyKeepsGood | src/internal/infrastructure/database/repositories/payment_repository.go:24-79 | applying keeps both tables sound, rewrites no row and ages no deployment backwards |
| Ledger.RecordKeepsGood | src/internal/infrastructure/database/repositories/payment_repository.go:161-198 | filing keeps both tables sound and moves no balance |
| Ledger.CreateKeepsGood | src/internal/infrastructure/database/migrations/20260801000000_create_deployments.up.sql:40-44 | registering keeps both tables sound, one open deployment a customer included |
| Ledger.ExecAllKeepsGood | src/internal/infrastructure/database/repositories/payment_repository.go:24-198 | any history of statements from a sound database ends in a sound database that extends it |
| Ledger.RowsAreForever | src/internal/infrastructure/database/migrations/20260801000100_create_payments.up.sql:1-46 | what a reference once returned it returns ever after |
| Ledger.LookupIsFirstInOrder | src/internal/infrastructure/database/repositories/deployment_repository.go:60-75 | the routing lookup returns a deployment of the customer that no other of the customer's sorts before, and finds one if there is one |
| Ledger.LookupIsMostRecent | src/internal/infrastructure/database/repositories/deployment_repository.go:58-75 | the lookup returns the customer's most recent open deployment, or the most recent of all if none is open |
| Ledger.LookupPrefersOpen | src/internal/infrastructure/database/repositories/deployment_repository.go:58-75 | the lookup returns an open deployment if and only if the customer has one |
| LedgerLaws.SplitsSum | src/internal/domain/deployment/entity.go:167-171 | over any prefix of any sound ledger the applied parts sum to min(paid, principal) and the excess parts to the rest |
| LedgerLaws.PositionFromLedger | src/internal/domain/deployment/entity.go:53-62 | after every history the balance, count, last payment date, outstanding, excess and completion of a deployment are re-derivable from the ledger alone |
| LedgerLaws.LastPaymentIsTheLatest | src/internal/infrastructure/database/repositories/payment_repository.go:29 | after every history the last payment date is the date of some applied row of the deployment and none of them is later, and it is absent if and only if there are none |
| LedgerLaws.OpenWhileOwing | src/internal/infrastructure/database/repositories/payment_repository.go:30-33 | after every history a deployment is open if and only if its balance is short of the principal |
| LedgerLaws.CreditMovesExactly | src/internal/infrastructure/database/repositories/payment_repository.go:46-68 | a credit lowers outstanding by exactly its applied part, raises excess by exactly its excess part, brackets the balance, and touches no other deployment |
| LedgerLaws.BalancesChain | src/internal/infrastructure/database/repositories/payment_repository.go:60-64 | in commit order a deployment's applied rows chain: first from zero, each from where the last ended, the last at the balance |
| LedgerLaws.IntervalsTile | src/internal/infrastructure/database/repositories/payment_repository.go:60-64 | every micro-unit in [0, amount_paid) lies in exactly one applied row's interval, and no interval reaches outside |
| LedgerLaws.Lifecycle | src/internal/infrastructure/database/repositories/payment_repository.go:26-39 | through every past and future: completed if and only if paid in full, never reopened, completed_at fixed once set, balance never falling, one open deployment a customer |
| LedgerLaws.CompletionIsStampedAtTheCrossing | src/internal/infrastructure/database/repositories/payment_repository.go:34-38 | the only statement that completes a deployment is the credit that crosses its principal, and its clock is completed_at |
| LedgerLaws.FirstRowWins | src/internal/infrastructure/database/repositories/payment_repository.go:40-43 | once a reference has a row of any outcome, after any further history, applying under it changes nothing |
| LedgerLaws.BatchEffect | src/internal/infrastructure/database/repositories/payment_repository.go:26-39 | the closed form of a batch of fresh credits: sum, count, latest date, status |
| LedgerLaws.LatestIsTheMaximum | src/internal/infrastructure/database/repositories/payment_repository.go:29 | the batch's latest date is attained and not exceeded |
| LedgerLaws.OrderDoesNotMatter | src/internal/infrastructure/database/repositories/payment_repository.go:26-39 | any two orders of the same credits, at any times, end in the same balance, count, last payment date and status |
| LedgerLaws.RowsRememberTheOrder | src/internal/infrastructure/database/repositories/payment_repository.go:60-64 | swapping two credits does change the balances their rows record, by the other's amount |
| Money.RoundDivNearest | src/pkg/money/money.go:122-130 | division rounds to the nearest integer and sends halves away from zero, for either sign |
| Money.RoundDivUnique | src/pkg/money/money.go:122-130 | for either sign that error bound determines the rounded value |
| Money.ProrateNearest | src/pkg/money/money.go:122-130 | a prorated amount is a whole number of minor units within half of one of amount x num / den, whatever the signs, and zero over a zero denominator |
| Deployments.WeeksElapsedCountsWeeks | src/internal/domain/deployment/entity.go:74-84 | within the term the count is k if and only if k weeks are complete and the next is not |
| Deployments.ExpectedWithinHalfUnit | src/internal/domain/deployment/entity.go:86-92 | the expectation is within half a minor unit of principal x weeks / term |
| Deployments.ExpectedMonotoneInTime | src/internal/domain/deployment/entity.go:86-92 | the expectation never falls as time passes |
| Deployments.ExpectedAtTheEnds | src/internal/domain/deployment/entity.go:86-92 | nothing is expected before the first week, and from the end of term exactly the principal, if and only if the principal is a whole number of minor units |
| Deployments.ExpectedBetweenZeroAndPrincipal | src/internal/domain/deployment/entity.go:86-92 | the expectation never leaves [0, principal] |
| Deployments.InstalmentDrift | src/internal/domain/deployment/entity.go:64-67 | w rounded instalments fall short of the rounded expectation after w weeks by at most w/2 minor units |
| Deployments.PunctualCustomerIsNeverBehind | src/internal/domain/deployment/entity.go:94-134 | a customer who has paid every instalment so far has arrears of at most half a minor unit a week, and is not classed behind while the instalment covers that |
| Deployments.InstalmentsCollectThePrincipal | src/internal/domain/deployment/entity.go:64-67 | a full term of instalments is within term/2 minor units of the principal |
| Deployments.NeverBothBehindAndAhead | src/internal/domain/deployment/entity.go:94-105 | arrears and ahead-by are never both positive |
| Deployments.PayingMoreNeverWorsens | src/internal/domain/deployment/entity.go:121-134 | at one instant a larger balance never has a worse schedule status |
| Deployments.WaitingNeverImproves | src/internal/domain/deployment/entity.go:121-134 | with the same payments the status never improves with time |
| Deployments.OpenUnlessClosed | src/internal/domain/deployment/entity.go:48-51 | open means neither completed nor written off |
| Deployments.ArrearsAndAheadBy | src/internal/domain/deployment/entity.go:94-110 | arrears are positive exactly for an open deployment whose balance is short of the expectation, and make up the difference; ahead-by likewise above it, counting no more than the principal |
| Deployments.WhenEachStatusIsReported | src/internal/domain/deployment/entity.go:121-134 | the four statuses by balance, expectation and one instalment's tolerance, each if and only if |
| AmountText.LookupReadsBack | src/pkg/money/money.go:51-57 | a stored currency code reads back as the currency it was stored from |
| AmountText.UnknownCodesHaveTwoDecimals | src/pkg/money/money.go:50-57 | a code outside the table is its own currency, of two decimals |
| AmountText.AcceptedAmountsAreExact | src/pkg/money/money.go:63-89 | whatever Parse accepts is a whole number of the currency's minor units and fits NUMERIC(24,6) |
| AmountText.RefusalsAreRight | src/pkg/money/money.go:75-88 | a readable number is too large if and only if its whole part has more than eighteen digits, else too precise if and only if it has more places than the currency, else accepted at its value |
| AmountText.NonNumbersAreRejected | src/pkg/money/money.go:75-78 | a text with any character that is not a digit, sign, point or exponent mark is no number |
| AmountText.TwoPointsAreRejected | src/pkg/money/money.go:75-78 | nor one with two points, nor an empty one, nor a lone sign |
| AmountText.ExponentShifts | src/pkg/money/money.go:75-78 | an exponent part scales the number before it by that power of ten |
| AmountText.PlusSaysNothing | src/pkg/money/money.go:75-78 | a leading plus sign reads as none |
| Text.TrimStripsBlanks | src/pkg/money/money.go:64 | trimming takes the blanks off both ends and nothing else |
| AmountText.FixedReadsBack | src/pkg/money/money.go:104-108 | the decimal reader undoes the fixed-point writer, digit for digit, at every scale |
| AmountText.FormatRoundsToNearest | src/pkg/money/money.go:104-108 | what is written reads as the amount to the nearest minor unit, halves away from zero, exact or not |
| AmountText.ParseUndoesFormat | src/pkg/money/money.go:61-108 | what Format writes Parse reads back, under any label (code, symbol, both, neither), commas and spaces anywhere and blanks around, for a currency whose labels do not look like numbers |
| AmountText.FormatIsCanonical | src/pkg/money/money.go:61-108 | re-writing a parsed amount and parsing it again gives the same amount |
| AmountText.LookedUpCurrenciesArePlain | src/pkg/money/money.go:37-57 | every programme currency, and every unknown code not starting like a number, meets that condition |
| AmountText.DigitCodeEatsTheAmount | src/pkg/money/money.go:67 | a concrete failure: under a ticker named 1, ten units read back as none |
| RoundTrips.RoundTripsIffHarmless | src/pkg/money/money.go:63-108 | for every amount in the column, Parse reads back what Format wrote if and only if the code is empty, or not a prefix of the text, or only strips a zero that does not count |
| Notifications.ValidatedIsProper | src/internal/domain/payment/entity.go:128-183 | a validated notification is trimmed, within its length limits, positive, exact at its currency, inside the column and in normal-form status |
| Notifications.ValidatedIsThePayload | src/internal/domain/payment/entity.go:128-183 | what gets in is what was written: trimmed fields, normal-form status, the amount as read at the named currency, or at the default when none is named |
| Notifications.RefusalNamesTheFields | src/internal/domain/payment/entity.go:128-170 | a refusal names each field if and only if it is wrong |
| Notifications.SettledStatuses | src/internal/domain/payment/entity.go:77-89 | funds have settled under exactly four statuses, in any case and padding |
| Notifications.ValidateUndoesRendering | src/internal/domain/payment/entity.go:128-183 | every proper notification, written out as a payload, is accepted unchanged if and only if its currency code does not spoil its amount |
| Notifications.AdmittedPassesTheSchema | src/internal/domain/deployment/service.go:40-74 | an admitted registration meets the schema's checks, so the insert is refused exactly when the customer already has an open deployment |
| Notifications.AdmittedAsAsked | src/internal/domain/deployment/service.go:40-66 | a registration's own currency, principal, term and start date are used, the default exactly where one is left out, the date cut to the day; and which refusal comes when |
| Handling.StepsDescend | src/internal/domain/payment/service.go:66-178 | every step of every call takes it closer to its end |
| Handling.StepKeepsGood | src/internal/domain/payment/service.go:66-178 | every step of every call, under every fault, keeps tables, caches and stream in agreement and takes nothing recorded back |
| Handling.WinningStoresTheRow | src/internal/domain/payment/service.go:114-178 | a call comes to a non-duplicate outcome only at a step before which its reference had no row and after which it has one |
| HandlingLaws.AloneKeepsGood | src/internal/domain/payment/service.go:66-178 | so does a whole undisturbed call |
| HandlingLaws.SettledReferencesReplay | src/internal/domain/payment/service.go:114-199 | once a reference has a row, Process from any point moves nothing, and barring infrastructure errors its answer is decided by the row and the notification's customer, amount and currency alone |
| HandlingLaws.SettledMeansSameThreeFields | src/internal/domain/payment/service.go:181-199 | with a row stored and no infrastructure error Process answers a duplicate if and only if customer, amount and currency code are the row's, else a conflict |
| HandlingLaws.CachedMeansSameThreeFields | src/internal/domain/payment/service.go:70-81 | so does Accept for a cached reference, queue or no queue, touching nothing |
| HandlingLaws.CachedAnswerIsTheDatabaseAnswer | src/internal/domain/payment/service.go:70-81 | with no queue and no infrastructure error the cached answer is the answer the database gives, for every notification with the reference |
| HandlingLaws.IdenticalRetry | src/internal/domain/payment/service.go:181-199 | a retry identical to the notification a row came from is a duplicate if and only if the row was filed, or applied to a deployment in the notification's currency; else it is a conflict |
| HandlingLaws.CrossCurrencyRetryConflicts | src/internal/infrastructure/database/repositories/payment_repository.go:60 | the failing family: any credit applied to a deployment in another currency conflicts with its own retry |
| HandlingLaws.CachedRouteAgreesIffOpen | src/internal/domain/deployment/service.go:85-100 | a cached route and the database send a fresh settled credit the same way if and only if the cached deployment is still open |
| HandlingLaws.ClosedDeploymentTakesOnlyExcess | src/internal/infrastructure/database/repositories/payment_repository.go:46-66 | a credit into a completed deployment is excess to the last micro-unit |
| HandlingLaws.HealthyDeliveryRetires | src/internal/infrastructure/queue/worker.go:148-206 | one delivery without faults ends acknowledged, and settled by a row or on the dead stream |
| Outcomes.SettledIsApplied | src/internal/domain/payment/service.go:114-158 | a fresh settled credit adds one row for its amount to its customer's open deployment, advances that balance and no other, answers that row and fills both caches |
| Outcomes.UnsettledIsFiled | src/internal/domain/payment/service.go:132-135 | one that has not settled is filed as ignored against that deployment and moves nothing |
| Outcomes.UnroutableIsFiled | src/internal/domain/payment/service.go:119-129 | one whose customer has no open deployment is filed as unmatched, whatever its status |
| Outcomes.LookupFailureIsPassedOn | src/internal/domain/payment/service.go:119-130 | a failed lookup is passed on as an infrastructure error and files nothing |
| Outcomes.FailedWriteIsPassedOn | src/internal/domain/payment/service.go:137-140 | so is a failed write; one that did not arrive changed nothing |
| Outcomes.ReplayReadsBack | src/internal/infrastructure/database/repositories/payment_repository.go:142-158 | the loser's read-back writes nothing: a failed read is passed on, a missing row or deployment is not-found |
| Outcomes.ErrorsAreClassified | src/internal/domain/payment/service.go:203-213 | routing failures are exactly not-found and no-open-deployment; every domain error and no other is permanent |
| Outcomes.QueuedIsEchoed | src/internal/domain/payment/service.go:87-109 | with a queue an uncached credit is appended to the stream and echoed, and tables and caches are left alone |
| Outcomes.RefusedIsProcessedInline | src/internal/domain/payment/service.go:83-94 | without a queue, or with one that refuses, it is processed inline; only the stream may hold it already |
| Outcomes.HandledByItsAnswer | src/internal/infrastructure/queue/worker.go:148-206 | a worker sets an undecodable message aside unprocessed; acknowledges and does not set aside after a result; sets aside after a rejection or on the last failed attempt; leaves it alone after an earlier one |
| Outcomes.OnlyFailuresAreDeadLettered | src/internal/infrastructure/queue/worker.go:148-206 | only an undecodable, rejected or exhausted message ever joins the dead stream |
| Outcomes.FailedTurnsHandleNothing | src/internal/infrastructure/queue/worker.go:122-138 | a turn whose read or claim failed handles nothing, and a failed claim keeps the cursor |
| WholeSystem.NextKeepsGood | src/internal/infrastructure/queue/worker.go:106-295 | every event of the service - arrival, step, hand-out, reclaim, registration, stale cache fill, eviction, restart - keeps the whole system's invariant |
| WholeSystem.RunsKeepGood | src/internal/infrastructure/queue/worker.go:106-295 | and so does every finite sequence of events |
| SystemLaws.MoneyMovesOnce | src/internal/domain/payment/service.go:66-178 | over every sequence of events the money moved under a reference is zero, or exactly the amount of one accepted notification with that reference, on a deployment of its customer |
| SystemLaws.OneCallWins | src/internal/domain/payment/service.go:114-178 | of all calls carrying one reference at most one comes to anything but a duplicate |
| SystemLaws.BooksBalance | src/internal/infrastructure/database/repositories/payment_repository.go:24-79 | all balances together are all applied amounts together |
| SystemLaws.RoutingIsSound | src/internal/domain/deployment/service.go:40-101 | under stale fills and evictions a cached route is its customer's and agrees with its deployment, every applied row's customer owns the deployment, nobody has two open ones |
| SystemLaws.CachedResultsAreLedgerRows | src/internal/domain/payment/service.go:153-155 | every cached result is the ledger row of its reference, figure for figure |
| SystemLaws.LaterCallsReplay | src/internal/domain/payment/service.go:114-199 | once a reference has a row no later call, however interleaved, changes it or is told anything but that row or a conflict |
| SystemLaws.AcceptedAreProper | src/internal/domain/payment/service.go:66-70 | only validated notifications ever get behind the webhook |
| SystemLaws.NoCreditIsLost | src/internal/infrastructure/queue/worker.go:106-295 | while at most MaxLen entries exist from the oldest unacknowledged one on, every entry is undelivered, redeliverable, dead-lettered or settled |
| SystemLaws.LostIffTrimmedUnsettled | src/internal/infrastructure/queue/queue.go:76-81 | with no hypothesis at all: an unsettled entry is out of reach if and only if the trim removed it |
| SystemLaws.TrimCanDropACredit | src/internal/infrastructure/queue/queue.go:76-81 | any enqueue whose trim, approximate or not, reaches past an undelivered unsettled entry leaves that entry out of everyone's reach |
| Witnesses.AcceptedCreditIsTrimmed | src/internal/infrastructure/queue/queue.go:67-97 | from a fresh service with its group created, a credit the webhook said yes to is trimmed away undelivered and unsettled after MaxLen later ones, for every MaxLen and with no reply lost |
| SystemLaws.SuccessIsBacked | src/internal/domain/payment/service.go:66-97 | whatever a provider was told succeeded has a ledger row or a stream entry |
| SystemLaws.AckedIsSettledOrDead | src/internal/infrastructure/queue/worker.go:264-295 | an acknowledged message has a row for its reference or is on the dead stream |
| SystemLaws.CrashedCallsStayPut | src/internal/infrastructure/queue/worker.go:78-84 | a call in flight when the process stops never moves again |
| Retries.RetriesAreBounded | src/internal/infrastructure/queue/worker.go:148-263 | without crashes and with broker replies arriving, a message is handed out at most MaxAttempts - 1 + h times, h the most handlers past its first MaxAttempts - 1 hand-outs at work on it at once; a handler that reads the count after an acknowledgement, and is told one, included |
| Retries.BoundHoldsIffClaimsWait | src/internal/infrastructure/queue/worker.go:222-245 | at most MaxAttempts hand-outs if and only if every claim of the message is made while no handler on its last attempt is at work on it, a condition on the state before the claim |
| Retries.BoundHoldsIffNoOverlap | src/internal/infrastructure/queue/worker.go:179-196 | the same bound seen from the states: if and only if no two such handlers are ever at work together |
| Retries.OneProcessKeepsTheBound | src/internal/infrastructure/queue/worker.go:61-76 | with one reclaimer, which ends each handling before its next claim, and MaxAttempts of two or more, no message is handed out more than MaxAttempts times |
| Retries.ReclaimersBoundRetries | src/internal/infrastructure/queue/worker.go:209-248 | with R such reclaimers, one to a process, at most MaxAttempts - 1 + R hand-outs, or 1 + R when MaxAttempts is one |
| Witnesses.ClaimCanOverlapTheLastAttempt | src/internal/infrastructure/queue/worker.go:209-248 | that number is reached, for every MaxAttempts, every R and every payload that validates: from a fresh service, early attempts failing in turn and the last R claims overlapping, with no crash and no reply lost; so the limit is exceeded by two reclaimers, or by one when it is one |
| Witnesses.SuchPayloadsValidate | src/internal/domain/payment/entity.go:128-183 | payloads for both histories exist: a plain reference and a hundred naira validate under any default currency |
| Retries.LastFailureRetires | src/internal/infrastructure/queue/worker.go:173-196 | a transient failure dead-letters and acknowledges on the last attempt, and leaves the message pending before it |
| Queues.Queue.Enqueue | src/internal/infrastructure/queue/queue.go:67-88 | an append that was confirmed is in the stream; one reported failed may be; nothing else changes but the trim |
| Queues.Queue.EnsureGroup | src/internal/infrastructure/queue/queue.go:91-97 | a new group will be handed every entry the stream still holds; an existing one keeps its place |
| Repositories.PaymentRepository.Apply | src/internal/infrastructure/database/repositories/payment_repository.go:102-139 | the tables become what the atomic statement makes them, at most this notification's one row is added, and a taken reference is answered from the stored row |
| Repositories.PaymentRepository.Replay | src/internal/infrastructure/database/repositories/payment_repository.go:142-158 | the loser's answer is the stored row with the current deployment, or not-found if either is gone |
| Repositories.PaymentRepository.Record | src/internal/infrastructure/database/repositories/payment_repository.go:161-198 | at most this notification's one row is added, no deployment changes, and a taken reference returns the stored row |
| Repositories.DeploymentRepository.Create | src/internal/infrastructure/database/repositories/deployment_repository.go:29-56 | inserts or reports a second open deployment, keeping the tables sound |
| Repositories.DeploymentRepository.GetByCustomerID | src/internal/infrastructure/database/repositories/deployment_repository.go:60-75 | not-found only if the customer has no deployment; an open one if and only if there is one |
| Services.DeploymentService.Create | src/internal/domain/deployment/service.go:40-74 | success means no open deployment before and one new one after, with the terms asked for or the defaults where left out, and nothing paid; a refusal changes nothing |
| Services.DeploymentService.Resolve | src/internal/domain/deployment/service.go:79-101 | the cached route, else the open deployment's, which is then cached; else the error that decides between unmatched and retry |
| Services.PaymentService.Accept | src/internal/domain/payment/service.go:66-97 | an invalid payload changes nothing; otherwise the world and the answer are those of the step machine, and at most this notification's one row is added |
| Services.PaymentService.Process | src/internal/domain/payment/service.go:114-158 | the world and the answer are those of the step machine from routing on, and at most this notification's one row is added |
| Services.PaymentService.Record | src/internal/domain/payment/service.go:161-178 | likewise for filing |
| Services.RouteIsTheSteps | src/internal/domain/deployment/service.go:79-101 | resolving in one go is the machine's lookups and cache fill one after the other |
| Services.ApplyIsTheSteps | src/internal/infrastructure/database/repositories/payment_repository.go:102-158 | applying and replaying in one go is the machine's statement and two reads |
| Repositories.MovedIsCredited | src/internal/infrastructure/database/repositories/payment_repository.go:26-66 | a credit that moved went to its deployment alone: balance, count, latest date, status and completion time, and the row with its split and balances |
| Services.RegisteredAsAsked | src/internal/domain/deployment/service.go:40-74 | a created deployment has the registration's own terms or the programme's where left out |
| Services.RecordIsTheSteps | src/internal/domain/payment/service.go:161-178 | filing in one go is the machine's statement and read |
| Workers.ProcessThenDispose | src/internal/infrastructure/queue/worker.go:148-206 | processing does the same for a worker as inline; only what follows the answer differs |
| Workers.Consumer.Handle | src/internal/infrastructure/queue/worker.go:148-206 | handling a message is the machine's handling of it: acknowledge, set aside, or leave pending |
| Workers.Consumer.DeadLetter | src/internal/infrastructure/queue/worker.go:266-284 | a failed dead-letter write leaves the stream untouched and the message pending |
| Workers.Consumer.Deliveries | src/internal/infrastructure/queue/worker.go:251-263 | the hand-out count, or one when it cannot be read |
| Workers.Consumer.Run | src/internal/infrastructure/queue/worker.go:106-145 | the loop over any turns is the composition of its batches, failed reads included |
| Workers.Consumer.Reclaim | src/internal/infrastructure/queue/worker.go:209-248 | the loop over any ticks, its cursor carried along, is the composition of its claims |
| QueueLaws.BatchIsTheNextEntries | src/internal/infrastructure/queue/worker.go:112-120 | a read hands out the next entries in order, skipping none |
| QueueLaws.ClaimedEntries | src/internal/infrastructure/queue/worker.go:222-229 | a claim hands out only idle, pending, untrimmed entries from the cursor on, counts each once, and loses only trimmed ones |
| QueueLaws.ClaimsPassNothingOver | src/internal/infrastructure/queue/worker.go:222-240 | between its two cursors a claim leaves no idle pending entry behind |
| QueueLaws.ClaimsAdvance | src/internal/infrastructure/queue/worker.go:237-240 | the cursor moves forward or wraps |
| QueueLaws.ClaimsAtMost | src/internal/infrastructure/queue/worker.go:222-229 | a claim hands out no more than the batch size |
| QueueLaws.HealthyWorkerDrains | src/internal/infrastructure/queue/worker.go:106-145 | enough healthy turns leave every entry acknowledged, and settled or dead-lettered |
| QueueLaws.StrandedMessagesAreRecovered | src/internal/infrastructure/queue/worker.go:208-248 | within one tick more than there are entries handed out, a healthy reclaimer has dealt with every message a dead worker left pending |
| Refinement.ProgramsAreRuns | src/internal/infrastructure/queue/worker.go:30-93 | every sequence of calls of Accept, Create, EnsureGroup, Run and Reclaim on a new service leaves a world that the whole-system machine reaches |
| Refinement.ProgramsKeepTheBooks | src/internal/domain/payment/service.go:66-178 | after any such sequence every balance is its ledger's and the books balance |

## Left out

- HTTP handlers, router, middleware, signatures, DTO mapping, configuration, metrics, logging and migration tooling: no state of their own.
- Position in results: a result carries its ledger row, not the deployment's position at the time, which the cache may hold stale.
- PositionAt and GetPosition, WeeksOfCoverage, PercentRepaid, ProjectedCompletionDate: floating-point or read-only projections of the figures proved here.
- Timeouts, lost connections and column overflows are statement failures that change nothing, or writes whose reply is lost; both are modelled, their causes are not.
- Time: instants are whole seconds on one line, so weeks elapsed is an integer quotient; ParseTransactionDate is an input that may be absent.
- Notifications.Validate: lengths are counted in characters where the service counts bytes, and upper-casing is that of ASCII letters.
- Currencies finer than six decimal places: the scale is at most six, as every currency the service builds.
- Uuids, asset fields, virtual account numbers, received and created timestamps of rows, raw payloads and hash partitions: no property here depends on them.
- JSON encoding of messages and cache entries: decoding returns what was encoded or, at any moment, fails.
- ApplyProtocol.RunsKeepInv: a registration waits for whoever is advancing an open deployment of its customer, and then is one atomic step; its own hold on the open-deployment index is never seen in flight.
- The foreign key's share lock on a deployment row: it does not conflict with the update of that row's balance.
- Services.PaymentService.Accept, Workers.Consumer.Run and the other methods act with nobody else about; what interleaving adds is proved of the step machine in WholeSystem.
- Workers.Consumer.Run: the endless loop is one over any finite sequence of turns, and each message carries its own faults; the same for Workers.Consumer.Reclaim.
- Workers.Consumer.Deliveries: the count is read when a message's turn comes; in WholeSystem a reclaim is handed any count at all, and Retries asks of it to be the one read when the handler begins.
- Retries.RetriesAreBounded: stated for histories without restarts and with delivery counts, dead-letter writes and acknowledgements of that message arriving.
- SystemLaws.NoCreditIsLost: carries the backlog bound as a hypothesis; SystemLaws.LostIffTrimmedUnsettled says what happens without it.
- Reversals, delinquency sweeps and ledger tiering: there is no code for them.
