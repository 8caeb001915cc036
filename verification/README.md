# Proofs about the scan-to-mail backend

This Dafny project models the state machines of the backend and proves what they keep, over every
interleaving of workers, timers and requests. `dafny verify dfyconfig.toml` checks all of it.

A person's code is scanned, a mail job waits ten seconds in which the scan can be canceled, and a
worker then sends the mail at most once. Around that run a global pacing limiter, retries, recovery
of stale claims, one-year retention, and the delayed deletion of tenants, locations and people.

## How it is built

- **Transactions are functions on tables.** `MailTables`, `MailTransactions`, `ScanIntake` and
  `Retention` hold one function for each transaction, from the tables before it to the tables after
  it, with the CHECK constraints that can make it raise.
- **Runs are sequences of steps.** `MailProtocol` makes these transactions, provider arrivals,
  crashes and stale listings the steps of one state machine. A step takes its clock readings as
  arguments, so nothing assumes that transaction start times follow lock order. `MailInvariant` and
  `IntakeInvariant` prove the invariant step by step; `MailRuns` lifts it to every reachable state;
  `MailTheorems`, `MailProgress`, `MailFencing`, `IntakeTheorems` and `RetentionTheorems` draw the
  conclusions; `MailOutcomes` and `IntakeOutcomes` say what each transaction leaves in the fields of
  the rows, and `RecoveryLists` and `ProcessorTheorems` what a whole pass does. In that machine the
  recovery of one stale row is one step.
- **Recovery is also three statements.** `MailRecovery` refines that step into the three statements of
  the code, between which anything may commit and after any of which the process may stop.
  `MailRecoveryInvariant` proves the invariant of the finer machine, `MailRecoveryTheorems` that it
  includes every run of the coarser one, which guarantees survive, and exactly when the others fail.
- **Services are methods.** `MailDatabase` has the tables as mutable fields and the service methods
  statement by statement, each proved equal to its transaction function, so the conclusions hold of
  the methods. `TenantLifecycle`, `DeletionPurge`, `LoginLimiter`, `PersonCodes` and `MailSubject`
  do the same for their own classes and loops.
- **Requests that read and write separately stay separate.** `Locations` keeps each open request with
  what it read, and lets other steps happen before it writes. It also has the trigger that rejects
  writes to the rows of a purged tenant. `ScheduledDeletion` says what keeps a scheduled row frozen and
  what a restore gives back; `DeletionScenarios` has the reachable states in which it goes wrong.
- **A walk over pages reads a sequence of snapshots.** `KeysetPaging` says what it lists under any
  change between the pages, and under changes above the cursor only.

Times of database clocks are in microseconds (`Us`), times in columns and JavaScript dates in
milliseconds (`Ms`).

## What the code does not do

Six properties one might expect fail. Each has a lemma that says exactly when.

- **Recovery can raise for good.** A job that was rate-deferred before its first retry has a scheduled
  time. If its next claim dies before the reservation, recovery tries to return it to `waiting`
  without clearing the scheduled time, which `mail_jobs_waiting_window_check` forbids
  (backend/prisma/migrations/20260806010000_add_scan_send_cancellation/migration.sql:24-33). The
  update raises, the whole recovery call raises, and the processor, which awaits recovery before
  it selects jobs, claims nothing in that pass. `RecoveryRaisesExactly` gives the condition,
  `RecoveryErrorIsReachable` a run from a fresh system, `PoisonedForever` that no later step repairs
  it, and `PoisonedClaimStopsThePass` the effect on the processor.
- **Recovery is not fenced before the provider call.** `reserve` looks at neither the attempt's status
  nor the job's claim. If a claim is given back while its worker lives, both can send;
  `FencingIsExact` proves that this is possible exactly then. The delivery theorems therefore let
  recovery give back an uninvoked claim only when its worker is dead, which is what the 60-second
  threshold stands for. Calls that are already open may return late, after recovery, without
  restriction.
- **Recovery can overwrite an answer.** It reads the attempt, updates the job if that is still
  processing, and then updates the attempt without any guard
  (backend/src/mail-jobs/mail-jobs.service.ts:493-508). If the call returns in between with an
  acceptance or a transient refusal, the attempt ends as `delivery_unknown` with no closing time:
  `OverwrittenExactly` and `LateAnswerIsOverwritten`. A refused job is then claimable, and is called
  again, beside an attempt that counts as possibly delivered (`TwoPossibleDeliveries`); no second
  message is accepted (`AtMostOneMessageStill`). Either way neither the job's family nor its tenant
  can ever be purged (`OverwrittenForever`). `AtMostOnePossibleDelivery`, `CallOpenMeansUnclaimable`,
  `CallsAreAccounted`, `PurgedExactlyWhenSettled` and `VerdictSettles` hold when recovery is not
  interleaved in this way; the finer counterparts are in `MailRecoveryTheorems`.
- **A retry at a location that leaves service blocks retention.** Deactivating a location, and
  scheduling its deletion, fails its queued jobs and leaves their scheduled time, which retention
  treats as pending; `StrandedRetryBlocksForever`.
- **An acknowledged deletion can be lost.** A status change that read the location or person before it
  was scheduled writes afterwards: the row is active again with its deletion record still set, and no
  purge takes it until it is scheduled anew. `FrozenExactly` lists what can change a scheduled row, and
  `LateStatusChangeLosesDeletion` is such a run; `StaleRestoreUndoesScheduling` is one with a restore
  that was left open from an earlier scheduling, whose guard tests only status and deadline.
- **Restoring does not always undo scheduling.** A location is restored to the status that the
  scheduling request read (`ScheduleThenRestore`), which may be older than the one it had; and when
  two schedulings overlap, the later write decides, also if its read is the older
  (`OlderSchedulingWins`).

## Model

| member | source | states |
|---|---|---|
| `MailRuns.StepKeepsGood` | backend/src/mail-jobs/mail-jobs.service.ts:210-527 | Every step of the delivery system (claim, gate, reservation, call, verdict, crash, stale listing, recovery, late return, cancellation, deactivation, retention, tenant purge), in any order and with any clock readings, keeps all row, worker, scan and pacing invariants, with the recovery of a row as one step |
| `MailRuns.ReachableIsGood` | backend/src/mail-jobs/mail-jobs.service.ts:210-527 | So every state that any such run reaches satisfies them |
| `MailTheorems.AtMostOnePossibleDelivery` | backend/src/mail-jobs/mail-jobs.service.ts:294-388 | At most one recorded attempt of a job is accepted, of unknown outcome, or invoked and still open, if nothing commits between the statements of a recovery |
| `MailTheorems.AtMostOneMessage` | backend/src/mail-jobs/mail-jobs.service.ts:294-388 | The provider accepts at most one message per job, over every interleaving, also after the job's rows are deleted |
| `MailTheorems.CallOpenMeansUnclaimable` | backend/src/mail-jobs/mail-job-claim.sql.ts:1-9 | While a job has an attempt that may have been delivered, neither the processor nor a person can claim it, at any time, under the same condition |
| `MailTheorems.CallsAreAccounted` | backend/src/mail-jobs/mail-jobs.service.ts:398-426 | Provider calls of a job = retry count, plus one if a call is open or ended otherwise than transiently; never more than four, under the same condition |
| `MailTheorems.WorkersFindTheirRows` | backend/src/retention/record-retention.service.ts:62-95 | A live worker always finds the job and attempt rows it is about to update, whatever retention, tenant purge and recovery did |
| `MailTheorems.WaitingAndCanceledWereNeverCalled` | backend/src/scan-events/scan-cancellation.sql.ts:1-8 | A waiting or canceled job has no provider-invoked attempt and no delivered message, though recovery may have returned it to waiting |
| `MailTheorems.CanceledIsForever` | backend/src/scan-events/scan-cancellation.sql.ts:1-8 | In every run a canceled job keeps its row until it is deleted, and never gets a provider call or a delivery |
| `MailTheorems.CanceledOnBothRows` | backend/src/scan-events/scan-cancellation.sql.ts:10-17 | A scan has a cancellation time exactly if its job is canceled |
| `MailTheorems.FinalRowIsFrozenForever` | backend/src/mail-jobs/mail-jobs.service.ts:484-527 | The row of a sent, failed or canceled job is never written again, by no late worker and no recovery; it can only be deleted |
| `MailTheorems.WorkerWritesOnly` | backend/src/mail-jobs/mail-jobs.service.ts:262-426 | A worker's step writes only its own job and its own attempt |
| `MailTheorems.SubmissionsArePaced` | backend/src/mail-jobs/oci-mail-rate-limiter.ts:24-60 | Over every run in which the last second's rows survive: admissions are 50 ms apart in lock order and at most 20 fall into any second, for arbitrary transaction start times |
| `MailTheorems.SubmissionsArePacedWithoutPurges` | backend/src/mail-jobs/oci-mail-rate-limiter.ts:24-60 | Without purges in the run the condition always holds |
| `MailOutcomes.JobsShowTheirAttempts` | backend/src/mail-jobs/mail-jobs.service.ts:210-527 | In every reachable state a job agrees with the attempt that it names: processing with an open one, sent with a succeeded one, unknown with an unknown one, queued with a refused one, failed with a blocked, failed or refused one |
| `MailOutcomes.SentWasAccepted` | backend/src/mail-jobs/mail-jobs.service.ts:318-341 | A job is marked sent only if the attempt that it names is its own, reached the provider and succeeded, at the time in the job's row |
| `MailOutcomes.SentWasStillAccepted` | backend/src/mail-jobs/mail-jobs.service.ts:318-341 | The same when recovery is three statements, but for an attempt that recovery has written over |
| `MailOutcomes.GateDecides` | backend/src/mail-jobs/mail-jobs.service.ts:262-270 | A job whose tenant may not send, or whose location or person was inactive, fails with that reason and no schedule, and its attempt is blocked uninvoked; any other passes and nothing is written |
| `MailOutcomes.RefusedAtGateIsNeverSent` | backend/src/mail-jobs/mail-jobs.service.ts:262-270 | In every run after such a refusal the failed row stays, the attempt is never invoked, and the provider accepts no message of the job |
| `MailOutcomes.ClaimHandsOver` | backend/src/mail-jobs/mail-job-claim.sql.ts:1-9 | A claim that succeeds changes status, claim and claim time of the job and nothing else, and adds an uninvoked attempt; one that fails changes nothing |
| `MailOutcomes.ReservationInRows` | backend/src/mail-jobs/oci-mail-rate-limiter.ts:42-60 | An admitted reservation is the call's time to the millisecond; a deferred one queues the job without a claim for its new time and ends the attempt uninvoked |
| `MailOutcomes.SubmissionInRows` | backend/src/mail-jobs/mail-jobs.service.ts:318-426 | From one OCI submission to the two rows: status, reason, times and schedule for a clean receipt, a quota refusal, a suppression or firm refusal, and everything else |
| `MailOutcomes.SandboxAnswerInRows` | backend/src/mail-jobs/mail-jobs.service.ts:318-426 | The same for the sandbox: success is a sent job, failure a retry with its reason, and the fourth failure final |
| `MailOutcomes.CancellationInRows` | backend/src/scan-events/scan-cancellation.sql.ts:1-17 | A cancellation marks a waiting job and its scan exactly if the deadline lies ahead, to the millisecond, and otherwise writes nothing |
| `MailOutcomes.LeavingServiceFailsItsOwn` | backend/src/locations/locations.service.ts:608-690 | A location that leaves service fails exactly its own queued jobs; every other job, location and tenant is untouched |
| `RecoveryLists.RecoveryRecoversTheList` | backend/src/mail-jobs/mail-jobs.service.ts:484-527 | A list of distinct jobs in hand raises exactly if one is stuck; every one before it is no longer processing: unknown if it was invoked, else waiting or queued again without a claim; the rest is untouched |
| `ProcessorTheorems.PassHandlesTheList` | backend/src/mail-jobs/mail-job-processor.service.ts:69-113 | A pass raises exactly if recovery raises or a listed job is missing; the reached jobs that were claimable after recovery, and no others, get an attempt, and each of them is concluded |
| `ProcessorTheorems.LostClaimsArePassedOver` | backend/src/mail-jobs/mail-job-processor.service.ts:104-112 | If no listed job is missing, every claimable one is handled, whatever claims before it in the list were lost |
| `MailProgress.SelectionAgreesWithClaim` | backend/src/mail-jobs/mail-job-claim.sql.ts:4-9 | The microsecond selection of the processor and the millisecond claim guard agree on every row at every instant; a person may claim only what the processor may, and no waiting job |
| `MailProgress.NoJobIsStranded` | backend/src/mail-jobs/mail-job-processor.service.ts:90-92 | Every reachable waiting or queued job is selected, and its claim succeeds, from its due time on and, unless it is from before the migration, not before |
| `MailProgress.CancelOrSend` | backend/src/scan-events/scan-cancellation.sql.ts:1-8 | At every instant a reachable waiting job can be canceled exactly if the processor cannot claim it |
| `MailProgress.TenSecondsToCancel` | backend/src/scan-events/scan-cancellation.sql.ts:1-8 | A created scan can be canceled for ten seconds, and not later, to the millisecond of the columns |
| `MailProgress.TransientRefusalBacksOff` | backend/src/mail-jobs/mail-jobs.service.ts:398-426 | After the first three transient refusals the job is due again 30 s, 2 min and 10 min later and not before; the fourth is final |
| `MailProgress.DeferredThenAdmitted` | backend/src/mail-jobs/oci-mail-rate-limiter.ts:42-60 | A rate-deferred job can be claimed again from its deferred time on and not before, and that claim is then admitted if nothing else was meanwhile |
| `MailProgress.StaleAfterSixtySeconds` | backend/src/mail-jobs/mail-job-processor.service.ts:73-75 | A claim is stale for the processor from sixty seconds after it on |
| `MailProgress.RecoveryRaisesExactly` | backend/src/mail-jobs/mail-jobs.service.ts:484-527 | Recovery of a stale job raises exactly if its claim never reached the provider and the job was rate-deferred before its first retry; otherwise it ends as unknown, waiting or queued as the code intends |
| `MailProgress.DeferredClaimThatDiesIsPoisoned` | backend/src/mail-jobs/mail-jobs.service.ts:510-519 | Every rate-deferred, never retried job whose next claim dies before its reservation gets into that state |
| `MailProgress.PoisonedForever` | backend/src/mail-jobs/mail-jobs.service.ts:484-527 | Such a job keeps its row and its open claim in every run: it is not sent, not given back and not purged |
| `MailProgress.RecoveryOfPoisonedListRaises` | backend/src/mail-jobs/mail-jobs.service.ts:492-525 | A recovery list that contains such a claim raises, wherever in the list it stands |
| `MailDatabase.PoisonedClaimStopsThePass` | backend/src/mail-jobs/mail-job-processor.service.ts:69-76 | A processor pass over such a list ends before it has claimed any job |
| `MailScenarios.RecoveryErrorIsReachable` | backend/prisma/migrations/20260806010000_add_scan_send_cancellation/migration.sql:24-33 | The state is reachable from a fresh system by ordinary steps and one crash |
| `MailFencing.FencingIsExact` | backend/src/mail-jobs/mail-jobs.service.ts:510-524 | Giving back the claim of a worker on its way to the provider can lead to two accepted messages exactly if that worker is alive |
| `MailFencing.LiveWorkerSendsTwice` | backend/src/mail-jobs/oci-mail-rate-limiter.ts:56-60 | The run that does it: nothing in the reservation looks at the claim again |
| `ProviderVerdict.SubmissionOutcome` | backend/src/mail-jobs/oci-email-delivery.provider.ts:23-39 | Over every HTTP outcome: sent exactly on a clean receipt, retried exactly on a quota refusal, failed exactly on suppression or a firm refusal, and doubtful otherwise |
| `ProviderVerdict.NormalizedResultIsTrustworthy` | backend/src/mail-jobs/mail-jobs.service.ts:310-316 | Whatever a provider object returns, a job is marked sent only on a complete accepted result and retried only on a transient one that claims no success |
| `RateLimiter.AdmittedIsLast` | backend/src/mail-jobs/oci-mail-rate-limiter.ts:28-60 | An admitted reservation is at least 50 ms later than every recorded one, old or recent |
| `RateLimiter.DeferralIsExact` | backend/src/mail-jobs/oci-mail-rate-limiter.ts:35-55 | The 20-per-second term never decides admission; the deferred time is the newest reservation plus 50 ms, or 51 ms when twenty rows are packed tight |
| `RateLimiter.AdmittedExactly` | backend/src/mail-jobs/oci-mail-rate-limiter.ts:28-60 | On paced rows a call is admitted exactly if every recorded reservation is 50 ms or more before it |
| `RateLimiter.TwentyRowsSpan` | backend/src/mail-jobs/oci-mail-rate-limiter.ts:35-41 | Twenty paced rows in the window span at least 950 ms |
| `RateLimiter.ReserveAgain` | backend/src/mail-jobs/oci-mail-rate-limiter.ts:42-55 | A deferred call repeated at its deferred time, with no admission since, is admitted |
| `RateLimiter.AtMostTwentyPerSecond` | backend/src/mail-jobs/oci-mail-rate-limiter.ts:18-20 | A paced log has at most 20 admissions in any half-open second |
| `MailRecoveryInvariant.FineStepKeepsGood` | backend/src/mail-jobs/mail-jobs.service.ts:493-524 | With recovery as three separate statements, stopped or interleaved with anything, every step keeps the invariant of jobs, attempts, workers, half-done recoveries and scans |
| `MailRecoveryInvariant.FineReachableIsGood` | backend/src/mail-jobs/mail-jobs.service.ts:484-527 | So every state that any run of that machine reaches satisfies it |
| `MailRecoveryTheorems.InOnePiece` | backend/src/mail-jobs/mail-jobs.service.ts:493-524 | The three statements in a row, also when one raises, do what the single recovery step does |
| `MailRecoveryTheorems.ReachableIsFineReachable` | backend/src/mail-jobs/mail-jobs.service.ts:484-527 | Every state that the machine with one-step recovery reaches, the machine with three statements reaches too |
| `MailRecoveryTheorems.AtMostOneMessageStill` | backend/src/mail-jobs/mail-jobs.service.ts:294-388 | The provider accepts at most one message per job, whatever commits between the statements of recovery |
| `MailRecoveryTheorems.WorkersStillFindTheirRows` | backend/src/retention/record-retention.service.ts:62-95 | So a live worker still finds its rows |
| `MailRecoveryTheorems.WaitingAndCanceledStillNeverCalled` | backend/src/scan-events/scan-cancellation.sql.ts:1-8 | A waiting or canceled job still has no provider call and no message |
| `MailRecoveryTheorems.CanceledIsStillForever` | backend/src/scan-events/scan-cancellation.sql.ts:1-8 | Canceling is still final over every run |
| `MailRecoveryTheorems.FinalRowStillFrozenForever` | backend/src/mail-jobs/mail-jobs.service.ts:484-527 | The row of a sent, failed or canceled job is still never written again in any run |
| `MailRecoveryTheorems.CallsAreStillAccounted` | backend/src/mail-jobs/mail-jobs.service.ts:398-426 | A job's calls number its retry count, plus one if one was not answered with a transient refusal; never more than four |
| `MailRecoveryTheorems.OverwrittenExactly` | backend/src/mail-jobs/mail-jobs.service.ts:499-508 | Over all states and steps, an attempt whose answer is in comes to be recorded as still open exactly by the unguarded last statement of a recovery that looked before the answer, if the answer did not close the call; nothing reverts it |
| `MailRecoveryTheorems.LateAnswerIsOverwritten` | backend/src/mail-jobs/mail-jobs.service.ts:318-426 | An answer that commits between recovery's statements is overwritten exactly if it is an acceptance or a transient refusal |
| `MailRecoveryTheorems.OverwrittenForever` | backend/src/retention/record-retention.service.ts:68-80 | An overwritten attempt stays in every run: no retention by any calendar deletes its family, and its tenant is never purged |
| `MailRecoveryTheorems.RefusedLooksOpenExactly` | backend/src/mail-jobs/mail-jobs.service.ts:505-508 | A refused call counts as possibly delivered exactly if it was overwritten |
| `MailRecoveryTheorems.OnePossibleDeliveryUnlessOverwritten` | backend/src/mail-jobs/mail-jobs.service.ts:493-524 | Of two attempts of a job that may have been delivered, one was refused and overwritten |
| `MailRecoveryTheorems.ClaimableOnlyBesideOverwritten` | backend/src/mail-jobs/mail-job-claim.sql.ts:1-9 | A job is claimable beside an attempt that may have been delivered only if that one was refused and overwritten |
| `MailRecoveryTheorems.InFlightIsUnfinishedOrOverwritten` | backend/src/mail-jobs/mail-jobs.service.ts:484-527 | An attempt in flight belongs to a worker that is not done, or is overwritten |
| `MailRecoveryTheorems.PurgedExactlyWhenQuiet` | backend/src/retention/record-retention.service.ts:62-85 | A due family is purged exactly if its job has ended without a schedule and none of its attempts is in flight: the tenant clauses never decide |
| `MailRecoveryScenarios.ClaimableBesidePossibleDelivery` | backend/src/mail-jobs/mail-jobs.service.ts:493-508 | A run from a fresh system in which a job is claimable beside a possibly delivered attempt |
| `MailRecoveryScenarios.TwoPossibleDeliveries` | backend/src/mail-jobs/mail-jobs.service.ts:493-508 | The same run, with two possibly delivered attempts of the job |
| `MailRecoveryScenarios.SentJobIsNeverPurged` | backend/src/mail-jobs/mail-jobs.service.ts:493-508 | The same run, with the job sent and the overwritten attempt in place |
| `MailDatabase.Database.Claim` | backend/src/mail-jobs/mail-jobs.service.ts:215-241 | The guarded claim with its attempt row does exactly ClaimJob |
| `MailDatabase.Database.BlockClaimedJob` | backend/src/mail-jobs/mail-jobs.service.ts:453-471 | The blocking transaction does exactly BlockJob; it raises exactly if a row is missing, and otherwise the job has failed and the attempt is blocked, both with the reason, and nothing claims the job again |
| `MailDatabase.Database.QueryWindow` | backend/src/mail-jobs/oci-mail-rate-limiter.ts:28-34 | The scan over the attempts yields MAX, COUNT and MIN of the last second of reservations |
| `MailDatabase.Database.ReserveCall` | backend/src/mail-jobs/oci-mail-rate-limiter.ts:24-61 | The reservation decides and writes as the limiter function does, and raises without writing exactly if a row it updates is missing |
| `MailDatabase.Database.Record` | backend/src/mail-jobs/mail-jobs.service.ts:310-426 | Normalisation and the three branches write exactly what the verdict requires; it raises exactly if a row is missing |
| `MailDatabase.Database.ProcessClaimedMailJob` | backend/src/mail-jobs/mail-jobs.service.ts:210-426 | The whole execution equals the composition of its transactions, says whether the claim was lost or the job is gone, and none of its updates misses its row |
| `MailDatabase.DeliveryIsARun` | backend/src/mail-jobs/mail-jobs.service.ts:210-426 | An undisturbed execution is a run of the state machine |
| `MailDatabase.Database.LookAtClaim` | backend/src/mail-jobs/mail-jobs.service.ts:494-500 | The first statement of recovery reads what Lookup says |
| `MailDatabase.Database.RecoverJob` | backend/src/mail-jobs/mail-jobs.service.ts:500-519 | The second writes the job as JobStatement does, and raises exactly if the CHECK constraint forbids it |
| `MailDatabase.Database.RecoverAttempt` | backend/src/mail-jobs/mail-jobs.service.ts:504-523 | The third writes the attempt as AttemptStatement does, and raises exactly if the row is gone |
| `MailDatabase.Database.RecoverOne` | backend/src/mail-jobs/mail-jobs.service.ts:493-524 | One undisturbed iteration; an error of the third statement leaves what the second wrote |
| `MailDatabase.Database.RecoverStaleProcessingJobs` | backend/src/mail-jobs/mail-jobs.service.ts:484-527 | The loop over the stale rows equals RecoverAll; the first error ends it |
| `MailDatabase.Database.ProcessDueJobs` | backend/src/mail-jobs/mail-job-processor.service.ts:69-113 | One pass: running flag, recovery, then the due jobs; lost claims are skipped and any other error ends the pass |
| `MailDatabase.Database.CreateScanEvent` | backend/src/scan-events/scan-events.service.ts:359-517 | The locked transaction: replay, deduplication or creation, written row by row, equals CreateScan |
| `MailDatabase.Database.CancelScanEvent` | backend/src/scan-events/scan-events.service.ts:579-690 | Cancellation with its four answers, each exactly characterised by the rows before it |
| `ProcessorTheorems.DeliveryFollowsWhatItMeets` | backend/src/mail-jobs/mail-jobs.service.ts:210-426 | An undisturbed execution fails uncalled without a licence or at an inactive place, queues uncalled when deferred, and is otherwise called and ends as its answer says, counted from its own retries |
| `IntakeOutcomes.AnswerIsExact` | backend/src/scan-events/scan-events.service.ts:380-517 | When no record answers: the last scan of the person at the place within ten seconds and its job if the action is the same, a conflict with it if not, and a new scan exactly if there is none |
| `IntakeOutcomes.AnswersWriteExactly` | backend/src/scan-events/scan-events.service.ts:419-517 | A new scan adds its two rows, with their times and deadlines, and the key's record; a repeated one only the record; a conflict, a replay or an error nothing |
| `IntakeTheorems.AtMostOneScanPerTenSeconds` | backend/src/scan-events/scan-events.service.ts:386-417 | For one person at one place, at most L/10000 + 1 scans with uncanceled mail are received in any span of L ms, for any order of transaction start times |
| `IntakeInvariant.InsertKeepsSpacing` | backend/src/scan-events/scan-events.service.ts:386-417 | A scan created because the lookup found nothing is ten seconds after every uncanceled scan of the same person and place |
| `IntakeTheorems.RecordAnswers` | backend/src/scan-events/scan-events.service.ts:783-855 | An unexpired record answers with its own scan and job for the same fingerprint and with a conflict for any other |
| `IntakeTheorems.RecordExpires` | backend/src/scan-events/scan-events.service.ts:789-803 | A record answers exactly until its expiry; from then on the key is free again |
| `IntakeTheorems.BrokenResultsAreUnreachable` | backend/src/scan-events/scan-events.service.ts:833-847 | IDEMPOTENCY_RESULT_NOT_FOUND and IDEMPOTENCY_RESULT_INVALID are never returned |
| `IntakeTheorems.SuccessBindsKey` | backend/src/scan-events/scan-events.service.ts:875-910 | Creating or deduplicating under a key binds the key to that result for 24 hours |
| `IntakeTheorems.SameKeySameAnswer` | backend/src/scan-events/scan-events.service.ts:267-278 | In any later state before expiry and purge, the unlocked look and the locked one give the same recorded answer, and a request under the key changes nothing |
| `IntakeTheorems.KeyOverRuns` | backend/src/scan-events/scan-events.service.ts:364-378 | Over every run, each request under the key is answered from the record, so no second scan is created for it |
| `RetentionTheorems.BacklogSplits` | backend/src/retention/record-retention-scheduler.service.ts:85-115 | At every instant the due families split exactly into the selected and the alarmed ones |
| `RetentionTheorems.RechecksAgree` | backend/src/retention/record-retention.service.ts:62-85 | The two rechecks of the purge together are the condition of the selecting query |
| `RetentionTheorems.SelectedIffDeleted` | backend/src/retention/record-retention.service.ts:18-98 | A family is selected exactly if a purge at the same instant deletes it |
| `RetentionTheorems.NothingBeforeAYear` | backend/src/retention/record-retention.service.ts:20-61 | A family is deleted, selected or counted only when its scan is a year old, and outside deletion it is "not due" exactly before that; in deletion it is blocked |
| `RetentionTheorems.DueStaysDue` | backend/src/retention/record-retention.service.ts:20-61 | What is selected, alarmed or deletable at one instant is so at every later one |
| `RetentionTheorems.PurgeRemovesExactlyTheFamily` | backend/src/retention/record-retention.service.ts:86-95 | A deletion removes exactly the family's closure, no reference dangles after any of the four deletes, and the count checks cannot fail |
| `RetentionTheorems.RunAccountsForBacklog` | backend/src/retention/record-retention-scheduler.service.ts:70-74 | An undisturbed run deletes all it selected, blocks on none, and backlog before = deleted + backlog after |
| `RetentionTheorems.RunCountsWhatIsGone` | backend/src/retention/record-retention-scheduler.service.ts:70-74 | Over any list, the scans gone are those counted as deleted, and the two counts together are no more than the list |
| `RetentionTheorems.AlarmedAreBlocked` | backend/src/retention/record-retention-scheduler.service.ts:70-115 | A run over families that the alarm counts blocks on each and deletes nothing |
| `RetentionTheorems.TenantPurgeTakesItsOwn` | backend/src/platform/platform-tenant-purge.service.ts:43-86 | In reachable states a due tenant's records go exactly if none of its calls may still return; then none of its rows is left, and every other row is as it was |
| `RetentionTheorems.PurgedExactlyWhenSettled` | backend/src/retention/record-retention.service.ts:62-85 | In reachable states a due family is purged exactly if its job is settled: sent, canceled, failed without a schedule, or unknown with a closed call (recovery of a row in one piece) |
| `RetentionTheorems.VerdictSettles` | backend/src/mail-jobs/mail-jobs.service.ts:318-388 | A verdict other than a retry settles the job, also when it comes late, after recovery has written the job off, so that retention can purge it (recovery of a row in one piece) |
| `RetentionTheorems.OnlyLeavingServiceStrands` | backend/src/mail-jobs/mail-jobs.service.ts:210-527 | Every step but a location's deactivation or scheduled deletion clears the schedule of a job it fails |
| `RetentionTheorems.LeavingServiceKeepsSchedule` | backend/src/locations/locations.service.ts:608-690 | Deactivating a location, or scheduling its deletion, fails a scheduled retry and leaves its scheduled time |
| `RetentionTheorems.StrandedRetryBlocksForever` | backend/src/retention/record-retention.service.ts:62-67 | Such a family is never purged by retention, in any run, by any calendar, until its tenant is purged |
| `MailDatabase.Database.PurgeScanFamily` | backend/src/retention/record-retention.service.ts:46-98 | Rechecks and four deletes, statement by statement; the job count check never fails |
| `MailDatabase.Database.RunOnce` | backend/src/retention/record-retention-scheduler.service.ts:60-74 | The loop with its running flag and three counters: PurgeAll over the list, or over the part before the transaction that raises, which ends it |
| `MailDatabase.Database.PurgeTenantRecords` | backend/src/platform/platform-tenant-purge.service.ts:30-136 | The record part of the tenant purge: its five ways to end, each with its condition, nothing written unless it ends purged, and then no record of the tenant left |
| `MailDatabase.Database.FailQueuedJobs` | backend/src/locations/locations.service.ts:608-690 | When a location leaves service none of its jobs stays queued; what changes was queued there and has failed with the reason, its schedule kept |
| `TenantLifecycle.InvalidStateIsUnreachable` | backend/src/platform/platform-tenants.service.ts:627-677 | In every reachable state a tenant in deletion has a suspended subscription and valid snapshots, the CHECK constraint holds after every step, and neither RESTORE_STATE_INVALID nor SUBSCRIPTION_INVALID is returned |
| `TenantLifecycle.DeleteThenRestore` | backend/src/platform/platform-tenants.service.ts:341-388 | Delete, anything that leaves the tenant pending, restore: statuses and interval are back, subscription version up by 2, tenant version by 2 plus the limit changes meanwhile |
| `TenantLifecycle.DeadlinesAreComplements` | backend/src/platform/platform-tenants.service.ts:645-663 | At each instant exactly one of restore and purge is open; restore is open from the deletion on |
| `TenantLifecycle.RepeatedDeleteIsReplay` | backend/src/platform/platform-tenants.service.ts:353-355 | Repeating a pending deletion reports the first dates and writes nothing |
| `TenantLifecycle.DeletionStartsExactly` | backend/src/platform/platform-tenants.service.ts:353-366 | A deletion starts exactly if the tenant is not in deletion and its subscription is not active |
| `TenantLifecycle.PurgedIsForever` | backend/src/platform/platform-tenant-purge.service.ts:30-41 | Purged is absorbing; only the location limit and its version can still change |
| `TenantLifecycle.StateChangedMeansClockWentBack` | backend/src/platform/platform-tenant-purge.service.ts:129-136 | The last statement of the purge fails exactly if the clock went back over the deadline during it |
| `TenantLifecycle.NoLostUpdate` | backend/src/platform/platform-tenants.service.ts:260-269 | A change that carries the version that was read is applied only to the very row that was read |
| `TenantLifecycle.SubscriptionChangesAreSound` | backend/src/platform/platform-tenants.service.ts:214-271 | Accepted changes agree with the clock and the suspension rule; refused ones change nothing; nothing else is refused |
| `TenantLifecycle.RefusalsWriteNothing` | backend/src/platform/platform-tenants.service.ts:342-366 | A dead session or a wrong password is answered as such and writes nothing, and so does every refusal of a deletion or a restore |
| `TenantLifecycle.DeletionInRows` | backend/src/platform/platform-tenants.service.ts:366-389 | An accepted deletion writes both dates, a year apart, both snapshots and the suspension, and one version each |
| `TenantLifecycle.LimitTakenExactly` | backend/src/platform/platform-tenants.service.ts:736-771 | A limit is taken exactly with the version that was read and not below the usage; a refused one writes nothing |
| `TenantLifecycle.PurgedAfterAYearExactly` | backend/src/platform/platform-tenant-purge.service.ts:30-136 | In reachable states a purge is carried out exactly if the tenant is pending, no mail is in flight and the year has passed at both clock readings; a restore exactly before that |
| `TenantLifecycle.TenantRecord.Update` | backend/src/platform/platform-tenants.service.ts:208-288 | updateSubscription: an accepted change carries the next version, a forward interval and, when suspending, the old interval; a refused one writes nothing |
| `TenantLifecycle.TenantRecord.Delete` | backend/src/platform/platform-tenants.service.ts:342-389 | The deletion transaction, and that it keeps the CHECK constraint |
| `TenantLifecycle.TenantRecord.Restore` | backend/src/platform/platform-tenants.service.ts:619-677 | The restore transaction, rolled back when its second update finds no row |
| `TenantLifecycle.TenantRecord.SetLocationLimit` | backend/src/platform/platform-tenants.service.ts:736-771 | updateLocationLimit under its lock: an accepted limit is not below the usage and takes the next version; a refused one writes nothing |
| `TenantLifecycle.TenantRecord.Purge` | backend/src/platform/platform-tenant-purge.service.ts:30-136 | The status part of the purge with its two clock readings |
| `Locations.StepKeeps` | backend/src/locations/locations.service.ts:225-780 | Reads, late writes, creation, limit changes and purges, in any order, keep all invariants; a tenant purge in spite of any open request, the purge of a location or person if it has no open unguarded one |
| `Locations.QuotaIsKept` | backend/src/locations/locations.service.ts:430-486 | Non-purged locations never exceed the tenant's limit |
| `Locations.PurgedMeansGone` | backend/src/locations/deletion-purge.service.ts:66-109 | A purged location has only purged, anonymous people, no assignment and no legacy identifier |
| `Locations.ScheduledIsConsistent` | backend/src/locations/locations.service.ts:305-319 | What is pending deletion has purge date = deletion date + 14 days and an active or inactive snapshot |
| `Locations.LocationPurgedAfterFourteenDays` | backend/src/locations/deletion-purge.service.ts:66-109 | A location is purged by the timer exactly if it is pending and fourteen days have passed; then it, its people, assignments and identifiers change as stated and nothing else does |
| `Locations.PersonPurgedAfterFourteenDays` | backend/src/locations/deletion-purge.service.ts:123-158 | The same for a person on their own |
| `Locations.NewLocationInRows` | backend/src/locations/locations.service.ts:418-544 | A location is created exactly if its tenant is there, unpurged and has room, and none of its locations has the name or the code and no legacy identifier of it the code; it is active and carries its request's values, and nothing else changes |
| `Locations.LimitInRows` | backend/src/platform/platform-tenants.service.ts:736-771 | A new limit is taken exactly if the tenant has no more locations than that |
| `Locations.CommitInRows` | backend/src/locations/locations.service.ts:225-780 | What each request writes, in the fields of the rows: a new person's name, address, tenant and status, a new status or name, a scheduling, a guarded restore, and exactly the requested assignments |
| `Locations.CodesStayUnique` | backend/src/locations/locations.service.ts:430-486 | Over every run no code comes to name two locations of one tenant, legacy identifiers and purged rows included |
| `Locations.InactiveLocationAdmits` | backend/src/locations/locations.service.ts:277-416 | What gets past its reads at an inactive location: its reactivation, renaming and scheduling, and the deactivation of its people |
| `Locations.TenantPurgeIsForever` | backend/prisma/migrations/20261020010000_guard_purged_tenant_current_writes/migration.sql:2-30 | After the purge of a tenant, whatever requests were open, its locations and people are in every run the purged rows that it left, and nothing of the tenant is added |
| `Locations.RevivesExactly` | backend/src/locations/locations.service.ts:595-606 | A write revives a purged location exactly if it is a late status change or scheduling and the tenant is not purged itself |
| `Locations.PendingAdmitsNoRequest` | backend/src/location-access/location-access.service.ts:14-36 | While a location is scheduled, no request on it or its people gets past its reads, except guarded restores |
| `ScheduledDeletion.DisturbsExactly` | backend/src/locations/locations.service.ts:595-757 | The open requests that change a scheduled row: a status change, a rename to another name, a scheduling from another read, and a restore whose deadline test passes |
| `ScheduledDeletion.FrozenExactly` | backend/src/locations/locations.service.ts:631-780 | A scheduled row is frozen over every run without a fresh restore or a purge exactly if no such request is open |
| `ScheduledDeletion.ScheduleThenRestore` | backend/src/locations/locations.service.ts:631-780 | If nothing open disturbs it, a scheduled location ends purged or with the status that the scheduling request read, which is its own exactly if that did not change before the write |
| `ScheduledDeletion.DisturbsPersonExactly` | backend/src/locations/locations.service.ts:277-416 | The open requests that change a scheduled person's row |
| `ScheduledDeletion.PersonFrozenExactly` | backend/src/locations/locations.service.ts:277-416 | A scheduled person's row is frozen exactly if no such request is open |
| `ScheduledDeletion.SchedulePersonThenRestore` | backend/src/locations/locations.service.ts:277-416 | What a restore gives back, for a person |
| `ScheduledDeletion.OpenAtPurgeWasOpenAtScheduling` | backend/src/locations/deletion-purge.service.ts:66-80 | A request that is open at the purge of a location was open, with the same reads, all the time it was scheduled |
| `DeletionScenarios.OlderSchedulingWins` | backend/src/locations/locations.service.ts:655-679 | A reachable state from which a scheduling that read an older status overwrites the snapshot of a newer one |
| `DeletionScenarios.LateStatusChangeLosesDeletion` | backend/src/locations/locations.service.ts:595-606 | A reachable state from which a status change commits after the scheduling: the row is active and the deletion is lost |
| `DeletionScenarios.StaleRestoreUndoesScheduling` | backend/src/locations/locations.service.ts:742-757 | A reachable state from which a restore of an earlier scheduling undoes a new one, with the old status |
| `DeletionScenarios.OlderPersonSchedulingWins` | backend/src/locations/locations.service.ts:277-416 | The first of the three for a person |
| `DeletionScenarios.LateStatusChangeLosesPersonDeletion` | backend/src/locations/locations.service.ts:277-416 | The second for a person |
| `DeletionScenarios.StaleRestoreUndoesPersonScheduling` | backend/src/locations/locations.service.ts:277-416 | The third for a person |
| `DeletionPurge.CreationIsExact` | backend/src/locations/locations.service.ts:418-544 | Creation succeeds exactly if there is room, the name is free, the tenant is not purged and some draw finds its code free and breaks no unique index; the first such draw is used |
| `DeletionPurge.LocationService.CreateLocation` | backend/src/locations/locations.service.ts:418-544 | The retry loop over at most five draws; a lost race for a unique index is a retry, any other error ends it |
| `DeletionPurge.DeletionPurgeService.PurgeOne` | backend/src/locations/deletion-purge.service.ts:66-109 | The cascade of one location, statement by statement |
| `DeletionPurge.DeletionPurgeService.ProcessDueDeletions` | backend/src/locations/deletion-purge.service.ts:49-163 | The two loops with the running flag and the reported counts |
| `DeletionPurge.LocationsPassAccounts` | backend/src/locations/deletion-purge.service.ts:63-121 | Whatever list it gets, a pass reports exactly the locations and people it purged |
| `DeletionPurge.PeoplePassAccounts` | backend/src/locations/deletion-purge.service.ts:123-158 | The same for people on their own |
| `DeletionPurge.PassClearsBatch` | backend/src/locations/deletion-purge.service.ts:54-121 | An undisturbed pass purges its whole batch; one that reports fewer than twenty leaves no due location |
| `DeletionPurge.PeoplePassClearsBatch` | backend/src/locations/deletion-purge.service.ts:123-158 | An undisturbed pass over people purges everyone it selected and nobody else; one that reports fewer than twenty leaves none due |
| `DeletionPurge.PassIsRun` | backend/src/locations/deletion-purge.service.ts:54-121 | A pass over quiet rows is a run of the state machine and keeps its invariants |
| `KeysetPaging.WalkIsOrdered` | backend/src/scan-events/scan-events.service.ts:98-121 | Whatever changes between the pages, the items are strictly descending, none is repeated, and each was there when its page was read |
| `KeysetPaging.WalkIsComplete` | backend/src/scan-events/scan-events.service.ts:98-121 | Every row that is there throughout a finished walk is listed |
| `KeysetPaging.WalkIsTheListing` | backend/src/audit/audit.service.ts:44-102 | If only newer rows change, the pages concatenate to exactly the listing in ceil(n/limit) pages, one when empty |
| `KeysetPaging.PagesAreCeiling` | backend/src/audit/audit.service.ts:64-79 | The page count is n/limit rounded up |
| `KeysetPaging.NewerRowIsInvisible` | backend/src/audit/audit.service.ts:80-88 | A new row leaves the rest of the walk alone exactly if it is not below the cursor, as the query's own audit entry |
| `KeysetPaging.NothingUnrecordedIsListed` | backend/src/platform/platform-audit-query.service.ts:19-77 | A listing is given exactly if the range is valid, the cursor is of this filter and the query was recorded |
| `KeysetPaging.CursorContinuesItsFilter` | backend/src/platform/platform-audit-query.service.ts:19-77 | A platform audit cursor continues its own filter's listing and is refused under every other filter |
| `KeysetPaging.NewestComeFirst` | backend/src/scan-events/scan-events.service.ts:98-121 | Over any snapshots the items are in descending order of creation time, and of identifier within one millisecond |
| `KeysetPaging.PagesAreFull` | backend/src/scan-events/scan-events.service.ts:98-121 | A page has as many items as fit, a cursor exactly if more follow, and everything left out is older |
| `KeysetPaging.FilterShowsExactly` | backend/src/platform/platform-audit-query.service.ts:26-41 | A finished walk lists a row exactly if it satisfies every given criterion, time bounds included |
| `PersonCodes.EncodeCrockfordBase32` | backend/src/locations/person-code.generator.ts:7-21 | The digit loop yields the fixed-width encoding, or fails exactly if the number does not fit |
| `PersonCodes.DecodeInverts` | backend/src/locations/person-code.generator.ts:7-21 | A decoder inverts the encoding of every number below 32^w |
| `PersonCodes.OrderIsKept` | backend/src/locations/person-code.generator.ts:7-21 | Encodings of one width sort as their numbers do |
| `PersonCodes.CodeIdentifies` | backend/src/locations/person-code.generator.ts:23-35 | A code is well formed and identifies the second and suffix it was made from |
| `PersonCodes.PersonCodeGenerator.Generate` | backend/src/locations/person-code.generator.ts:37-54 | One call moves the remembered second and suffix and formats them |
| `PersonCodes.RepeatsExactlyWhenCrowded` | backend/src/locations/person-code.generator.ts:37-54 | With a clock that never goes back, a second and suffix repeat exactly if one second sees more than 2^25 calls |
| `PersonCodes.CodesAreUnique` | backend/src/locations/person-code.generator.ts:37-54 | The same for the printed codes |
| `PersonCodes.ParserInvertsPrinter` | backend/src/scan-events/scan-events.service.ts:732-750 | The parser accepts exactly the printed payloads followed by at most one line end, and returns what was printed |
| `PersonCodes.GeneratedCodesParse` | frontend/src/codes/person-action-codes.ts:18-39 | Every generated code, printed for either action, is parsed back under all four line ends |
| `PersonCodes.ScansReadEntryAndExit` | backend/src/scan-events/scan-events.service.ts:732-750 | An accepted payload is E or X, twelve digits or capitals other than I, L, O and U, and at most one line end; E enters and X leaves |
| `LoginLimiter.LoginRateLimiterService.Allow` | backend/src/auth/login-rate-limiter.service.ts:14-49 | Pruning and four increments on the mutable map |
| `LoginLimiter.LoginRateLimiterService.IncrementCounter` | backend/src/auth/login-rate-limiter.service.ts:55-74 | One increment |
| `LoginLimiter.LoginRateLimiterService.PruneCounters` | backend/src/auth/login-rate-limiter.service.ts:76-85 | The deleting walk over the map |
| `LoginLimiter.KeysNameTheirDimension` | backend/src/auth/login-rate-limiter.service.ts:14-49 | Two calls share a counter of one dimension exactly if they agree in its value; dimensions share none; each has its own limit |
| `LoginLimiter.AtMostTwiceTheLimit` | backend/src/auth/login-rate-limiter.service.ts:14-74 | With a clock that never goes back: at most the limit per fixed window and at most twice the limit in any half-open interval of window length, for every value of every dimension |
| `LoginLimiter.RefusalIsExact` | backend/src/auth/login-rate-limiter.service.ts:55-74 | In every run, the increment of each of a call's keys is refused exactly if the map it meets, after pruning and the increments before it, has no room for it, or its open window has already admitted its limit |
| `LoginLimiter.CallIsLetThroughExactly` | backend/src/auth/login-rate-limiter.service.ts:14-49 | So a call is let through exactly if that happens to none of its four keys |
| `LoginLimiter.MapStaysBounded` | backend/src/auth/login-rate-limiter.service.ts:61-71 | The map never holds more than 20000 counters |
| `LoginLimiter.CallKeepsUnexpired` | backend/src/auth/login-rate-limiter.service.ts:76-85 | A call removes only expired counters |
| `LoginLimiter.RefusedForSpace` | backend/src/auth/login-rate-limiter.service.ts:61-85 | A key is refused for space while an expired counter remains only if the call began with one to three free places |
| `MailSubject.BuildMailSubject` | backend/src/scan-events/scan-events.service.ts:937-959 | The loop that drops one character at a time equals the closed form |
| `MailSubject.SubjectFits` | backend/src/scan-events/scan-events.service.ts:937-959 | The subject has at most 255 characters and no control character, fills the column when anything was cut, and keeps short names |
| `MailSubject.SubjectReads` | backend/src/scan-events/scan-events.service.ts:937-959 | The two names in their brackets, tenant first, each whole or cut with an ellipsis and with spaces for control characters, then the notice with the word of its own action |
| `MailSubject.CutsAreFair` | backend/src/scan-events/scan-events.service.ts:946-952 | When something is cut, no name ends below 120 characters and a name of at most 120 stays whole |

## Left out

Assumptions of the model:

- In `MailProtocol` the recovery of a row is one step. The code has three statements; `MailRecovery` has them too. The theorems that need the one step are named below.
- An answer that says "not accepted" (transient, permanent, suppressed, or a sandbox failure) is true: the provider did not accept that submission. Accepted, unknown and missing answers carry no such promise.
- When a location or a person is purged, no unguarded request on it is open between its read and its write. `PendingAdmitsNoRequest` and `OpenAtPurgeWasOpenAtScheduling` say that such a request would have been open for the whole fourteen days, `RevivesExactly` what it would do. The purge of a tenant assumes nothing of the kind.
- `MailTheorems.SubmissionsArePaced` assumes that no attempt of the last second is deleted; without purges this is proved.
- One deployment uses one provider kind, and identifiers are random and never repeat.
- Jobs from before the send-window migration start out queued, sent or failed, never retried and without deadlines, each with its scan. Every theorem about reachable states has this restriction. A job of that time that had been retried would add its earlier retries to `CallsAreAccounted` and `CallsAreStillAccounted`, whose count starts with the attempt rows; one that was `processing` has no claim time, so recovery never lists it (the claim check of the migration is not validated for such rows).
- The login limiter and the person-code generator are given clocks that never go back, and the login limits and the window are whole numbers.
- Hashes and fingerprints (sha256, HMAC) are injective.
- Source addresses and tenant identifiers hold no `|`, which joins the login limiter's fourth key (`KeysNameTheirDimension`).

Not modelled:

- Staging: tenant deletion there is immediate and does not check for mail in flight; the environment is fixed to production for deletion, retention and purge.
- The SQL engine, Prisma, locks and isolation: each transaction is atomic because its advisory or row lock makes it so; LIMIT and ORDER BY of the work lists are covered by proving the loops for every list.
- The license check and the status of the location and person at a claim are arbitrary inputs of the gate.
- "+ 1 year" is a parameter of every lemma that uses it; only the restore window needs that it moves forward.
- Liveness: no claim that a rate-deferred job is ever admitted under unbounded contention, or that retention ever empties its backlog.
- Code collisions across tenants' person codes, and the retry of createPerson, which repeats an insert with the next generated code.
- Letter-case folding of names and trimming of inputs: names are compared, and identifiers limited, in one already normalised form.
- Retention of the two audit logs: a guarded single-row delete with the same deadline test.
- Users, devices, sessions and names in the tenant purge: unconditional rewrites that no other property depends on.
- CSV exports, history item mapping, e-mail masking, audit redaction, claim-latency percentiles and metrics: pure formatting and arithmetic.
- JSON and base64url of cursors, and their validation: a cursor is the key it encodes.
- Controllers, validation decorators, timers, cookies, tokens, passwords, and the frontend beyond the printed payload.
- MailRuns.StepKeepsGood: takes the recovery of a row as one step; `FineStepKeepsGood` is the invariant for three statements, without the pacing of rows, which recovery does not touch.
- MailRuns.ReachableIsGood: takes the recovery of a row as one step; `FineReachableIsGood` does not.
- MailTheorems.AtMostOnePossibleDelivery: takes the recovery of a row as one step; `OnePossibleDeliveryUnlessOverwritten` has the exception otherwise.
- MailTheorems.CallOpenMeansUnclaimable: takes the recovery of a row as one step; `ClaimableOnlyBesideOverwritten` has the exception otherwise.
- MailTheorems.CallsAreAccounted: takes the recovery of a row as one step; `CallsAreStillAccounted` counts by answers instead of rows and needs no such condition.
- RetentionTheorems.PurgedExactlyWhenSettled: takes the recovery of a row as one step; `PurgedExactlyWhenQuiet` and `InFlightIsUnfinishedOrOverwritten` do not.
- RetentionTheorems.VerdictSettles: takes the recovery of a row as one step; `LateAnswerIsOverwritten` says which verdicts settle nothing when recovery is in between.
- MailProgress.PoisonedForever: takes the recovery of a row as one step, as do `RecoveryRaisesExactly` and `RecoveryOfPoisonedListRaises`, which are about recoveries that run undisturbed.
- MailDatabase.Database.PurgeTenantRecords: does not model the count comparison after the deletes, because the counts are taken in the same transaction; the rows of users, devices and the rest are left out.
- MailDatabase.Database.RunOnce: takes one clock reading for all its transactions, and which of them raises, as arguments.
- DeletionPurge.LocationService.CreateLocation: takes the world as unchanged between its attempts; whether an insert breaks a unique index is part of each draw.
- ScanIntake.CreateScan: does not model the authorization, license and location checks before the transaction, because they read rows and change none.
- MailDatabase.Database.CreateScanEvent: takes the result of the duplicate lookup as an argument, because the lookup is one SQL query.
- DeletionPurge.DeletionPurgeService.ProcessDueDeletions: takes the two selected lists as arguments, because the selections are SQL queries.
