/**
 When a job can go on: the processor's selection and the claim guard, and the two situations in
 which the code leaves a job or a scan family where it is for good.
 */
module MailProgress {
  import opened Base
  import opened MailTables
  import opened ProviderVerdict
  import opened RateLimiter
  import opened MailTransactions
  import opened ScanIntake
  import opened Retention
  import opened MailProtocol
  import opened MailInvariant
  import opened IntakeInvariant
  import opened MailRuns
  import opened MailTheorems

  // ---- selection and claim ------------------------------------------------------------------------

  /**
   The processor compares microseconds, the claim guard truncates to milliseconds; because deadline
   columns hold whole milliseconds they agree on every row at every instant. A person may claim
   only what the processor may, and not a job that is still waiting.
   */
  lemma SelectionAgreesWithClaim(j: Job, nowUs: Us)
    ensures Due(j, nowUs) <==> Claimable(j, true, nowUs)
    ensures Claimable(j, false, nowUs) <==> Claimable(j, true, nowUs) && j.status != Waiting
  {
  }

  /** The instant from which a waiting or queued job is due. */
  function DueFrom(j: Job): Us
    requires ChecksHold(j) && (j.status == Waiting || j.status == Queued)
  {
    if j.status == Waiting then j.sendNotBefore.value * 1000
    else if j.scheduledAt.Some? then j.scheduledAt.value * 1000
    else 0
  }

  /**
   Every reachable waiting or queued job is selected, and its claim succeeds, at every instant from
   its due time on; and before its due time it is not, unless it is a legacy job, which is always due.
   */
  lemma NoJobIsStranded(s: State, job: JobId)
    requires Reachable(s) && job in s.db.jobs && (s.db.jobs[job].status == Waiting || s.db.jobs[job].status == Queued)
    ensures ChecksHold(s.db.jobs[job])
    ensures forall nowUs: Us | nowUs >= DueFrom(s.db.jobs[job]) ::
              Due(s.db.jobs[job], nowUs) && Claims(s.db, job, s.db.jobs[job].tenant, true, nowUs)
    ensures s.db.jobs[job].sendNotBefore.Some? ==>
              forall nowUs: Us | nowUs < DueFrom(s.db.jobs[job]) :: !Due(s.db.jobs[job], nowUs)
  {
    ReachableIsGood(s);
    assert JobOk(s.db.jobs[job]);
    forall nowUs: Us ensures Due(s.db.jobs[job], nowUs) <==> Claimable(s.db.jobs[job], true, nowUs) {
      SelectionAgreesWithClaim(s.db.jobs[job], nowUs);
    }
  }

  /**
   Cancellation and sending never overlap and leave no gap: at every instant a reachable waiting
   job can be canceled exactly if the processor cannot claim it.
   */
  lemma CancelOrSend(s: State, job: JobId, nowUs: Us)
    requires Reachable(s) && job in s.db.jobs && s.db.jobs[job].status == Waiting
    ensures Cancelable(s.db, s.db.jobs[job].scan, job, nowUs) <==> !Claims(s.db, job, s.db.jobs[job].tenant, true, nowUs)
    ensures !Claims(s.db, job, s.db.jobs[job].tenant, false, nowUs)
  {
    ReachableIsGood(s);
    assert JobOk(s.db.jobs[job]);
  }

  /** The window in which a scan can be canceled: its first ten seconds, to the millisecond of the columns. */
  lemma TenSecondsToCancel(s: State, r: ScanRequest, nowUs: Us, scan: ScanId, job: JobId, laterUs: Us)
    requires Good(s) && Enabled(s, ScanStep(r, nowUs, scan, job)) && CreateScan(s.db, r, nowUs, scan, job).outcome.Created?
    ensures laterUs <= nowUs + 10_000_000 - 1_000 ==> Cancelable(CreateScan(s.db, r, nowUs, scan, job).db, scan, job, laterUs)
    ensures laterUs >= nowUs + 10_000_000 + 1_000 ==> !Cancelable(CreateScan(s.db, r, nowUs, scan, job).db, scan, job, laterUs)
  {
  }

  /**
   After a transient refusal the job is due again 30 s, 2 min and 10 min later, not before; the
   fourth refusal is final.
   */
  lemma TransientRefusalBacksOff(
    db: Db, job: JobId, a: AttemptId, tenant: TenantId, retryCount: nat, reason: Reason, now: Ms, auto: bool, laterUs: Us)
    requires RowsFound(db, job, a, tenant)
    ensures var db' := RecordVerdict(db, job, a, tenant, retryCount, Retry(reason), now);
            var delay := if retryCount == 0 then 30 * 1_000 else if retryCount == 1 then 2 * 60 * 1_000 else 10 * 60 * 1_000;
            && (retryCount < 3 ==> (Claims(db', job, tenant, auto, laterUs) <==> TruncMs(laterUs) >= now + delay))
            && (retryCount >= 3 ==> db'.jobs[job].status == Failed && db'.jobs[job].scheduledAt.None?)
            && db'.jobs[job].retryCount == retryCount + 1
  {
  }

  const STALE_CLAIM_MS: Ms := 60_000

  /** A claim is stale for the processor from sixty seconds after it on, to the millisecond of the column. */
  lemma StaleAfterSixtySeconds(db: Db, a: AttemptId, job: JobId, tenant: TenantId, auto: bool, nowUs: Us, processorNow: Ms)
    requires Claims(db, job, tenant, auto, nowUs)
    ensures IsStale(ClaimJob(db, a, job, tenant, auto, nowUs).jobs[job], processorNow - STALE_CLAIM_MS) <==>
            processorNow - RoundMs(nowUs) >= 60 * 1_000
  {
  }

  lemma DeferralReservesNothing(db: Db, job: JobId, a: AttemptId, tenant: TenantId, nowUs: Us)
    requires Decision(db.attempts, nowUs).Defer? && (a in db.attempts ==> db.attempts[a].invokedAt.None?)
    ensures Reservations(Reserve(db, job, a, tenant, nowUs).attempts) == Reservations(db.attempts)
  {
  }

  lemma ClaimReservesNothing(db: Db, a: AttemptId, job: JobId, tenant: TenantId, auto: bool, nowUs: Us)
    requires a !in db.attempts
    ensures Reservations(ClaimJob(db, a, job, tenant, auto, nowUs).attempts) == Reservations(db.attempts)
  {
  }

  /**
   A deferred job can be claimed again from its deferred time on and not before, by the processor
   and by a person; and the claim then gets its reservation, if no other job was admitted meanwhile.
   */
  lemma DeferredThenAdmitted(db: Db, job: JobId, a: AttemptId, tenant: TenantId, nowUs: Us, b: AttemptId, auto: bool, laterUs: Us)
    requires PacedRows(db.attempts) && nowUs >= 0 && Decision(db.attempts, nowUs).Defer?
    requires RowsFound(db, job, a, tenant) && db.attempts[a].invokedAt.None? && b !in db.attempts
    ensures var deferred := Reserve(db, job, a, tenant, nowUs);
            && (Claims(deferred, job, tenant, auto, laterUs) <==> TruncMs(laterUs) >= Decision(db.attempts, nowUs).scheduledAt)
            && (Claims(deferred, job, tenant, auto, laterUs) ==>
                  Decision(ClaimJob(deferred, b, job, tenant, auto, laterUs).attempts, laterUs).Admit?)
  {
    var deferred := Reserve(db, job, a, tenant, nowUs);
    DeferralReservesNothing(db, job, a, tenant, nowUs);
    if Claims(deferred, job, tenant, auto, laterUs) {
      ClaimReservesNothing(deferred, b, job, tenant, auto, laterUs);
      ReserveAgain(db.attempts, nowUs, laterUs);
      SameReservationsSameDecision(db.attempts, ClaimJob(deferred, b, job, tenant, auto, laterUs).attempts, laterUs);
    }
  }

  // ---- recovery that cannot succeed ---------------------------------------------------------------

  /**
   A claimed job that was rate-deferred before it was ever retried: it has a scheduled time, a
   send window and no retries. Giving it back as "waiting" would break the CHECK constraint that
   a waiting job has no scheduled time.
   */
  predicate Deferred0(j: Job) {
    j.retryCount == 0 && j.sendNotBefore.Some? && j.scheduledAt.Some?
  }

  /** A claim whose worker died before it reached the provider, on such a job. */
  ghost predicate Poisoned(s: State, job: JobId) {
    && job in s.db.jobs && s.db.jobs[job].status == Processing && Deferred0(s.db.jobs[job])
    && s.db.jobs[job].claimAttempt.Some?
    && var a := s.db.jobs[job].claimAttempt.value;
    && a in s.db.attempts && s.db.attempts[a].job == job && s.db.attempts[a].status == Claimed
    && a in s.workers && !s.workers[a].alive
  }

  lemma RecoveryOfOpenClaim(db: Db, job: JobId, a: AttemptId, now: Ms)
    requires job in db.jobs && db.jobs[job].status == Processing && db.jobs[job].claimAttempt == Some(a) && JobOk(db.jobs[job])
    requires a in db.attempts && db.attempts[a].completedAt.None?
    ensures var j := db.jobs[job];
            var r := RecoverRow(db, StaleRowOf(job, j), now);
            && (r.Raised? <==> db.attempts[a].invokedAt.None? && Deferred0(j))
            && (!r.Raised? ==>
                  && r.Recovered? && job in r.db.jobs
                  && r.db.jobs[job].status == if db.attempts[a].invokedAt.Some? then DeliveryUnknown
                                              else if j.retryCount == 0 && j.sendNotBefore.Some? then Waiting else Queued)
  {
  }

  /**
   Exactly when recovery of a freshly listed stale job raises: the claim never reached the
   provider and the job had been rate-deferred before its first retry. In every other case
   recovery succeeds, and leaves the job waiting, queued or of unknown outcome.
   */
  lemma RecoveryRaisesExactly(s: State, job: JobId, now: Ms)
    requires Reachable(s) && job in s.db.jobs && s.db.jobs[job].status == Processing
    ensures s.db.jobs[job].claimAttempt.Some? && s.db.jobs[job].claimAttempt.value in s.db.attempts
    ensures var j := s.db.jobs[job];
            var uninvoked := s.db.attempts[j.claimAttempt.value].invokedAt.None?;
            var r := RecoverRow(s.db, StaleRowOf(job, j), now);
            && (r.Raised? <==> uninvoked && Deferred0(j))
            && (!r.Raised? ==>
                  && r.Recovered? && job in r.db.jobs
                  && r.db.jobs[job].status == if !uninvoked then DeliveryUnknown
                                              else if j.retryCount == 0 && j.sendNotBefore.Some? then Waiting else Queued)
  {
    ReachableIsGood(s);
    assert JobOk(s.db.jobs[job]);
    RecoveryOfOpenClaim(s.db, job, s.db.jobs[job].claimAttempt.value, now);
  }

  lemma {:induction false} OneStep(s: State, x: Step)
    requires Enabled(s, x)
    ensures ValidRun(s, [x]) && Exec(s, [x]) == Apply(s, x)
  {
    assert [x][1..] == [];
    assert ValidRun(Apply(s, x), []) && Exec(Apply(s, x), []) == Apply(s, x);
  }

  lemma {:induction false} TwoSteps(s: State, x: Step, y: Step)
    requires Enabled(s, x) && Enabled(Apply(s, x), y)
    ensures ValidRun(s, [x, y]) && Exec(s, [x, y]) == Apply(Apply(s, x), y)
  {
    assert [x, y][1..] == [y];
    OneStep(Apply(s, x), y);
  }

  /** Any rate-deferred job whose next claim dies before its reservation ends up in that state. */
  lemma {:induction false} DeferredClaimThatDiesIsPoisoned(s: State, job: JobId, a: AttemptId, nowUs: Us, active: bool)
    requires Reachable(s) && job in s.db.jobs && s.db.jobs[job].status == Queued && Deferred0(s.db.jobs[job])
    requires a !in s.workers && a !in s.db.attempts && TruncMs(nowUs) >= s.db.jobs[job].scheduledAt.value
    ensures var run := [ClaimStep(a, job, s.db.jobs[job].tenant, true, nowUs, active), CrashStep(a)];
            ValidRun(s, run) && Poisoned(Exec(s, run), job)
  {
    var tenant := s.db.jobs[job].tenant;
    var claim, crash := ClaimStep(a, job, tenant, true, nowUs, active), CrashStep(a);
    var s1 := AfterClaim(s, a, job, tenant, true, nowUs, active);
    assert Claims(s.db, job, tenant, true, nowUs) && Enabled(s, claim) && Apply(s, claim) == s1;
    assert Enabled(s1, crash);
    TwoSteps(s, claim, crash);
    assert Poisoned(s1.(workers := s1.workers[a := s1.workers[a].(alive := false)]), job);
  }

  lemma OtherWorkersAreElsewhere(s: State, job: JobId, b: AttemptId)
    requires Good(s) && Poisoned(s, job) && b in s.workers && s.workers[b].alive && s.workers[b].phase != Finished
    ensures s.workers[b].job != job && s.db.jobs[job].claimAttempt != Some(b)
  {
    assert WorkerOk(s, b);
  }

  /** The job row and its attempt row are as they were. */
  ghost predicate StillThere(db: Db, db': Db, job: JobId, a: AttemptId) {
    && job in db.jobs && a in db.attempts
    && job in db'.jobs && db'.jobs[job] == db.jobs[job] && a in db'.attempts && db'.attempts[a] == db.attempts[a]
  }

  /** The rows of a poisoned claim, without the worker. */
  ghost predicate PoisonedRows(db: Db, job: JobId, a: AttemptId) {
    && job in db.jobs && Deferred0(db.jobs[job]) && db.jobs[job].status == Processing && db.jobs[job].claimAttempt == Some(a)
    && a in db.attempts && db.attempts[a].job == job && AttemptShape(db.attempts[a]) && db.attempts[a].status == Claimed
  }

  /** A stale row that names this very claim, or a closed or vanished claim of this job, or another job. */
  ghost predicate HarmlessRow(db: Db, job: JobId, a: AttemptId, row: StaleRow)
    requires job in db.jobs
  {
    && row.claim.Some?
    && (row.claim.value == a ==> row.job == job && row.retryCount == 0 && row.sendNotBefore.Some? && row.tenant == db.jobs[job].tenant)
    && (row.claim.value != a && row.job == job && row.claim.value in db.attempts ==> db.attempts[row.claim.value].completedAt.Some?)
  }

  lemma RecoveryLeaves(db: Db, job: JobId, a: AttemptId, row: StaleRow, now: Ms)
    requires PoisonedRows(db, job, a) && HarmlessRow(db, job, a, row)
    ensures StillThere(db, AfterRecovery(db, RecoverRow(db, row, now)), job, a)
    ensures row.claim.value == a ==> RecoverRow(db, row, now).Raised?
  {
  }

  lemma HarmlessStays(db: Db, job: JobId, a: AttemptId, row: StaleRow, other: StaleRow, now: Ms)
    requires PoisonedRows(db, job, a) && HarmlessRow(db, job, a, row) && HarmlessRow(db, job, a, other)
    ensures job in AfterRecovery(db, RecoverRow(db, row, now)).jobs
    ensures HarmlessRow(AfterRecovery(db, RecoverRow(db, row, now)), job, a, other)
  {
    RecoveryLeaves(db, job, a, row, now);
  }

  /** A list that contains the poisoned claim raises, wherever in the list the claim stands. */
  lemma {:induction false} PoisonedListRaises(db: Db, job: JobId, a: AttemptId, rows: seq<StaleRow>, i: nat, now: Ms)
    requires PoisonedRows(db, job, a) && (forall r | r in rows :: HarmlessRow(db, job, a, r))
    requires i < |rows| && rows[i].claim == Some(a)
    ensures RecoverAll(db, rows, now).raised
    decreases |rows|
  {
    var row := rows[0];
    RecoveryLeaves(db, job, a, row, now);
    if i > 0 && !RecoverRow(db, row, now).Raised? {
      var db' := AfterRecovery(db, RecoverRow(db, row, now));
      forall r | r in rows[1..] ensures HarmlessRow(db', job, a, r) { HarmlessStays(db, job, a, row, r, now); }
      PoisonedListRaises(db', job, a, rows[1..], i - 1, now);
    }
  }

  lemma StaleRowsAreHarmless(s: State, job: JobId, row: StaleRow)
    requires Good(s) && Poisoned(s, job) && row in s.stale
    ensures PoisonedRows(s.db, job, s.db.jobs[job].claimAttempt.value)
    ensures HarmlessRow(s.db, job, s.db.jobs[job].claimAttempt.value, row)
  {
    var a := s.db.jobs[job].claimAttempt.value;
    if row.claim.value != a && row.job == job && row.claim.value in s.db.attempts {
      NoRival(s, a, job, row.claim.value);
    }
  }

  /**
   As long as one poisoned claim is in the list that recovery read, the call raises. The processor
   awaits recovery before it selects due jobs, so its pass ends without claiming any job at all.
   */
  lemma {:induction false} RecoveryOfPoisonedListRaises(s: State, job: JobId, rows: seq<StaleRow>, now: Ms)
    requires Good(s) && Poisoned(s, job) && (forall r | r in rows :: r in s.stale)
    requires StaleRowOf(job, s.db.jobs[job]) in rows
    ensures RecoverAll(s.db, rows, now).raised
  {
    var i :| 0 <= i < |rows| && rows[i] == StaleRowOf(job, s.db.jobs[job]);
    forall r | r in rows ensures HarmlessRow(s.db, job, s.db.jobs[job].claimAttempt.value, r) { StaleRowsAreHarmless(s, job, r); }
    StaleRowsAreHarmless(s, job, rows[i]);
    PoisonedListRaises(s.db, job, s.db.jobs[job].claimAttempt.value, rows, i, now);
  }

  lemma RecoverySkipsOrRaises(s: State, job: JobId, row: StaleRow, now: Ms)
    requires Good(s) && Poisoned(s, job) && row in s.stale
    ensures StillThere(s.db, AfterRecovery(s.db, RecoverRow(s.db, row, now)), job, s.db.jobs[job].claimAttempt.value)
  {
    StaleRowsAreHarmless(s, job, row);
    RecoveryLeaves(s.db, job, s.db.jobs[job].claimAttempt.value, row, now);
  }

  lemma FamilyPurgeSkips(s: State, job: JobId, addYear: Calendar, tenant: TenantId, scan: ScanId, nowUs: Us)
    requires Good(s) && Poisoned(s, job)
    ensures StillThere(s.db, PurgeFamily(addYear, s.db, tenant, scan, nowUs).db, job, s.db.jobs[job].claimAttempt.value)
  {
    var p := PurgeFamily(addYear, s.db, tenant, scan, nowUs);
    if p.outcome == Deleted { assert s.db.jobs[job].scan != scan; }
  }

  lemma TenantPurgeSkips(s: State, job: JobId, tenant: TenantId, due: bool)
    requires Good(s) && Poisoned(s, job)
    ensures StillThere(s.db, PurgeTenant(s.db, tenant, due), job, s.db.jobs[job].claimAttempt.value)
  {
    if s.db.jobs[job].tenant == tenant { assert TenantMailInFlight(s.db, tenant); }
  }

  lemma ClaimLeaves(db: Db, b: AttemptId, id: JobId, tenant: TenantId, auto: bool, nowUs: Us, job: JobId, a: AttemptId)
    requires PoisonedRows(db, job, a) && b != a
    ensures StillThere(db, ClaimJob(db, b, id, tenant, auto, nowUs), job, a)
  {
  }

  lemma CancelLeaves(db: Db, scan: ScanId, id: JobId, nowUs: Us, job: JobId, a: AttemptId)
    requires PoisonedRows(db, job, a)
    ensures StillThere(db, CancelScan(db, scan, id, nowUs), job, a)
  {
  }

  lemma DeactivationLeaves(db: Db, tenant: TenantId, location: LocationId, reason: Reason, job: JobId, a: AttemptId)
    requires PoisonedRows(db, job, a)
    ensures StillThere(db, FailQueued(db, tenant, location, reason), job, a)
  {
  }

  lemma IntakeLeaves(s: State, r: ScanRequest, nowUs: Us, scan: ScanId, id: JobId, job: JobId)
    requires Good(s) && Poisoned(s, job) && FreshJob(s, id)
    ensures StillThere(s.db, CreateScan(s.db, r, nowUs, scan, id).db, job, s.db.jobs[job].claimAttempt.value)
  {
    IntakeWrites(s.db, r, nowUs, scan, id);
  }

  lemma WorkerStepLeaves(s: State, step: Step, job: JobId)
    requires Good(s) && Enabled(s, step) && Poisoned(s, job)
    requires WorkerStep(step)
    ensures StillThere(s.db, Apply(s, step).db, job, s.db.jobs[job].claimAttempt.value)
  {
    OtherWorkersAreElsewhere(s, job, step.attempt);
    WorkerWritesOnly(s, step);
  }

  /** Steps that leave jobs and attempts alone. */
  predicate QuietStep(step: Step) {
    step.ArriveStep? || step.CrashStep? || step.ListStaleStep? || step.TenantStep?
  }

  lemma QuietStepLeaves(s: State, step: Step, job: JobId, a: AttemptId)
    requires Enabled(s, step) && QuietStep(step) && PoisonedRows(s.db, job, a)
    ensures StillThere(s.db, Apply(s, step).db, job, a)
  {
  }

  lemma PurgeStepLeaves(s: State, step: Step, job: JobId)
    requires Good(s) && Enabled(s, step) && Poisoned(s, job) && (step.PurgeFamilyStep? || step.PurgeTenantStep?)
    ensures StillThere(s.db, Apply(s, step).db, job, s.db.jobs[job].claimAttempt.value)
  {
    match step
    case PurgeFamilyStep(tenant, scan, addYear, nowUs) => FamilyPurgeSkips(s, job, addYear, tenant, scan, nowUs);
    case PurgeTenantStep(tenant, due) => TenantPurgeSkips(s, job, tenant, due);
  }

  lemma IntakeStepLeaves(s: State, step: Step, job: JobId)
    requires Good(s) && Enabled(s, step) && Poisoned(s, job) && (step.ScanStep? || step.CancelStep?)
    ensures StillThere(s.db, Apply(s, step).db, job, s.db.jobs[job].claimAttempt.value)
  {
    match step
    case ScanStep(r, nowUs, scan, id) => IntakeLeaves(s, r, nowUs, scan, id, job);
    case CancelStep(scan, id, nowUs) => CancelLeaves(s.db, scan, id, nowUs, job, s.db.jobs[job].claimAttempt.value);
  }

  lemma QueueStepLeaves(s: State, step: Step, job: JobId, a: AttemptId)
    requires Enabled(s, step) && PoisonedRows(s.db, job, a) && (step.ClaimStep? || step.FailQueuedStep?)
    ensures StillThere(s.db, Apply(s, step).db, job, a)
  {
    match step
    case ClaimStep(b, id, tenant, auto, nowUs, _) => ClaimLeaves(s.db, b, id, tenant, auto, nowUs, job, a);
    case FailQueuedStep(tenant, location, reason) => DeactivationLeaves(s.db, tenant, location, reason, job, a);
  }

  lemma PoisonedRowsStay(s: State, step: Step, job: JobId)
    requires Good(s) && Enabled(s, step) && Poisoned(s, job)
    ensures StillThere(s.db, Apply(s, step).db, job, s.db.jobs[job].claimAttempt.value)
  {
    if WorkerStep(step) {
      WorkerStepLeaves(s, step, job);
    } else if QuietStep(step) {
      QuietStepLeaves(s, step, job, s.db.jobs[job].claimAttempt.value);
    } else if step.ScanStep? || step.CancelStep? {
      IntakeStepLeaves(s, step, job);
    } else if step.PurgeFamilyStep? || step.PurgeTenantStep? {
      PurgeStepLeaves(s, step, job);
    } else if step.RecoverStep? {
      RecoverySkipsOrRaises(s, job, step.row, step.now);
    } else {
      QueueStepLeaves(s, step, job, s.db.jobs[job].claimAttempt.value);
    }
  }

  /** A dead worker stays dead. */
  lemma DeadStaysDead(s: State, step: Step, a: AttemptId)
    requires Enabled(s, step) && a in s.workers && !s.workers[a].alive
    ensures a in Apply(s, step).workers && !Apply(s, step).workers[a].alive
  {
    match step
    case GateStep(_, _, _) =>
    case ReserveStep(_, _) =>
    case _ =>
  }

  lemma PoisonedStep(s: State, step: Step, job: JobId)
    requires Good(s) && Enabled(s, step) && Poisoned(s, job)
    ensures StillThere(s.db, Apply(s, step).db, job, s.db.jobs[job].claimAttempt.value)
    ensures Poisoned(Apply(s, step), job)
  {
    PoisonedRowsStay(s, step, job);
    DeadStaysDead(s, step, s.db.jobs[job].claimAttempt.value);
  }

  /**
   Such a job is stuck for good: in every run it keeps its row and its open claim. It is never sent,
   never given back, and its scan family is purged neither by retention nor with its tenant.
   */
  lemma {:induction false} PoisonedForever(s: State, steps: seq<Step>, job: JobId)
    requires Good(s) && ValidRun(s, steps) && Poisoned(s, job)
    ensures Poisoned(Exec(s, steps), job)
    ensures StillThere(s.db, Exec(s, steps).db, job, s.db.jobs[job].claimAttempt.value)
    decreases |steps|
  {
    if steps != [] {
      PoisonedStep(s, steps[0], job);
      StepKeepsGood(s, steps[0]);
      PoisonedForever(Apply(s, steps[0]), steps[1..], job);
    }
  }
}
