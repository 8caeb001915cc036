/**
 The delivery guarantees, for every reachable state and every run: no interleaving of workers,
 crashes, recovery, late returns, cancellation, deactivation, retention and tenant purge breaks them.
 */
module MailTheorems {
  import opened Base
  import opened MailTables
  import opened ProviderVerdict
  import opened RateLimiter
  import opened MailTransactions
  import opened ScanIntake
  import opened Retention
  import opened MailProtocol
  import opened MailInvariant
  import opened IntakeInvariant
  import opened MailRuns

  // ---- at most one delivery -----------------------------------------------------------------------

  lemma ReachableLastCalls(s: State)
    requires Reachable(s)
    ensures AttemptsOk(s) && LastCallIsCurrent(s)
  {
    ReachableIsGood(s);
  }

  lemma OneLastCall(s: State, a: AttemptId, b: AttemptId)
    requires AttemptsOk(s) && LastCallIsCurrent(s)
    requires a in s.db.attempts && b in s.db.attempts && s.db.attempts[a].job == s.db.attempts[b].job
    requires LastCall(s.db.attempts[a]) && LastCall(s.db.attempts[b])
    ensures a == b
  {
  }

  /** At most one recorded attempt of a job may have been delivered. */
  lemma AtMostOnePossibleDelivery(s: State, a: AttemptId, b: AttemptId)
    requires Reachable(s)
    requires a in s.db.attempts && b in s.db.attempts && s.db.attempts[a].job == s.db.attempts[b].job
    requires MayBeDelivered(s.db.attempts[a]) && MayBeDelivered(s.db.attempts[b])
    ensures a == b
  {
    ReachableLastCalls(s);
    OneLastCall(s, a, b);
  }

  /** The provider accepts at most one message per job, even for jobs whose rows are long deleted. */
  lemma AtMostOneMessage(s: State, a: AttemptId, b: AttemptId)
    requires Reachable(s) && a in s.delivered && b in s.delivered
    requires a in s.workers && b in s.workers && s.workers[a].job == s.workers[b].job
    ensures a == b
  {
    ReachableIsGood(s);
  }

  lemma LastCallUnclaimable(s: State, a: AttemptId, auto: bool, nowUs: Us)
    requires AttemptsOk(s) && LastCallIsCurrent(s) && a in s.db.attempts && LastCall(s.db.attempts[a])
    ensures s.db.attempts[a].job in s.db.jobs && !Claimable(s.db.jobs[s.db.attempts[a].job], auto, nowUs)
  {
  }

  /** While a job has an attempt that may have been delivered, nothing can claim it. */
  lemma CallOpenMeansUnclaimable(s: State, a: AttemptId, auto: bool, nowUs: Us)
    requires Reachable(s) && a in s.db.attempts && MayBeDelivered(s.db.attempts[a])
    ensures s.db.attempts[a].job in s.db.jobs && !Claimable(s.db.jobs[s.db.attempts[a].job], auto, nowUs)
  {
    ReachableLastCalls(s);
    LastCallUnclaimable(s, a, auto, nowUs);
  }

  // ---- attempt accounting -------------------------------------------------------------------------

  ghost function InvokedAttempts(attempts: map<AttemptId, Attempt>, job: JobId): set<AttemptId> {
    set a | a in attempts && attempts[a].job == job && attempts[a].invokedAt.Some?
  }

  ghost predicate HasLastCall(attempts: map<AttemptId, Attempt>, job: JobId) {
    exists a :: a in attempts && attempts[a].job == job && LastCall(attempts[a])
  }

  /** In one attempts table, the calls of a job are its transient ends and at most one more. */
  lemma CallsSplit(attempts: map<AttemptId, Attempt>, job: JobId)
    requires forall a, b | a in attempts && b in attempts && attempts[a].job == job && attempts[b].job == job
                           && LastCall(attempts[a]) && LastCall(attempts[b]) :: a == b
    ensures |InvokedAttempts(attempts, job)| == |TransientEnds(attempts, job)| + (if HasLastCall(attempts, job) then 1 else 0)
  {
    var all, ends := InvokedAttempts(attempts, job), TransientEnds(attempts, job);
    if HasLastCall(attempts, job) {
      var a :| a in attempts && attempts[a].job == job && LastCall(attempts[a]);
      assert all == ends + {a};
    } else {
      assert all == ends;
    }
  }

  /**
   A job's provider calls number retryCount, plus one if some call is open or ended otherwise than
   transiently; and never more than four, however many deferrals, blocks and abandonments occurred.
   */
  lemma CallsAreAccounted(s: State, job: JobId)
    requires Reachable(s) && job in s.db.jobs
    ensures |InvokedAttempts(s.db.attempts, job)| ==
            s.db.jobs[job].retryCount + (if HasLastCall(s.db.attempts, job) then 1 else 0)
    ensures |InvokedAttempts(s.db.attempts, job)| <= 4
  {
    ReachableIsGood(s);
    CallsSplit(s.db.attempts, job);
    assert JobOk(s.db.jobs[job]);
    assert HasLastCall(s.db.attempts, job) ==> s.db.jobs[job].retryCount < MAX_RETRY_COUNT;
  }

  // ---- rows of a worker survive ---------------------------------------------------------------------

  /**
   A live worker that holds a claim, has a reservation or waits for the provider always finds the
   rows it is about to update, whatever retention, tenant purge and recovery did meanwhile.
   */
  lemma WorkersFindTheirRows(s: State, a: AttemptId)
    requires Reachable(s) && a in s.workers && s.workers[a].alive && s.workers[a].phase != Finished
    ensures RowsFound(s.db, s.workers[a].job, a, s.workers[a].tenant)
    ensures s.db.attempts[a].job == s.workers[a].job
  {
    ReachableIsGood(s);
    HeldJobNotCanceled(s, a);
  }

  // ---- cancellation -----------------------------------------------------------------------------

  /** A waiting or canceled job was never handed to the provider, though recovery may have returned it to waiting. */
  lemma WaitingAndCanceledWereNeverCalled(s: State, job: JobId)
    requires Reachable(s) && job in s.db.jobs && (s.db.jobs[job].status == Waiting || s.db.jobs[job].status == Canceled)
    ensures InvokedAttempts(s.db.attempts, job) == {}
    ensures forall a | a in s.delivered :: a in s.workers && s.workers[a].job != job
  {
    ReachableIsGood(s);
    NeverCalled(s, job);
  }

  lemma NeverCalled(s: State, job: JobId)
    requires Inv(s) && job in s.db.jobs && (s.db.jobs[job].status == Waiting || s.db.jobs[job].status == Canceled)
    ensures InvokedAttempts(s.db.attempts, job) == {}
    ensures forall a | a in s.workers && s.workers[a].job == job :: !s.workers[a].mayArrive
  {
    assert JobOk(s.db.jobs[job]);
    assert TransientEnds(s.db.attempts, job) == {};
    forall a | a in s.db.attempts && s.db.attempts[a].job == job ensures s.db.attempts[a].invokedAt.None? {
      assert a !in TransientEnds(s.db.attempts, job);
      assert !LastCall(s.db.attempts[a]);
    }
    forall a | a in s.workers && s.workers[a].job == job ensures !s.workers[a].mayArrive {
      assert WorkerOk(s, a);
      assert a in s.db.attempts ==> s.db.attempts[a].invokedAt.None?;
    }
  }

  /** A scan carries a cancellation time exactly when its job is canceled. */
  lemma CanceledOnBothRows(s: State, scan: ScanId, job: JobId)
    requires Reachable(s) && scan in s.db.scans && IsJobOf(s.db, scan, job)
    ensures s.db.scans[scan].canceledAt.Some? <==> s.db.jobs[job].status == Canceled
  {
    ReachableIsGood(s);
  }

  // ---- terminal states ------------------------------------------------------------------------------

  predicate Final(j: Job) { j.status == Sent || j.status == Failed || j.status == Canceled }

  /** The row is as before, or gone. */
  ghost predicate RowFrozen(db: Db, db': Db, job: JobId) {
    job in db'.jobs ==> job in db.jobs && db'.jobs[job] == db.jobs[job]
  }

  ghost predicate FinalOrGone(db: Db, job: JobId) {
    job in db.jobs ==> Final(db.jobs[job])
  }

  lemma ClaimFreezes(db: Db, a: AttemptId, id: JobId, tenant: TenantId, auto: bool, nowUs: Us, job: JobId)
    requires FinalOrGone(db, job)
    ensures RowFrozen(db, ClaimJob(db, a, id, tenant, auto, nowUs), job)
  {
  }

  lemma CancelFreezes(db: Db, scan: ScanId, id: JobId, nowUs: Us, job: JobId)
    requires FinalOrGone(db, job)
    ensures RowFrozen(db, CancelScan(db, scan, id, nowUs), job)
  {
  }

  lemma RecoverFreezes(db: Db, row: StaleRow, now: Ms, job: JobId)
    requires FinalOrGone(db, job)
    ensures RowFrozen(db, AfterRecovery(db, RecoverRow(db, row, now)), job)
  {
  }

  lemma PurgeFreezes(addYear: Calendar, db: Db, tenant: TenantId, scan: ScanId, nowUs: Us, job: JobId)
    ensures RowFrozen(db, PurgeFamily(addYear, db, tenant, scan, nowUs).db, job)
  {
  }

  /** No row is added or removed, and only the rows `id` and `a` may change. */
  ghost predicate WritesOnly(db: Db, db': Db, id: JobId, a: AttemptId) {
    && db'.jobs.Keys == db.jobs.Keys && db'.attempts.Keys == db.attempts.Keys
    && (forall i | i in db.jobs && i != id :: db'.jobs[i] == db.jobs[i])
    && (forall b | b in db.attempts && b != a :: db'.attempts[b] == db.attempts[b])
  }

  lemma BlockWritesOnly(db: Db, id: JobId, a: AttemptId, tenant: TenantId, reason: Reason, now: Ms)
    ensures WritesOnly(db, BlockJob(db, id, a, tenant, reason, now), id, a)
  {
  }

  lemma DeferWritesOnly(db: Db, id: JobId, a: AttemptId, tenant: TenantId, scheduledAt: Ms, now: Ms)
    ensures WritesOnly(db, DeferJob(db, id, a, tenant, scheduledAt, now), id, a)
  {
  }

  lemma ReserveWritesOnly(db: Db, id: JobId, a: AttemptId, tenant: TenantId, nowUs: Us)
    ensures WritesOnly(db, Reserve(db, id, a, tenant, nowUs), id, a)
  {
    match Decision(db.attempts, nowUs)
    case Defer(scheduledAt) => DeferWritesOnly(db, id, a, tenant, scheduledAt, TruncMs(nowUs));
    case Admit =>
  }

  lemma VerdictWritesOnly(db: Db, id: JobId, a: AttemptId, tenant: TenantId, retryCount: nat, v: Verdict, now: Ms)
    ensures WritesOnly(db, RecordVerdict(db, id, a, tenant, retryCount, v, now), id, a)
  {
  }

  /** The update by which a worker proceeds writes nothing but its own two rows. */
  lemma WorkerWritesOnly(s: State, step: Step)
    requires Enabled(s, step) && WorkerStep(step)
    ensures WritesOnly(s.db, Apply(s, step).db, s.workers[step.attempt].job, step.attempt)
  {
    var a := step.attempt;
    var w := s.workers[a];
    match step
    case GateStep(_, canSend, now) =>
      BlockWritesOnly(s.db, w.job, a, w.tenant, if canSend then ResourceNotSendable else SubscriptionNotSendable, now);
    case ReserveStep(_, nowUs) => ReserveWritesOnly(s.db, w.job, a, w.tenant, nowUs);
    case SandboxStep(_, _) =>
    case VerdictStep(_, result, now) => VerdictWritesOnly(s.db, w.job, a, w.tenant, w.retryCount, Judge(s.kind, result), now);
  }

  lemma TableStepFreezes(s: State, step: Step, job: JobId)
    requires Enabled(s, step) && !WorkerStep(step) && !ProcessEvent(step) && job in s.issued && FinalOrGone(s.db, job)
    ensures RowFrozen(s.db, Apply(s, step).db, job)
  {
    match step
    case ScanStep(r, nowUs, scan, id) => IntakeWrites(s.db, r, nowUs, scan, id);
    case CancelStep(scan, id, nowUs) => CancelFreezes(s.db, scan, id, nowUs, job);
    case ClaimStep(a, id, tenant, auto, nowUs, _) => ClaimFreezes(s.db, a, id, tenant, auto, nowUs, job);
    case RecoverStep(row, now) => RecoverFreezes(s.db, row, now, job);
    case PurgeFamilyStep(tenant, scan, addYear, nowUs) => PurgeFreezes(addYear, s.db, tenant, scan, nowUs, job);
    case FailQueuedStep(_, _, _) =>
    case PurgeTenantStep(_, _) =>
    case TenantStep(_, _) =>
  }

  lemma IssuedStays(s: State, step: Step)
    requires Enabled(s, step)
    ensures s.issued <= Apply(s, step).issued
  {
    match step
    case GateStep(_, _, _) =>
    case ReserveStep(_, _) =>
    case _ =>
  }

  /** The row of a job in a final state is not written again; it can only be deleted, for good. */
  lemma FinalRowIsFrozen(s: State, step: Step, job: JobId)
    requires Good(s) && Enabled(s, step) && job in s.issued && FinalOrGone(s.db, job)
    ensures job in Apply(s, step).issued
    ensures RowFrozen(s.db, Apply(s, step).db, job)
  {
    IssuedStays(s, step);
    if WorkerStep(step) {
      WorkerJobIsNotFinal(s, step.attempt);
      WorkerWritesOnly(s, step);
    } else if !ProcessEvent(step) {
      TableStepFreezes(s, step, job);
    }
  }

  lemma WorkerJobIsNotFinal(s: State, a: AttemptId)
    requires Good(s) && a in s.workers && s.workers[a].alive && s.workers[a].phase != Finished
    ensures s.workers[a].job in s.db.jobs && !Final(s.db.jobs[s.workers[a].job])
  {
    assert WorkerOk(s, a);
  }

  lemma {:induction false} FinalRowIsFrozenForever(s: State, steps: seq<Step>, job: JobId)
    requires Good(s) && ValidRun(s, steps) && job in s.issued && FinalOrGone(s.db, job)
    ensures RowFrozen(s.db, Exec(s, steps).db, job)
    decreases |steps|
  {
    if steps != [] {
      FinalRowIsFrozen(s, steps[0], job);
      StepKeepsGood(s, steps[0]);
      FinalRowIsFrozenForever(Apply(s, steps[0]), steps[1..], job);
    }
  }

  /**
   Canceling is final: in every run from a reachable state, a canceled job keeps its row until the
   row is deleted, gets no provider call, and no message of it is ever delivered.
   */
  lemma {:induction false} CanceledIsForever(s: State, steps: seq<Step>, job: JobId)
    requires Reachable(s) && ValidRun(s, steps) && job in s.db.jobs && s.db.jobs[job].status == Canceled
    ensures RowFrozen(s.db, Exec(s, steps).db, job)
    ensures InvokedAttempts(Exec(s, steps).db.attempts, job) == {}
    ensures forall a | a in Exec(s, steps).delivered :: a in Exec(s, steps).workers && Exec(s, steps).workers[a].job != job
  {
    ReachableIsGood(s);
    NeverCalled(s, job);
    SilentJobStaysSilent(s, steps, job);
    RunKeepsGood(s, steps);
    FinalRowIsFrozenForever(s, steps, job);
    CanceledOrGoneNeverCalled(Exec(s, steps), job);
  }

  lemma CanceledOrGoneNeverCalled(s: State, job: JobId)
    requires Inv(s) && (job in s.db.jobs ==> s.db.jobs[job].status == Canceled)
    ensures InvokedAttempts(s.db.attempts, job) == {}
  {
    if job in s.db.jobs {
      NeverCalled(s, job);
    } else {
      assert forall a | a in s.db.attempts :: s.db.attempts[a].job != job;
    }
  }

  /** No call of the job has been made, and its row is final or gone. */
  ghost predicate Silent(s: State, job: JobId) {
    && job in s.issued && FinalOrGone(s.db, job)
    && forall a | a in s.workers && s.workers[a].job == job :: !s.workers[a].mayArrive
  }

  lemma SilentStep(s: State, step: Step, job: JobId)
    requires Good(s) && Enabled(s, step) && Silent(s, job)
    ensures Silent(Apply(s, step), job)
  {
    FinalRowIsFrozen(s, step, job);
    if WorkerStep(step) {
      WorkerJobIsNotFinal(s, step.attempt);
    }
    OnlyInvocationsMayArrive(s, step, job);
  }

  /** A step other than an invocation of the job makes no arrival of it possible. */
  lemma OnlyInvocationsMayArrive(s: State, step: Step, job: JobId)
    requires Enabled(s, step) && forall a | a in s.workers && s.workers[a].job == job :: !s.workers[a].mayArrive
    requires step.ReserveStep? || step.SandboxStep? || step.VerdictStep? ==> s.workers[step.attempt].job != job
    ensures forall a | a in Apply(s, step).workers && Apply(s, step).workers[a].job == job :: !Apply(s, step).workers[a].mayArrive
  {
    match step
    case GateStep(_, _, _) =>
    case ReserveStep(_, _) =>
    case _ =>
  }

  lemma {:induction false} SilentJobStaysSilent(s: State, steps: seq<Step>, job: JobId)
    requires Good(s) && ValidRun(s, steps) && Silent(s, job)
    ensures Silent(Exec(s, steps), job)
    decreases |steps|
  {
    if steps != [] {
      SilentStep(s, steps[0], job);
      StepKeepsGood(s, steps[0]);
      SilentJobStaysSilent(Apply(s, steps[0]), steps[1..], job);
    }
  }

  // ---- pacing ---------------------------------------------------------------------------------------

  /** Along the run, every reservation still sees the rows of the admissions of its last second. */
  ghost predicate RecentRowsSurvive(s: State, steps: seq<Step>)
    requires ValidRun(s, steps)
    decreases |steps|
  {
    steps == [] ||
    ((steps[0].ReserveStep? ==> RecentRowsKept(s.admitted, s.db.attempts, steps[0].nowUs))
     && RecentRowsSurvive(Apply(s, steps[0]), steps[1..]))
  }

  lemma PaceStep(s: State, step: Step)
    requires Enabled(s, step) && PacedLog(s.admitted)
    requires step.ReserveStep? ==> RecentRowsKept(s.admitted, s.db.attempts, step.nowUs)
    ensures PacedLog(Apply(s, step).admitted)
  {
    if step.ReserveStep? && Decision(s.db.attempts, step.nowUs).Admit? {
      AdmissionKeepsPace(s.admitted, s.db.attempts, step.nowUs);
    }
  }

  lemma {:induction false} PaceOverRuns(s: State, steps: seq<Step>)
    requires ValidRun(s, steps) && PacedLog(s.admitted) && RecentRowsSurvive(s, steps)
    ensures PacedLog(Exec(s, steps).admitted)
    decreases |steps|
  {
    if steps != [] {
      PaceStep(s, steps[0]);
      PaceOverRuns(Apply(s, steps[0]), steps[1..]);
    }
  }

  /** Every admission in the log still has its row. */
  ghost predicate LogHasRows(s: State) {
    forall i | 0 <= i < |s.admitted| :: HasReservationAt(s.db.attempts, s.admitted[i])
  }

  lemma RowsOfLogStay(before: map<AttemptId, Attempt>, after: map<AttemptId, Attempt>, t: Ms)
    requires HasReservationAt(before, t) && SubReservations(after, before)
    ensures HasReservationAt(after, t)
  {
    var a :| a in Reservations(before) && Reservations(before)[a] == t;
    assert a in Reservations(after) && Reservations(after)[a] == t;
  }

  lemma InvokedRowIsReserved(db: Db, a: AttemptId, tenant: TenantId, now: Ms)
    requires a in db.attempts && db.attempts[a].tenant == tenant
    ensures HasReservationAt(MarkInvoked(db, a, tenant, now, true).attempts, now)
  {
    assert a in Reservations(MarkInvoked(db, a, tenant, now, true).attempts);
  }

  lemma AdmissionHasRow(s: State, step: Step)
    requires Good(s) && Enabled(s, step) && step.ReserveStep? && Decision(s.db.attempts, step.nowUs).Admit?
    ensures HasReservationAt(Apply(s, step).db.attempts, TruncMs(step.nowUs))
  {
    HeldJobNotCanceled(s, step.attempt);
    InvokedRowIsReserved(s.db, step.attempt, s.workers[step.attempt].tenant, TruncMs(step.nowUs));
  }

  lemma LogGrowsByAdmission(s: State, step: Step)
    requires Enabled(s, step)
    ensures Apply(s, step).admitted ==
            if step.ReserveStep? && Decision(s.db.attempts, step.nowUs).Admit? then s.admitted + [TruncMs(step.nowUs)] else s.admitted
  {
    match step
    case GateStep(_, _, _) =>
    case ReserveStep(_, _) =>
    case _ =>
  }

  lemma LogKeepsRows(s: State, step: Step)
    requires Good(s) && Enabled(s, step) && LogHasRows(s)
    requires NoPurge(step)
    ensures LogHasRows(Apply(s, step))
  {
    var s' := Apply(s, step);
    ReservationsStay(s, step);
    LogGrowsByAdmission(s, step);
    if step.ReserveStep? && Decision(s.db.attempts, step.nowUs).Admit? { AdmissionHasRow(s, step); }
    forall i | 0 <= i < |s'.admitted| ensures HasReservationAt(s'.db.attempts, s'.admitted[i]) {
      if i < |s.admitted| { RowsOfLogStay(s.db.attempts, s'.db.attempts, s.admitted[i]); }
    }
  }

  lemma MarkKeepsReservations(db: Db, a: AttemptId, tenant: TenantId, now: Ms, rfc: bool)
    requires a in db.attempts ==> db.attempts[a].invokedAt.None?
    ensures SubReservations(MarkInvoked(db, a, tenant, now, rfc).attempts, db.attempts)
  {
  }

  lemma ReserveKeepsReservations(db: Db, job: JobId, a: AttemptId, tenant: TenantId, nowUs: Us)
    requires a in db.attempts ==> db.attempts[a].invokedAt.None?
    ensures SubReservations(Reserve(db, job, a, tenant, nowUs).attempts, db.attempts)
  {
  }

  lemma VerdictKeepsReservations(db: Db, job: JobId, a: AttemptId, tenant: TenantId, retryCount: nat, v: Verdict, now: Ms)
    ensures SubReservations(RecordVerdict(db, job, a, tenant, retryCount, v, now).attempts, db.attempts)
  {
  }

  lemma ClaimKeepsReservations(db: Db, a: AttemptId, job: JobId, tenant: TenantId, auto: bool, nowUs: Us)
    requires a !in db.attempts
    ensures SubReservations(ClaimJob(db, a, job, tenant, auto, nowUs).attempts, db.attempts)
  {
  }

  lemma BlockKeepsReservations(db: Db, job: JobId, a: AttemptId, tenant: TenantId, reason: Reason, now: Ms)
    ensures SubReservations(BlockJob(db, job, a, tenant, reason, now).attempts, db.attempts)
  {
  }

  lemma WorkerStepReservations(s: State, step: Step)
    requires Inv(s) && Enabled(s, step) && WorkerStep(step)
    ensures SubReservations(Apply(s, step).db.attempts, s.db.attempts)
  {
    var w := s.workers[step.attempt];
    assert WorkerOk(s, step.attempt);
    match step
    case ReserveStep(a, nowUs) => ReserveKeepsReservations(s.db, w.job, a, w.tenant, nowUs);
    case SandboxStep(a, now) => MarkKeepsReservations(s.db, a, w.tenant, now, false);
    case VerdictStep(a, result, now) => VerdictKeepsReservations(s.db, w.job, a, w.tenant, w.retryCount, Judge(s.kind, result), now);
    case GateStep(a, canSend, now) =>
      BlockKeepsReservations(s.db, w.job, a, w.tenant, if canSend then ResourceNotSendable else SubscriptionNotSendable, now);
  }

  /** Nothing but a purge removes a reservation. */
  lemma ReservationsStay(s: State, step: Step)
    requires Inv(s) && Enabled(s, step) && NoPurge(step)
    ensures SubReservations(Apply(s, step).db.attempts, s.db.attempts)
  {
    if WorkerStep(step) {
      WorkerStepReservations(s, step);
    } else {
      match step
      case ScanStep(r, nowUs, scan, id) => IntakeWrites(s.db, r, nowUs, scan, id);
      case RecoverStep(row, now) => RecoveryReservesNothing(s.db, row, now);
      case ClaimStep(a, job, tenant, auto, nowUs, _) => ClaimKeepsReservations(s.db, a, job, tenant, auto, nowUs);
      case CancelStep(_, _, _) =>
      case ArriveStep(_) =>
      case CrashStep(_) =>
      case ListStaleStep(_, _) =>
      case FailQueuedStep(_, _, _) =>
      case TenantStep(_, _) =>
    }
  }

  predicate NoPurge(step: Step) { !step.PurgeFamilyStep? && !step.PurgeTenantStep? }

  ghost predicate PurgeFree(steps: seq<Step>)
    decreases |steps|
  {
    steps == [] || (NoPurge(steps[0]) && PurgeFree(steps[1..]))
  }

  ghost predicate GoodLog(s: State) { Good(s) && LogHasRows(s) }

  lemma GoodLogStep(s: State, step: Step)
    requires GoodLog(s) && Enabled(s, step) && NoPurge(step)
    ensures GoodLog(Apply(s, step))
    ensures step.ReserveStep? ==> RecentRowsKept(s.admitted, s.db.attempts, step.nowUs)
  {
    LogKeepsRows(s, step);
    StepKeepsGood(s, step);
  }

  lemma {:induction false} SurvivalStep(s: State, steps: seq<Step>)
    requires steps != [] && ValidRun(s, steps) && RecentRowsSurvive(Apply(s, steps[0]), steps[1..])
    requires steps[0].ReserveStep? ==> RecentRowsKept(s.admitted, s.db.attempts, steps[0].nowUs)
    ensures RecentRowsSurvive(s, steps)
  {
  }

  lemma {:induction false} RowsSurviveWithoutPurges(s: State, steps: seq<Step>)
    requires GoodLog(s) && ValidRun(s, steps)
    requires PurgeFree(steps)
    ensures RecentRowsSurvive(s, steps)
    decreases |steps|
  {
    if steps != [] {
      GoodLogStep(s, steps[0]);
      RowsSurviveWithoutPurges(Apply(s, steps[0]), steps[1..]);
      SurvivalStep(s, steps);
    }
  }

  /**
   Over every run in which no purge deletes an attempt of the last second, admissions are 50 ms
   apart in lock order and at most twenty fall into any second, for arbitrary clock readings.
   */
  lemma {:induction false} SubmissionsArePaced(init: State, steps: seq<Step>, from: Ms)
    requires Init(init) && ValidRun(init, steps) && RecentRowsSurvive(init, steps)
    ensures PacedLog(Exec(init, steps).admitted)
    ensures |AdmittedIn(Exec(init, steps).admitted, from)| <= 20
  {
    InitIsGood(init);
    PaceOverRuns(init, steps);
    AtMostTwentyPerSecond(Exec(init, steps).admitted, from);
  }

  /** Without purges the condition always holds, so pacing is unconditional. */
  lemma {:induction false} SubmissionsArePacedWithoutPurges(init: State, steps: seq<Step>, from: Ms)
    requires Init(init) && ValidRun(init, steps)
    requires PurgeFree(steps)
    ensures PacedLog(Exec(init, steps).admitted)
    ensures |AdmittedIn(Exec(init, steps).admitted, from)| <= 20
  {
    InitIsGood(init);
    RowsSurviveWithoutPurges(init, steps);
    SubmissionsArePaced(init, steps, from);
  }
}
