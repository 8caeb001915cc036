/**
 What the rows say of each other and of the provider: a job is marked sent only by the worker of its
 claim after an accepted call, a job that the gate refuses never reaches the provider, and each answer
 ends in the one pair of rows that stands for it. All of it in row fields, over both machines.
 */
module MailOutcomes {
  import opened Base
  import opened MailTables
  import opened ProviderVerdict
  import opened RateLimiter
  import opened MailTransactions
  import opened ScanIntake
  import opened Retention
  import opened MailProtocol
  import opened MailInvariant
  import opened IntakeInvariant
  import opened MailRuns
  import opened MailTheorems
  import opened MailRecovery
  import opened MailRecoveryInvariant
  import opened MailRecoveryTheorems

  // ---- a job and the attempt that it names ------------------------------------------------------------------

  /** What the attempt that a job names looks like, for each status of the job. */
  predicate Shows(j: Job, at: Attempt) {
    match j.status
    case Processing => at.status == Claimed || at.status == Invoked
    case Sent => at.status == Succeeded && j.sentAt.Some? && at.completedAt == j.sentAt
    case DeliveryUnknown => at.status == OutcomeUnknown
    case Queued => at.status == RetryScheduled && at.error == j.error
    case Failed => at.status == RetryScheduled || ((at.status == Blocked || at.status == AttemptFailed) && j.scheduledAt.None?)
    case _ => false
  }

  /** A job that names no attempt has never got further than the queue, unless it is older than send windows. */
  predicate NeverEnded(j: Job) {
    j.status != Processing && (j.sendNotBefore.Some? ==> j.status != Sent && j.status != DeliveryUnknown)
  }

  ghost predicate JobShown(db: Db, id: JobId)
    requires id in db.jobs
  {
    var j := db.jobs[id];
    if j.claimAttempt.None? then NeverEnded(j)
    else
      var a := j.claimAttempt.value;
      a in db.attempts && db.attempts[a].job == id && Shows(j, db.attempts[a])
  }

  ghost predicate AllShown(db: Db) {
    forall id | id in db.jobs :: JobShown(db, id)
  }

  lemma InitShows(s: State)
    requires Init(s)
    ensures AllShown(s.db)
  {
  }

  /** A rewrite of one job and one attempt of it leaves every other job with its own attempt. */
  lemma RewriteShows(db: Db, id: JobId, j: Job, a: AttemptId, at: Attempt)
    requires AllShown(db) && at.job == id && (a in db.attempts ==> db.attempts[a].job == id)
    requires if j.claimAttempt.None? then NeverEnded(j) else j.claimAttempt.value == a && Shows(j, at)
    ensures AllShown(Write(db, id, j, a, at))
  {
    var db' := Write(db, id, j, a, at);
    forall i | i in db'.jobs ensures JobShown(db', i) {
      if i != id { assert JobShown(db, i); }
    }
  }

  /** The worker's two rows, of which the job names the attempt. */
  ghost predicate OwnRows(s: State, a: AttemptId) {
    && a in s.workers && RowsFound(s.db, s.workers[a].job, a, s.workers[a].tenant)
    && s.db.attempts[a].job == s.workers[a].job && s.db.jobs[s.workers[a].job].claimAttempt == Some(a)
  }

  lemma LiveWorkerOwnsRows(s: State, a: AttemptId)
    requires Good(s) && a in s.workers && s.workers[a].alive && s.workers[a].phase != Finished
    ensures OwnRows(s, a) && JobOk(s.db.jobs[s.workers[a].job])
  {
    HeldJobNotCanceled(s, a);
    if s.workers[a].phase == Calling { CallingFacts(s, a); } else { assert WorkerOk(s, a); }
  }

  lemma ClaimShows(s: State, a: AttemptId, job: JobId, tenant: TenantId, auto: bool, nowUs: Us, active: bool)
    requires AllShown(s.db) && a !in s.db.attempts
    ensures AllShown(AfterClaim(s, a, job, tenant, auto, nowUs, active).db)
  {
    if Claims(s.db, job, tenant, auto, nowUs) { RewriteShows(s.db, job, ClaimedRow(s.db.jobs[job], a, nowUs), a, NewAttempt(tenant, job)); }
  }

  lemma GateShows(s: State, a: AttemptId, canSend: bool, now: Ms)
    requires AllShown(s.db) && OwnRows(s, a)
    ensures AllShown(AfterGate(s, a, canSend, now).db)
  {
    var w, db' := s.workers[a], AfterGate(s, a, canSend, now).db;
    if db' != s.db { RewriteShows(s.db, w.job, db'.jobs[w.job], a, db'.attempts[a]); }
  }

  lemma MarkShows(db: Db, job: JobId, a: AttemptId, tenant: TenantId, now: Ms, rfc: bool)
    requires AllShown(db) && RowsFound(db, job, a, tenant) && db.attempts[a].job == job
    requires db.jobs[job].claimAttempt == Some(a) && db.jobs[job].status == Processing
    ensures AllShown(MarkInvoked(db, a, tenant, now, rfc))
  {
    var db' := MarkInvoked(db, a, tenant, now, rfc);
    assert db'.jobs == db.jobs[job := db.jobs[job]];
    RewriteShows(db, job, db.jobs[job], a, db'.attempts[a]);
  }

  lemma ReserveShows(s: State, a: AttemptId, nowUs: Us)
    requires AllShown(s.db) && OwnRows(s, a) && s.db.jobs[s.workers[a].job].status == Processing
    ensures AllShown(AfterReserve(s, a, nowUs).db)
  {
    var w := s.workers[a];
    match Decision(s.db.attempts, nowUs)
    case Admit => MarkShows(s.db, w.job, a, w.tenant, TruncMs(nowUs), true);
    case Defer(scheduledAt) =>
      var db' := DeferJob(s.db, w.job, a, w.tenant, scheduledAt, TruncMs(nowUs));
      RewriteShows(s.db, w.job, db'.jobs[w.job], a, db'.attempts[a]);
  }

  lemma VerdictShows(s: State, a: AttemptId, result: SendResult, now: Ms)
    requires AllShown(s.db) && OwnRows(s, a)
    ensures AllShown(AfterVerdict(s, a, result, now).db)
  {
    var w, db' := s.workers[a], AfterVerdict(s, a, result, now).db;
    RewriteShows(s.db, w.job, db'.jobs[w.job], a, db'.attempts[a]);
  }

  lemma ClearedIsProcessing(s: State, a: AttemptId)
    requires Good(s) && Holds(s, a, Cleared)
    ensures s.workers[a].job in s.db.jobs && s.db.jobs[s.workers[a].job].status == Processing
  {
    assert WorkerOk(s, a);
  }

  lemma WorkerStepShows(s: State, step: Step)
    requires Good(s) && AllShown(s.db) && Enabled(s, step) && WorkerStep(step)
    ensures AllShown(Apply(s, step).db)
  {
    var a := step.attempt;
    LiveWorkerOwnsRows(s, a);
    match step
    case GateStep(_, canSend, now) => GateShows(s, a, canSend, now);
    case ReserveStep(_, nowUs) =>
      ClearedIsProcessing(s, a);
      ReserveShows(s, a, nowUs);
    case SandboxStep(_, now) =>
      ClearedIsProcessing(s, a);
      MarkShows(s.db, s.workers[a].job, a, s.workers[a].tenant, now, false);
    case VerdictStep(_, result, now) => VerdictShows(s, a, result, now);
  }

  lemma RecoveryShows(s: State, row: StaleRow, now: Ms)
    requires Good(s) && AllShown(s.db) && row in s.stale
    ensures AllShown(AfterRecovery(s.db, RecoverRow(s.db, row, now)))
  {
    var r := RecoverRow(s.db, row, now);
    if r.Recovered? {
      RecoveredClaim(s, row, now);
      var a := row.claim.value;
      assert r.db == Write(s.db, row.job, r.db.jobs[row.job], a, r.db.attempts[a]);
      RewriteShows(s.db, row.job, r.db.jobs[row.job], a, r.db.attempts[a]);
    } else {
      RaisedRecoveryWritesNothing(s, row, now);
    }
  }

  /** In the machine with one-step recovery the claim of a listed row is never missing while its job is in hand. */
  lemma RaisedRecoveryWritesNothing(s: State, row: StaleRow, now: Ms)
    requires Good(s) && row in s.stale && !RecoverRow(s.db, row, now).Recovered?
    ensures AfterRecovery(s.db, RecoverRow(s.db, row, now)) == s.db
  {
    assert row.claim.Some?;
    if row.claim.value !in s.db.attempts { ClaimIsGone(s, row); }
  }

  lemma ClaimIsGone(s: State, row: StaleRow)
    requires ProcessingIsOpen(s) && row.claim.Some? && row.claim.value !in s.db.attempts
    ensures JobStatement(s.db, row, RecoversAsUnknown(s.db, row)) == Some(s.db)
  {
  }

  lemma QueueLeftShows(db: Db, db': Db)
    requires AllShown(db) && QueueLeft(db, db')
    ensures AllShown(db')
  {
    forall id | id in db'.jobs ensures JobShown(db', id) { assert JobShown(db, id); }
  }

  lemma DropShows(db: Db, db': Db)
    requires AllShown(db) && DropsQuietJobs(db, db')
    ensures AllShown(db')
  {
    forall id | id in db'.jobs ensures JobShown(db', id) { assert JobShown(db, id); }
  }

  lemma ScanShows(s: State, r: ScanRequest, nowUs: Us, scan: ScanId, job: JobId)
    requires Good(s) && AllShown(s.db) && FreshJob(s, job)
    ensures AllShown(CreateScan(s.db, r, nowUs, scan, job).db)
  {
    IntakeWrites(s.db, r, nowUs, scan, job);
    var db' := CreateScan(s.db, r, nowUs, scan, job).db;
    forall id | id in db'.jobs ensures JobShown(db', id) {
      if id in s.db.jobs { assert JobShown(s.db, id); }
    }
  }

  lemma PurgeShows(s: State, step: Step)
    requires Good(s) && AllShown(s.db) && Enabled(s, step) && (step.PurgeFamilyStep? || step.PurgeTenantStep?)
    ensures AllShown(Apply(s, step).db)
  {
    if Apply(s, step).db != s.db {
      match step
      case PurgeFamilyStep(tenant, scan, addYear, nowUs) =>
        FamilyPurgeDrops(s, addYear, tenant, scan, nowUs);
        DropShows(s.db, Apply(s, step).db);
      case PurgeTenantStep(tenant, due) =>
        TenantPurgeDrops(s, tenant);
        DropShows(s.db, Apply(s, step).db);
    }
  }

  lemma QueueStepShows(s: State, step: Step)
    requires AllShown(s.db) && Enabled(s, step) && (step.CancelStep? || step.FailQueuedStep? || step.TenantStep?)
    ensures AllShown(Apply(s, step).db)
  {
    match step
    case CancelStep(scan, job, nowUs) => QueueLeftShows(s.db, CancelScan(s.db, scan, job, nowUs));
    case FailQueuedStep(tenant, location, reason) => QueueLeftShows(s.db, FailQueued(s.db, tenant, location, reason));
    case TenantStep(_, _) => QueueLeftShows(s.db, Apply(s, step).db);
  }

  lemma TableStepShows(s: State, step: Step)
    requires Good(s) && AllShown(s.db) && Enabled(s, step) && !WorkerStep(step) && !ProcessEvent(step)
    ensures AllShown(Apply(s, step).db)
  {
    if step.PurgeFamilyStep? || step.PurgeTenantStep? {
      PurgeShows(s, step);
    } else if step.CancelStep? || step.FailQueuedStep? || step.TenantStep? {
      QueueStepShows(s, step);
    } else {
      match step
      case ScanStep(r, nowUs, scan, job) => ScanShows(s, r, nowUs, scan, job);
      case ClaimStep(a, job, tenant, auto, nowUs, active) => ClaimShows(s, a, job, tenant, auto, nowUs, active);
      case RecoverStep(row, now) => RecoveryShows(s, row, now);
    }
  }

  lemma StepShows(s: State, step: Step)
    requires Good(s) && AllShown(s.db) && Enabled(s, step)
    ensures AllShown(Apply(s, step).db)
  {
    if WorkerStep(step) {
      WorkerStepShows(s, step);
    } else if !ProcessEvent(step) {
      TableStepShows(s, step);
    }
  }

  lemma {:induction false} RunShows(s: State, steps: seq<Step>)
    requires Good(s) && AllShown(s.db) && ValidRun(s, steps)
    ensures AllShown(Exec(s, steps).db)
    decreases |steps|
  {
    if steps != [] {
      StepShows(s, steps[0]);
      StepKeepsGood(s, steps[0]);
      RunShows(Apply(s, steps[0]), steps[1..]);
    }
  }

  /** In every reachable state each job agrees with the attempt that it names. */
  lemma {:induction false} JobsShowTheirAttempts(s: State)
    requires Reachable(s)
    ensures AllShown(s.db)
  {
    var init, steps :| Init(init) && ValidRun(init, steps) && Exec(init, steps) == s;
    InitIsGood(init);
    InitShows(init);
    RunShows(init, steps);
  }

  /**
   Sent means accepted: a job is marked sent, in a reachable state, only if its claim is an attempt of
   its own that reached the provider and succeeded, at the time in the job's row; the one exception is
   a job from before send windows that names no attempt.
   */
  lemma {:induction false} SentWasAccepted(s: State, job: JobId)
    requires Reachable(s) && job in s.db.jobs && s.db.jobs[job].status == Sent
    requires s.db.jobs[job].claimAttempt.Some? || s.db.jobs[job].sendNotBefore.Some?
    ensures var j := s.db.jobs[job];
            && j.claimAttempt.Some? && j.claimAttempt.value in s.db.attempts
            && var at := s.db.attempts[j.claimAttempt.value];
            at.job == job && at.status == Succeeded && at.invokedAt.Some? && j.sentAt.Some? && at.completedAt == j.sentAt
  {
    JobsShowTheirAttempts(s);
    ReachableIsGood(s);
    assert JobShown(s.db, job);
    assert AttemptShape(s.db.attempts[s.db.jobs[job].claimAttempt.value]);
  }

  // ---- sent means accepted, with recovery in three statements ------------------------------------------------

  /** The attempt of a sent job was called and answered; only recovery can have written over its status. */
  ghost predicate SentShown(s: State, id: JobId)
    requires id in s.db.jobs
  {
    var j := s.db.jobs[id];
    j.status == Sent ==>
      if j.claimAttempt.None? then j.sendNotBefore.None?
      else
        var a := j.claimAttempt.value;
        && a in s.db.attempts && s.db.attempts[a].job == id && a in s.workers && s.workers[a].phase == Finished
        && AnsweredOpen(s.db.attempts[a])
  }

  predicate AnsweredOpen(at: Attempt) {
    at.invokedAt.Some? && at.closedAt.None? && (at.status == Succeeded || at.status == OutcomeUnknown)
  }

  ghost predicate AllSentShown(s: State) {
    forall id | id in s.db.jobs :: SentShown(s, id)
  }

  lemma FineHolderOwnsRows(s: State, refused: set<AttemptId>, a: AttemptId)
    requires FineCore(s, refused) && a in s.workers && s.workers[a].alive && s.workers[a].phase != Finished
    ensures OwnRows(s, a) && InHand(s.db.jobs[s.workers[a].job].status)
  {
    HeldFacts(s, refused, a);
  }

  /** Only an acceptance marks the worker's job sent. */
  lemma OwnJobSent(s: State, step: Step)
    requires Enabled(s, step) && WorkerStep(step) && OwnRows(s, step.attempt) && InHand(s.db.jobs[s.workers[step.attempt].job].status)
    requires s.db.attempts[step.attempt].closedAt.None? && (step.VerdictStep? ==> s.db.attempts[step.attempt].invokedAt.Some?)
    ensures s.workers[step.attempt].job in Apply(s, step).db.jobs && SentShown(Apply(s, step), s.workers[step.attempt].job)
  {
    match step {
      case GateStep(_, _, _) =>
      case ReserveStep(_, nowUs) =>
        match Decision(s.db.attempts, nowUs) {
          case Admit =>
          case Defer(_) =>
        }
      case SandboxStep(_, _) =>
      case VerdictStep(_, _, _) =>
    }
  }

  lemma WorkerStepSent(s: State, refused: set<AttemptId>, step: Step)
    requires FineCore(s, refused) && AllSentShown(s) && Enabled(s, step) && WorkerStep(step)
    ensures AllSentShown(Apply(s, step))
  {
    var a, s' := step.attempt, Apply(s, step);
    FineHolderOwnsRows(s, refused, a);
    HeldFacts(s, refused, a);
    OwnJobSent(s, step);
    WorkerWritesOnly(s, step);
    forall id | id in s'.db.jobs ensures SentShown(s', id) {
      if id != s.workers[a].job {
        assert SentShown(s, id);
        var c := s.db.jobs[id].claimAttempt;
        if s.db.jobs[id].status == Sent && c.Some? { OthersKeepTheirPhase(s, step, c.value); }
      }
    }
  }

  /** The sent jobs are as before, and so are the attempts and workers that they name. */
  lemma SentFrame(s: State, s': State)
    requires AllSentShown(s)
    requires forall id | id in s'.db.jobs && s'.db.jobs[id].status == Sent :: id in s.db.jobs && s'.db.jobs[id] == s.db.jobs[id]
    requires forall a | a in s.db.attempts && a in s.workers && s.workers[a].phase == Finished && s.db.attempts[a].job in s'.db.jobs
                        && AnsweredOpen(s.db.attempts[a]) ::
               && a in s'.db.attempts && s'.db.attempts[a].job == s.db.attempts[a].job && AnsweredOpen(s'.db.attempts[a])
               && a in s'.workers && s'.workers[a].phase == Finished
    ensures AllSentShown(s')
  {
    forall id | id in s'.db.jobs ensures SentShown(s', id) {
      if s'.db.jobs[id].status == Sent { assert SentShown(s, id); }
    }
  }

  lemma PurgeStepSent(s: State, refused: set<AttemptId>, step: Step)
    requires FineCore(s, refused) && AllSentShown(s) && Enabled(s, step) && (step.PurgeFamilyStep? || step.PurgeTenantStep?)
    ensures AllSentShown(Apply(s, step))
  {
    if Apply(s, step).db != s.db {
      match step
      case PurgeFamilyStep(tenant, scan, addYear, nowUs) => FamilyPurgeIsQuiet(s, addYear, tenant, scan, nowUs);
      case PurgeTenantStep(tenant, _) => TenantPurgeIsQuiet(s, tenant);
    }
    SentFrame(s, Apply(s, step));
  }

  lemma EventSent(s: State, step: Step)
    requires AllSentShown(s) && Enabled(s, step) && ProcessEvent(step)
    ensures AllSentShown(Apply(s, step))
  {
    SentFrame(s, Apply(s, step));
  }

  lemma QueueStepSent(s: State, step: Step)
    requires AllSentShown(s) && Enabled(s, step) && (step.CancelStep? || step.FailQueuedStep? || step.TenantStep?)
    ensures AllSentShown(Apply(s, step))
  {
    SentFrame(s, Apply(s, step));
  }

  lemma TableStepSent(s: State, refused: set<AttemptId>, step: Step)
    requires FineCore(s, refused) && AllSentShown(s) && Enabled(s, step) && !WorkerStep(step) && !step.RecoverStep?
    ensures AllSentShown(Apply(s, step))
  {
    if step.PurgeFamilyStep? || step.PurgeTenantStep? {
      PurgeStepSent(s, refused, step);
    } else if ProcessEvent(step) {
      EventSent(s, step);
    } else if step.ScanStep? {
      IntakeWrites(s.db, step.request, step.nowUs, step.newScan, step.newJob);
      SentFrame(s, Apply(s, step));
    } else if step.ClaimStep? {
      SentFrame(s, Apply(s, step));
    } else {
      QueueStepSent(s, step);
    }
  }

  lemma JobStatementSent(f: FineState, id: PlanId)
    requires FineInv(f) && AllSentShown(f.base) && FineEnabled(f, WriteJob(id))
    ensures AllSentShown(FineApply(f, WriteJob(id)).base)
  {
    var p := f.plans[id];
    if JobStatement(f.base.db, p.row, p.unknown).Some? {
      JobStatementWrites(f.base.db, p.row, p.unknown);
      SentFrame(f.base, FineApply(f, WriteJob(id)).base);
    }
  }

  lemma AttemptStatementSent(f: FineState, id: PlanId, now: Ms)
    requires FineInv(f) && AllSentShown(f.base) && FineEnabled(f, WriteAttempt(id, now))
    ensures AllSentShown(FineApply(f, WriteAttempt(id, now)).base)
  {
    assert PlanOk(f.base, f.plans[id]);
    SentFrame(f.base, FineApply(f, WriteAttempt(id, now)).base);
  }

  lemma FineStepSent(f: FineState, step: FineStep)
    requires FineInv(f) && AllSentShown(f.base) && FineEnabled(f, step)
    ensures AllSentShown(FineApply(f, step).base)
  {
    match step
    case Other(st) => if WorkerStep(st) { WorkerStepSent(f.base, f.refused, st); } else { TableStepSent(f.base, f.refused, st); }
    case WriteJob(id) => JobStatementSent(f, id);
    case WriteAttempt(id, now) => AttemptStatementSent(f, id, now);
    case Look(_, _) =>
    case Stop(_) =>
  }

  lemma {:induction false} FineRunSent(f: FineState, steps: seq<FineStep>)
    requires FineInv(f) && AllSentShown(f.base) && FineValidRun(f, steps)
    ensures AllSentShown(FineExec(f, steps).base)
    decreases |steps|
  {
    if steps != [] {
      FineStepSent(f, steps[0]);
      FineStepKeeps(f, steps[0]);
      FineRunSent(FineApply(f, steps[0]), steps[1..]);
    }
  }

  /** Sent means accepted, also when recovery is interleaved: the claim's attempt succeeded, or recovery has written over it. */
  lemma {:induction false} SentWasStillAccepted(f: FineState, job: JobId)
    requires FineReachable(f) && job in f.base.db.jobs && f.base.db.jobs[job].status == Sent
    requires f.base.db.jobs[job].claimAttempt.Some? || f.base.db.jobs[job].sendNotBefore.Some?
    ensures var j := f.base.db.jobs[job];
            && j.claimAttempt.Some? && j.claimAttempt.value in f.base.db.attempts
            && var a := j.claimAttempt.value;
            f.base.db.attempts[a].job == job && f.base.db.attempts[a].invokedAt.Some?
            && (f.base.db.attempts[a].status == Succeeded || Overwritten(f.base, a))
  {
    var init, steps :| FineInit(init) && FineValidRun(init, steps) && FineExec(init, steps) == f;
    FineInitInv(init);
    FineRunSent(init, steps);
    assert SentShown(f.base, job);
  }

  // ---- the gate ----------------------------------------------------------------------------------------------

  /** What is recorded when the subscription may not send, or the location or the person was not active at the claim. */
  function GateReason(canSend: bool): Reason { if canSend then ResourceNotSendable else SubscriptionNotSendable }

  /**
   The gate in rows: a job whose tenant may not send, or whose location or person was inactive, fails
   with the reason and without a schedule, its attempt is blocked without a call, and its worker is
   done; any other job passes and nothing is written.
   */
  lemma {:induction false} GateDecides(f: FineState, a: AttemptId, canSend: bool, now: Ms)
    requires FineReachable(f) && FineEnabled(f, Other(GateStep(a, canSend, now)))
    ensures var w, s' := f.base.workers[a], Apply(f.base, GateStep(a, canSend, now));
            if canSend && w.resourceActive then s'.db == f.base.db && s'.workers[a].phase == Cleared
            else
              && w.job in s'.db.jobs && a in s'.db.attempts
              && s'.db.jobs[w.job].status == Failed && s'.db.jobs[w.job].error == Some(GateReason(canSend))
              && s'.db.jobs[w.job].scheduledAt.None? && s'.db.attempts[a].status == Blocked && s'.db.attempts[a].invokedAt.None?
              && s'.db.attempts[a].error == Some(GateReason(canSend)) && s'.db.attempts[a].completedAt == Some(now)
              && s'.workers[a].phase == Finished && !s'.workers[a].mayArrive
  {
    FineReachableIsGood(f);
    HeldFacts(f.base, f.refused, a);
  }

  /** The worker is done and its attempt was never invoked. */
  ghost predicate DoneUncalled(s: State, a: AttemptId) {
    a in s.workers && s.workers[a].phase == Finished && (a in s.db.attempts ==> s.db.attempts[a].invokedAt.None?)
  }

  lemma OtherStaysUncalled(s: State, step: Step, a: AttemptId)
    requires Enabled(s, step) && !step.RecoverStep? && DoneUncalled(s, a)
    ensures DoneUncalled(Apply(s, step), a)
  {
    if WorkerStep(step) {
      WorkerWritesOnly(s, step);
      OthersKeepTheirPhase(s, step, a);
    } else if step.ClaimStep? {
      if a in Apply(s, step).db.attempts { ClaimKeepsOthers(s, step, a); }
    } else {
      TableStepKeepsWorker(s, step, a);
      if a in Apply(s, step).db.attempts { TableStepKeepsAttempt(s, step, a); }
    }
  }

  lemma TableStepKeepsWorker(s: State, step: Step, a: AttemptId)
    requires Enabled(s, step) && !WorkerStep(step) && !step.ClaimStep? && a in s.workers
    ensures a in Apply(s, step).workers && Apply(s, step).workers[a].phase == s.workers[a].phase
  {
  }

  lemma FineStepStaysUncalled(f: FineState, step: FineStep, a: AttemptId)
    requires FineEnabled(f, step) && DoneUncalled(f.base, a)
    ensures DoneUncalled(FineApply(f, step).base, a)
  {
    if step.Other? {
      OtherStaysUncalled(f.base, step.step, a);
    } else if !step.WriteAttempt? {
      OnlyLastStatementWritesAttempts(f, step);
    }
  }

  lemma {:induction false} FineRunStaysUncalled(f: FineState, steps: seq<FineStep>, a: AttemptId)
    requires FineValidRun(f, steps) && DoneUncalled(f.base, a)
    ensures DoneUncalled(FineExec(f, steps).base, a)
    decreases |steps|
  {
    if steps != [] {
      FineStepStaysUncalled(f, steps[0], a);
      FineRunStaysUncalled(FineApply(f, steps[0]), steps[1..], a);
    }
  }

  lemma FailedJobIsSilent(s: State, refused: set<AttemptId>, job: JobId)
    requires FineCore(s, refused) && job in s.db.jobs && s.db.jobs[job].status == Failed
    ensures Silent(s, job)
  {
  }

  /**
   What the gate refuses is never sent: in every run from there the failed row stays as it is until it
   is deleted, the attempt is never invoked, and the provider accepts no message of the job at all.
   */
  lemma {:induction false} RefusedAtGateIsNeverSent(f: FineState, a: AttemptId, canSend: bool, now: Ms, steps: seq<FineStep>)
    requires FineReachable(f) && FineEnabled(f, Other(GateStep(a, canSend, now)))
    requires !canSend || !f.base.workers[a].resourceActive
    requires FineValidRun(FineApply(f, Other(GateStep(a, canSend, now))), steps)
    ensures var job, f1 := f.base.workers[a].job, FineApply(f, Other(GateStep(a, canSend, now)));
            var s := FineExec(f1, steps).base;
            && RowFrozen(f1.base.db, s.db, job) && (a in s.db.attempts ==> s.db.attempts[a].invokedAt.None?)
            && forall b | b in s.delivered :: b in s.workers && s.workers[b].job != job
  {
    var job, f1 := f.base.workers[a].job, FineApply(f, Other(GateStep(a, canSend, now)));
    GateDecides(f, a, canSend, now);
    FineReachesThen(f, Other(GateStep(a, canSend, now)));
    FineReachableIsGood(f1);
    FailedJobIsSilent(f1.base, f1.refused, job);
    FinalRowStillFrozenForever(f1, steps, job);
    SilentJobStillSilent(f1, steps, job);
    FineRunStaysUncalled(f1, steps, a);
  }

  // ---- claim, reservation and answer --------------------------------------------------------------------------

  /**
   A claim that succeeds hands the job to the new attempt and changes nothing else in its row; the
   attempt begins uninvoked. A claim that fails changes nothing.
   */
  lemma ClaimHandsOver(s: State, a: AttemptId, job: JobId, tenant: TenantId, auto: bool, nowUs: Us, active: bool)
    requires Enabled(s, ClaimStep(a, job, tenant, auto, nowUs, active))
    ensures var s' := Apply(s, ClaimStep(a, job, tenant, auto, nowUs, active));
            if a !in s'.db.attempts then s' == s
            else
              && job in s.db.jobs && s.db.jobs[job].tenant == tenant
              && (s.db.jobs[job].status == Queued || (auto && s.db.jobs[job].status == Waiting))
              && s'.db.jobs == s.db.jobs[job := s.db.jobs[job].(status := Processing, claimedAt := Some((nowUs + 500) / 1000),
                                                                 claimAttempt := Some(a))]
              && s'.db.attempts == s.db.attempts[a := Attempt(tenant, job, Claimed, None, false, None, None, None)]
              && s'.db.scans == s.db.scans && s'.db.idempotency == s.db.idempotency && s'.db.tenants == s.db.tenants
              && s'.workers[a] == Worker(job, tenant, s.db.jobs[job].retryCount, active, Holding, true, false)
  {
  }

  /** An admitted reservation is the call's time, to the millisecond; a deferred one queues the job again for its new time. */
  lemma {:induction false} ReservationInRows(f: FineState, a: AttemptId, nowUs: Us)
    requires FineReachable(f) && FineEnabled(f, Other(ReserveStep(a, nowUs)))
    ensures var w, s' := f.base.workers[a], Apply(f.base, ReserveStep(a, nowUs));
            && w.job in s'.db.jobs && a in s'.db.attempts
            && var j, at := s'.db.jobs[w.job], s'.db.attempts[a];
            match Decision(f.base.db.attempts, nowUs)
            case Admit =>
              && s'.db.jobs == f.base.db.jobs && at.status == Invoked && at.invokedAt == Some(nowUs / 1000) && at.hasRfcId
              && at.completedAt.None? && s'.workers[a].phase == Calling && s'.admitted == f.base.admitted + [nowUs / 1000]
            case Defer(scheduledAt) =>
              && j.status == Queued && j.scheduledAt == Some(scheduledAt) && j.claimAttempt.None? && j.claimedAt.None?
              && j.error == Some(RateLimited) && j.retryCount == f.base.db.jobs[w.job].retryCount
              && at.status == Deferred && at.invokedAt.None? && at.completedAt == Some(nowUs / 1000) && at.error == Some(RateLimited)
              && s'.workers[a].phase == Finished && !s'.workers[a].mayArrive && s'.admitted == f.base.admitted
  {
    FineReachableIsGood(f);
    HeldFacts(f.base, f.refused, a);
    match Decision(f.base.db.attempts, nowUs)
    case Admit =>
    case Defer(_) =>
  }

  /** The reason that is kept for a submission that was certainly not accepted. */
  predicate KeptReason(sub: Submission, reason: Reason) {
    && (QuotaRefusal(sub) ==> reason == QuotaRejected)
    && (sub.Receipt? ==> reason == RecipientSuppressed)
    && (FirmRefusal(sub) ==> reason == if sub.statusCode == 401 || sub.statusCode == 403 then AuthRejected else RequestRejected)
  }

  lemma {:induction false} RefusalReasons(sub: Submission)
    ensures var v := Judge(Oci, OciSend(sub)); (v.Retry? || v.Reject?) ==> KeptReason(sub, v.reason)
  {
    SubmissionOutcome(sub);
    if sub.ServiceError? {
      assert sub.serviceCode in ["QuotaExceeded", "LimitExceeded"] <==>
             sub.serviceCode == "QuotaExceeded" || sub.serviceCode == "LimitExceeded";
      assert sub.statusCode in [408, 425, 499] <==> sub.statusCode == 408 || sub.statusCode == 425 || sub.statusCode == 499;
    }
  }

  /**
   From one OCI submission to the rows: a clean receipt is a sent job, a quota refusal a job queued for
   its retry or failed after the fourth, suppression or a firm refusal a failed job with a closed call,
   and everything else a job of unknown outcome with a closed call. The reason is the same in both rows.
   */
  lemma {:induction false} SubmissionInRows(f: FineState, a: AttemptId, sub: Submission, now: Ms)
    requires FineReachable(f) && f.base.kind == Oci && FineEnabled(f, Other(VerdictStep(a, OciSend(sub), now)))
    ensures var w, s' := f.base.workers[a], Apply(f.base, VerdictStep(a, OciSend(sub), now));
            && w.job in s'.db.jobs && a in s'.db.attempts
            && var j, at := s'.db.jobs[w.job], s'.db.attempts[a];
            && at.completedAt == Some(now) && at.invokedAt == f.base.db.attempts[a].invokedAt
            && (CleanReceipt(sub) && sub.suppressed == 0 ==>
                  && j.status == Sent && j.sentAt == Some(now) && j.error.None? && j.scheduledAt.None?
                  && at.status == Succeeded && at.closedAt.None?)
            && (QuotaRefusal(sub) ==>
                  && j.retryCount == w.retryCount + 1 && j.error == at.error == Some(QuotaRejected) && at.closedAt.None?
                  && (w.retryCount < 3 ==> j.status == Queued && j.scheduledAt.Some? && at.status == RetryScheduled)
                  && (w.retryCount >= 3 ==> j.status == Failed && j.scheduledAt.None? && at.status == AttemptFailed))
            && ((CleanReceipt(sub) && sub.suppressed > 0) || FirmRefusal(sub) ==>
                  && j.status == Failed && j.scheduledAt.None? && j.error == at.error && j.error.Some? && KeptReason(sub, j.error.value)
                  && at.status == AttemptFailed && at.closedAt == Some(now))
            && (!CleanReceipt(sub) && !QuotaRefusal(sub) && !FirmRefusal(sub) ==>
                  && j.status == DeliveryUnknown && j.scheduledAt.None? && j.error == at.error == Some(ProviderOutcomeUnknown)
                  && at.status == OutcomeUnknown && at.closedAt == Some(now))
  {
    FineReachableIsGood(f);
    HeldFacts(f.base, f.refused, a);
    SubmissionOutcome(sub);
    RefusalReasons(sub);
    var w := f.base.workers[a];
    VerdictInRows(f.base.db, w.job, a, w.tenant, w.retryCount, Judge(Oci, OciSend(sub)), now);
  }

  lemma VerdictInRows(db: Db, job: JobId, a: AttemptId, tenant: TenantId, retryCount: nat, v: Verdict, now: Ms)
    requires RowsFound(db, job, a, tenant) && db.attempts[a].closedAt.None?
    ensures var db' := RecordVerdict(db, job, a, tenant, retryCount, v, now);
            && job in db'.jobs && a in db'.attempts
            && var j, at := db'.jobs[job], db'.attempts[a];
            && at.completedAt == Some(now) && at.invokedAt == db.attempts[a].invokedAt
            && (v.Delivered? ==>
                  && j.status == Sent && j.sentAt == Some(now) && j.error.None? && j.scheduledAt.None?
                  && at.status == Succeeded && at.closedAt.None?)
            && (v.Retry? ==>
                  && j.retryCount == retryCount + 1 && j.error == at.error == Some(v.reason) && at.closedAt.None?
                  && (retryCount < 3 ==> j.status == Queued && j.scheduledAt.Some? && at.status == RetryScheduled)
                  && (retryCount >= 3 ==> j.status == Failed && j.scheduledAt.None? && at.status == AttemptFailed))
            && (v.Reject? ==>
                  && j.status == Failed && j.scheduledAt.None? && j.error == at.error == Some(v.reason)
                  && at.status == AttemptFailed && at.closedAt == Some(now))
            && (v.Doubtful? ==>
                  && j.status == DeliveryUnknown && j.scheduledAt.None? && j.error == at.error == Some(ProviderOutcomeUnknown)
                  && at.status == OutcomeUnknown && at.closedAt == Some(now))
  {
  }

  /** The sandbox answers only success or failure: a sent job, or one queued for its retry, or failed after the fourth. */
  lemma {:induction false} SandboxAnswerInRows(f: FineState, a: AttemptId, result: SendResult, now: Ms)
    requires FineReachable(f) && f.base.kind == ProviderKind.Sandbox && FineEnabled(f, Other(VerdictStep(a, result, now)))
    ensures var w, s' := f.base.workers[a], Apply(f.base, VerdictStep(a, result, now));
            && w.job in s'.db.jobs && a in s'.db.attempts
            && var j, at := s'.db.jobs[w.job], s'.db.attempts[a];
            && (result.success ==> j.status == Sent && j.sentAt == Some(now) && at.status == Succeeded && at.completedAt == Some(now))
            && (!result.success ==>
                  && j.retryCount == w.retryCount + 1 && j.error == at.error == Some(ProviderFailure) && at.closedAt.None?
                  && j.status == (if w.retryCount < 3 then Queued else Failed)
                  && at.status == (if w.retryCount < 3 then RetryScheduled else AttemptFailed))
  {
    FineReachableIsGood(f);
    HeldFacts(f.base, f.refused, a);
    var w := f.base.workers[a];
    VerdictInRows(f.base.db, w.job, a, w.tenant, w.retryCount, Judge(ProviderKind.Sandbox, result), now);
  }

  // ---- jobs that leave the queue --------------------------------------------------------------------------------

  /**
   A location that leaves service fails exactly its own queued jobs: each keeps everything but status
   and reason, and the jobs of every other location and tenant stay as they are, as do all other tables.
   */
  lemma LeavingServiceFailsItsOwn(s: State, tenant: TenantId, location: LocationId, reason: Reason)
    ensures var db, db' := s.db, Apply(s, FailQueuedStep(tenant, location, reason)).db;
            && db'.jobs.Keys == db.jobs.Keys && db' == db.(jobs := db'.jobs)
            && (forall id | id in db.jobs ::
                  && (db.jobs[id].status == Queued && db.jobs[id].tenant == tenant && db.jobs[id].scan in db.scans
                      && db.scans[db.jobs[id].scan].location == location ==>
                        db'.jobs[id] == db.jobs[id].(status := Failed, error := Some(reason)))
                  && (db.jobs[id].status != Queued || db.jobs[id].tenant != tenant
                      || (db.jobs[id].scan in db.scans && db.scans[db.jobs[id].scan].location != location) ==>
                        db'.jobs[id] == db.jobs[id]))
  {
  }

  /**
   A cancellation marks one waiting job and its scan exactly if the deadline in the job's row lies
   ahead, to the millisecond; otherwise it writes nothing, and it never touches another row.
   */
  lemma {:induction false} CancellationInRows(s: State, scan: ScanId, job: JobId, nowUs: Us)
    requires Reachable(s) && scan in s.db.scans && job in s.db.jobs && s.db.jobs[job].scan == scan
    ensures var db, db' := s.db, Apply(s, CancelStep(scan, job, nowUs)).db;
            var inTime := db.jobs[job].status == Waiting && db.jobs[job].cancelUntil.Some? && nowUs / 1000 < db.jobs[job].cancelUntil.value;
            if !inTime then db' == db
            else
              && db'.jobs == db.jobs[job := db.jobs[job].(status := Canceled)]
              && db'.scans == db.scans[scan := db.scans[scan].(canceledAt := Some((nowUs + 500) / 1000))]
              && db'.attempts == db.attempts && db'.idempotency == db.idempotency && db'.tenants == db.tenants
  {
    ReachableIsGood(s);
    assert Agree(s.db.jobs[job], s.db.scans[scan]);
    CancelWrites(s.db, scan, job, nowUs);
  }

  lemma CancelWrites(db: Db, scan: ScanId, job: JobId, nowUs: Us)
    requires scan in db.scans && job in db.jobs && db.jobs[job].scan == scan && Agree(db.jobs[job], db.scans[scan])
    requires db.jobs[job].status == Waiting ==> db.scans[scan].canceledAt.None?
    ensures CancelScan(db, scan, job, nowUs) ==
            if db.jobs[job].status == Waiting && db.jobs[job].cancelUntil.Some? && nowUs / 1000 < db.jobs[job].cancelUntil.value
            then db.(jobs := db.jobs[job := db.jobs[job].(status := Canceled)],
                     scans := db.scans[scan := db.scans[scan].(canceledAt := Some((nowUs + 500) / 1000))])
            else db
  {
  }
}
