/**
 What remains of the delivery guarantees when recovery is three statements, what does not, and
 exactly when: a late answer that commits between them.
 */
module MailRecoveryTheorems {
  import opened Base
  import opened MailTables
  import opened ProviderVerdict
  import opened RateLimiter
  import opened MailTransactions
  import opened ScanIntake
  import opened Retention
  import opened MailProtocol
  import opened MailInvariant
  import opened IntakeInvariant
  import opened MailRuns
  import opened MailTheorems
  import opened RetentionTheorems
  import opened MailRecovery
  import opened MailRecoveryInvariant

  // ---- recovery in one piece is a special case -------------------------------------------------------------

  lemma {:induction false} FineAppend(f: FineState, steps: seq<FineStep>, x: FineStep)
    requires FineValidRun(f, steps) && FineEnabled(FineExec(f, steps), x)
    ensures FineValidRun(f, steps + [x]) && FineExec(f, steps + [x]) == FineApply(FineExec(f, steps), x)
    decreases |steps|
  {
    if steps == [] {
      assert [] + [x] == [x] && [x][1..] == [];
      assert FineValidRun(FineApply(f, x), []);
    } else {
      assert (steps + [x])[1..] == steps[1..] + [x];
      FineAppend(FineApply(f, steps[0]), steps[1..], x);
    }
  }

  lemma FineReachesThen(f: FineState, x: FineStep)
    requires FineReachable(f) && FineEnabled(f, x)
    ensures FineReachable(FineApply(f, x))
  {
    var init, steps :| FineInit(init) && FineValidRun(init, steps) && FineExec(init, steps) == f;
    FineAppend(init, steps, x);
  }

  /** The only plan there is. */
  function Only(p: Plan): map<PlanId, Plan> { map[0 := p] }

  lemma LookAlone(f: FineState, row: StaleRow)
    requires f.plans == map[] && FineEnabled(f, Look(0, row)) && Lookup(f.base.db, row).Some?
    ensures FineApply(f, Look(0, row)) == f.(plans := Only(Plan(row, Lookup(f.base.db, row).value, false)))
  {
  }

  lemma WriteJobAlone(f: FineState, p: Plan)
    requires f.plans == Only(p) && !p.jobWritten
    ensures FineEnabled(f, WriteJob(0))
    ensures FineApply(f, WriteJob(0)) ==
            match JobStatement(f.base.db, p.row, p.unknown)
            case None => f.(plans := map[])
            case Some(db) => f.(base := f.base.(db := db), plans := Only(p.(jobWritten := true)))
  {
    assert Without(f, 0).plans == map[];
  }

  lemma WriteAttemptAlone(f: FineState, p: Plan, now: Ms)
    requires f.plans == Only(p) && p.jobWritten
    ensures FineEnabled(f, WriteAttempt(0, now))
    ensures FineApply(f, WriteAttempt(0, now)) ==
            match AttemptStatement(f.base.db, p.row, p.unknown, now)
            case None => f.(plans := map[])
            case Some(db) => f.(base := f.base.(db := db), plans := map[])
  {
    assert Without(f, 0).plans == map[];
  }

  /** The three statements in a row do what the single step does, also when one of them raises. */
  lemma InOnePiece(f: FineState, row: StaleRow, now: Ms) returns (t: FineState)
    requires FineReachable(f) && f.plans == map[] && row in f.base.stale && !Unfenced(f.base, row)
    ensures FineReachable(t) && t == f.(base := f.base.(db := AfterRecovery(f.base.db, RecoverRow(f.base.db, row, now))))
  {
    FineReachesThen(f, Look(0, row));
    if Lookup(f.base.db, row).None? { return f; }
    var p := Plan(row, Lookup(f.base.db, row).value, false);
    LookAlone(f, row);
    var f1 := f.(plans := Only(p));
    WriteJobAlone(f1, p);
    FineReachesThen(f1, WriteJob(0));
    if JobStatement(f.base.db, row, p.unknown).None? { return f; }
    var f2 := f1.(base := f1.base.(db := JobStatement(f.base.db, row, p.unknown).value), plans := Only(p.(jobWritten := true)));
    WriteAttemptAlone(f2, p.(jobWritten := true), now);
    FineReachesThen(f2, WriteAttempt(0, now));
    t := FineApply(f2, WriteAttempt(0, now));
  }

  lemma {:induction false} RunsAreFineRuns(f: FineState, steps: seq<Step>) returns (t: FineState)
    requires FineReachable(f) && f.plans == map[] && ValidRun(f.base, steps)
    ensures FineReachable(t) && t.plans == map[] && t.base == Exec(f.base, steps)
    decreases |steps|
  {
    if steps == [] { return f; }
    var f' := f;
    if steps[0].RecoverStep? {
      f' := InOnePiece(f, steps[0].row, steps[0].now);
    } else {
      f' := FineApply(f, Other(steps[0]));
      FineReachesThen(f, Other(steps[0]));
    }
    t := RunsAreFineRuns(f', steps[1..]);
  }

  /** Every state that the machine with recovery in one piece reaches is reached by this one too. */
  lemma {:induction false} ReachableIsFineReachable(s: State)
    requires Reachable(s)
    ensures exists f :: FineReachable(f) && f.plans == map[] && f.base == s
  {
    var init, steps :| Init(init) && ValidRun(init, steps) && Exec(init, steps) == s;
    var start := FineState(init, map[], {});
    assert FineInit(start) && FineValidRun(start, []) && FineExec(start, []) == start;
    var f := RunsAreFineRuns(start, steps);
  }

  // ---- what survives ---------------------------------------------------------------------------------------

  /** The provider accepts at most one message per job, whatever happens between the statements of recovery. */
  lemma {:induction false} AtMostOneMessageStill(f: FineState, a: AttemptId, b: AttemptId)
    requires FineReachable(f) && a in f.base.delivered && b in f.base.delivered
    requires a in f.base.workers && b in f.base.workers && f.base.workers[a].job == f.base.workers[b].job
    ensures a == b
  {
    FineReachableIsGood(f);
  }

  /** A live worker that is not done finds its rows. */
  lemma {:induction false} WorkersStillFindTheirRows(f: FineState, a: AttemptId)
    requires FineReachable(f) && a in f.base.workers && f.base.workers[a].alive && f.base.workers[a].phase != Finished
    ensures RowsFound(f.base.db, f.base.workers[a].job, a, f.base.workers[a].tenant)
    ensures f.base.db.attempts[a].job == f.base.workers[a].job
  {
    FineReachableIsGood(f);
    HeldFacts(f.base, f.refused, a);
  }

  lemma UncalledJob(s: State, refused: set<AttemptId>, job: JobId)
    requires FineCore(s, refused) && (job in s.db.jobs ==> s.db.jobs[job].status == Waiting || s.db.jobs[job].status == Canceled)
    ensures InvokedAttempts(s.db.attempts, job) == {}
  {
    if job in s.db.jobs {
      assert JobOk(s.db.jobs[job]);
      assert RefusedOf(s.db.attempts, refused, job) == {};
    }
    forall a | a in s.db.attempts && s.db.attempts[a].job == job ensures s.db.attempts[a].invokedAt.None? {
      assert a !in RefusedOf(s.db.attempts, refused, job);
    }
  }

  lemma UncalledNeverArrives(s: State, refused: set<AttemptId>, job: JobId)
    requires FineCore(s, refused) && job in s.db.jobs && (s.db.jobs[job].status == Waiting || s.db.jobs[job].status == Canceled)
    ensures forall a | a in s.workers && s.workers[a].job == job :: !s.workers[a].mayArrive
  {
  }

  /** A waiting or canceled job was never handed to the provider. */
  lemma {:induction false} WaitingAndCanceledStillNeverCalled(f: FineState, job: JobId)
    requires FineReachable(f) && job in f.base.db.jobs
    requires f.base.db.jobs[job].status == Waiting || f.base.db.jobs[job].status == Canceled
    ensures InvokedAttempts(f.base.db.attempts, job) == {}
    ensures forall a | a in f.base.delivered :: a in f.base.workers && f.base.workers[a].job != job
  {
    FineReachableIsGood(f);
    UncalledJob(f.base, f.refused, job);
    UncalledNeverArrives(f.base, f.refused, job);
  }

  lemma HeldJobIsNotFinal(f: FineState, step: Step, job: JobId)
    requires FineInv(f) && Enabled(f.base, step) && WorkerStep(step) && FinalOrGone(f.base.db, job)
    ensures f.base.workers[step.attempt].job != job
  {
    HeldFacts(f.base, f.refused, step.attempt);
  }

  lemma OtherFreezes(f: FineState, step: Step, job: JobId)
    requires FineInv(f) && FineEnabled(f, Other(step)) && job in f.base.issued && FinalOrGone(f.base.db, job)
    ensures RowFrozen(f.base.db, Apply(f.base, step).db, job) && job in Apply(f.base, step).issued
  {
    IssuedStays(f.base, step);
    if WorkerStep(step) {
      HeldJobIsNotFinal(f, step, job);
      WorkerWritesOnly(f.base, step);
    } else if !ProcessEvent(step) {
      TableStepFreezes(f.base, step, job);
    }
  }

  lemma RecoveryStepFreezes(f: FineState, step: FineStep, job: JobId)
    requires FineEnabled(f, step) && !step.Other? && FinalOrGone(f.base.db, job)
    ensures RowFrozen(f.base.db, FineApply(f, step).base.db, job) && FineApply(f, step).base.issued == f.base.issued
  {
    if step.WriteJob? {
      var p := f.plans[step.id];
      if JobStatement(f.base.db, p.row, p.unknown).Some? { JobStatementWrites(f.base.db, p.row, p.unknown); }
    }
  }

  lemma FinalRowStillFrozen(f: FineState, step: FineStep, job: JobId)
    requires FineInv(f) && FineEnabled(f, step) && job in f.base.issued && FinalOrGone(f.base.db, job)
    ensures RowFrozen(f.base.db, FineApply(f, step).base.db, job) && job in FineApply(f, step).base.issued
  {
    if step.Other? { OtherFreezes(f, step.step, job); } else { RecoveryStepFreezes(f, step, job); }
  }

  /** The row of a job in a final state is not written again in any run; it can only be deleted, for good. */
  lemma {:induction false} FinalRowStillFrozenForever(f: FineState, steps: seq<FineStep>, job: JobId)
    requires FineInv(f) && FineValidRun(f, steps) && job in f.base.issued && FinalOrGone(f.base.db, job)
    ensures RowFrozen(f.base.db, FineExec(f, steps).base.db, job)
    decreases |steps|
  {
    if steps != [] {
      FinalRowStillFrozen(f, steps[0], job);
      FineStepKeeps(f, steps[0]);
      FinalRowStillFrozenForever(FineApply(f, steps[0]), steps[1..], job);
    }
  }

  lemma SilentStepStill(f: FineState, step: FineStep, job: JobId)
    requires FineInv(f) && FineEnabled(f, step) && Silent(f.base, job)
    ensures Silent(FineApply(f, step).base, job)
  {
    FinalRowStillFrozen(f, step, job);
    if step.Other? {
      if WorkerStep(step.step) { HeldJobIsNotFinal(f, step.step, job); }
      OnlyInvocationsMayArrive(f.base, step.step, job);
    }
  }

  lemma {:induction false} SilentJobStillSilent(f: FineState, steps: seq<FineStep>, job: JobId)
    requires FineInv(f) && FineValidRun(f, steps) && Silent(f.base, job)
    ensures Silent(FineExec(f, steps).base, job) && FineInv(FineExec(f, steps))
    decreases |steps|
  {
    if steps != [] {
      SilentStepStill(f, steps[0], job);
      FineStepKeeps(f, steps[0]);
      SilentJobStillSilent(FineApply(f, steps[0]), steps[1..], job);
    }
  }

  /** Canceling is final in every run: no provider call and no message, and the row is kept until it is deleted. */
  lemma {:induction false} CanceledIsStillForever(f: FineState, steps: seq<FineStep>, job: JobId)
    requires FineReachable(f) && FineValidRun(f, steps) && job in f.base.db.jobs && f.base.db.jobs[job].status == Canceled
    ensures var s := FineExec(f, steps).base;
            && RowFrozen(f.base.db, s.db, job) && InvokedAttempts(s.db.attempts, job) == {}
            && forall a | a in s.delivered :: a in s.workers && s.workers[a].job != job
  {
    FineReachableIsGood(f);
    UncalledNeverArrives(f.base, f.refused, job);
    FinalRowStillFrozenForever(f, steps, job);
    SilentJobStillSilent(f, steps, job);
    UncalledJob(FineExec(f, steps).base, FineExec(f, steps).refused, job);
  }

  // ---- accounting ------------------------------------------------------------------------------------------

  /** Some call of the job was not answered with a transient refusal. */
  ghost predicate HasUnrefused(f: FineState, job: JobId) {
    exists a :: a in InvokedAttempts(f.base.db.attempts, job) && a !in f.refused
  }

  lemma CallsAreRefusedOrLast(s: State, refused: set<AttemptId>, job: JobId)
    requires FineCore(s, refused) && job in s.db.jobs
    ensures var all := InvokedAttempts(s.db.attempts, job);
            && RefusedOf(s.db.attempts, refused, job) == all * refused
            && forall a, b | a in all - refused && b in all - refused :: a == b
  {
  }

  lemma CountOneMore(all: set<AttemptId>, refused: set<AttemptId>, a: AttemptId)
    requires a in all && a !in refused && forall b | b in all - refused :: b == a
    ensures |all| == |all * refused| + 1
  {
    forall b | b in all ensures b in all * refused + {a} {
      if b !in refused { assert b in all - refused; }
    }
    assert all == all * refused + {a};
  }

  lemma LastCallCounts(s: State, refused: set<AttemptId>, job: JobId, a: AttemptId)
    requires FineCore(s, refused) && job in s.db.jobs && a in InvokedAttempts(s.db.attempts, job) && a !in refused
    ensures s.db.jobs[job].retryCount < 4
  {
    assert s.workers[a].retryCount < MAX_RETRY_COUNT;
  }

  /**
   A job's provider calls number retryCount, plus one if some call was not transiently refused, and
   never more than four: the ledger is the answers themselves and not what recovery makes of the rows.
   */
  lemma {:induction false} CallsAreStillAccounted(f: FineState, job: JobId)
    requires FineReachable(f) && job in f.base.db.jobs
    ensures |InvokedAttempts(f.base.db.attempts, job)| == f.base.db.jobs[job].retryCount + (if HasUnrefused(f, job) then 1 else 0)
    ensures |InvokedAttempts(f.base.db.attempts, job)| <= 4
  {
    FineReachableIsGood(f);
    CallsOfOneJob(f, job);
  }

  lemma CallsOfOneJob(f: FineState, job: JobId)
    requires FineCore(f.base, f.refused) && job in f.base.db.jobs
    ensures |InvokedAttempts(f.base.db.attempts, job)| == f.base.db.jobs[job].retryCount + (if HasUnrefused(f, job) then 1 else 0)
    ensures |InvokedAttempts(f.base.db.attempts, job)| <= 4
  {
    var all := InvokedAttempts(f.base.db.attempts, job);
    CallsAreRefusedOrLast(f.base, f.refused, job);
    if HasUnrefused(f, job) {
      var a :| a in all && a !in f.refused;
      CountOneMore(all, f.refused, a);
      LastCallCounts(f.base, f.refused, job, a);
    } else {
      assert all == all * f.refused;
      assert JobOk(f.base.db.jobs[job]);
    }
  }

  // ---- what does not survive, and exactly when -------------------------------------------------------------

  predicate LooksOverwritten(at: Attempt) {
    at.status == OutcomeUnknown && at.invokedAt.Some? && at.closedAt.None?
  }

  /** The worker has its answer, and yet the attempt is recorded as a call that may still return. */
  ghost predicate Overwritten(s: State, a: AttemptId) {
    a in s.db.attempts && a in s.workers && s.workers[a].phase == Finished && LooksOverwritten(s.db.attempts[a])
  }

  /** The last statement of a recovery that looked while the call was open, after an answer that did not close it. */
  ghost predicate Overwrites(f: FineState, step: FineStep, a: AttemptId) {
    && step.WriteAttempt? && step.id in f.plans && f.plans[step.id].unknown && f.plans[step.id].row.claim == Some(a)
    && a in f.base.db.attempts && a in f.base.workers && f.base.workers[a].phase == Finished && f.base.db.attempts[a].closedAt.None?
  }

  lemma BlockedIsNotOverwritten(db: Db, job: JobId, a: AttemptId, tenant: TenantId, reason: Reason, now: Ms)
    requires RowsFound(db, job, a, tenant)
    ensures !LooksOverwritten(BlockJob(db, job, a, tenant, reason, now).attempts[a])
  {
  }

  lemma AnsweredIsNotOverwritten(db: Db, job: JobId, a: AttemptId, tenant: TenantId, retryCount: nat, v: Verdict, now: Ms)
    requires RowsFound(db, job, a, tenant)
    ensures a in RecordVerdict(db, job, a, tenant, retryCount, v, now).attempts
    ensures !LooksOverwritten(RecordVerdict(db, job, a, tenant, retryCount, v, now).attempts[a])
  {
  }

  lemma GateOverwritesNothing(s: State, a: AttemptId, canSend: bool, now: Ms)
    requires a in s.workers && RowsFound(s.db, s.workers[a].job, a, s.workers[a].tenant)
    ensures !Overwritten(AfterGate(s, a, canSend, now), a)
  {
    var w := s.workers[a];
    BlockedIsNotOverwritten(s.db, w.job, a, w.tenant, if canSend then ResourceNotSendable else SubscriptionNotSendable, now);
  }

  lemma ReserveOverwritesNothing(s: State, a: AttemptId, nowUs: Us)
    requires a in s.workers && RowsFound(s.db, s.workers[a].job, a, s.workers[a].tenant)
    ensures !Overwritten(AfterReserve(s, a, nowUs), a)
  {
    match Decision(s.db.attempts, nowUs)
    case Admit => assert AfterReserve(s, a, nowUs).workers[a].phase == Calling;
    case Defer(_) => assert AfterReserve(s, a, nowUs).db.attempts[a].status == Deferred;
  }

  lemma OwnStepOverwritesNothing(s: State, refused: set<AttemptId>, step: Step)
    requires FineCore(s, refused) && Enabled(s, step) && WorkerStep(step)
    ensures !Overwritten(s, step.attempt) && !Overwritten(Apply(s, step), step.attempt)
  {
    HeldFacts(s, refused, step.attempt);
    match step
    case GateStep(a, canSend, now) => GateOverwritesNothing(s, a, canSend, now);
    case ReserveStep(a, nowUs) => ReserveOverwritesNothing(s, a, nowUs);
    case SandboxStep(a, now) =>
    case VerdictStep(a, result, now) =>
      AnsweredIsNotOverwritten(s.db, s.workers[a].job, a, s.workers[a].tenant, s.workers[a].retryCount, Judge(s.kind, result), now);
  }

  /** The attempt is as before, and so is the phase of its worker. */
  ghost predicate SameAttempt(s: State, s': State, a: AttemptId) {
    && a in s.db.attempts && a in s'.db.attempts && s'.db.attempts[a] == s.db.attempts[a]
    && (a in s'.workers <==> a in s.workers) && (a in s.workers ==> s'.workers[a].phase == s.workers[a].phase)
  }

  lemma DeletionKeepsOthers(s: State, step: Step, a: AttemptId)
    requires Enabled(s, step) && (step.PurgeFamilyStep? || step.PurgeTenantStep?) && a in Apply(s, step).db.attempts
    ensures SameAttempt(s, Apply(s, step), a)
  {
    match step
    case PurgeFamilyStep(_, _, _, _) =>
    case PurgeTenantStep(_, _) =>
  }

  lemma ClaimKeepsOthers(s: State, step: Step, a: AttemptId)
    requires Enabled(s, step) && step.ClaimStep? && a in Apply(s, step).db.attempts
    ensures SameAttempt(s, Apply(s, step), a) || (a !in s.workers && !Overwritten(Apply(s, step), a))
  {
  }

  lemma TableStepKeepsAttempt(s: State, step: Step, a: AttemptId)
    requires Enabled(s, step) && !WorkerStep(step) && !step.RecoverStep? && !step.ClaimStep? && a in Apply(s, step).db.attempts
    ensures SameAttempt(s, Apply(s, step), a)
  {
    if step.PurgeFamilyStep? || step.PurgeTenantStep? {
      DeletionKeepsOthers(s, step, a);
    } else {
      match step
      case ScanStep(r, nowUs, scan, id) => IntakeWrites(s.db, r, nowUs, scan, id);
      case CancelStep(_, _, _) =>
      case FailQueuedStep(_, _, _) =>
      case TenantStep(_, _) =>
      case ArriveStep(_) =>
      case CrashStep(_) =>
      case ListStaleStep(_, _) =>
    }
  }

  lemma OtherOverwritesNothing(s: State, refused: set<AttemptId>, step: Step, a: AttemptId)
    requires FineCore(s, refused) && Enabled(s, step) && !step.RecoverStep? && a in Apply(s, step).db.attempts
    ensures Overwritten(Apply(s, step), a) <==> Overwritten(s, a)
  {
    if WorkerStep(step) {
      if step.attempt == a {
        OwnStepOverwritesNothing(s, refused, step);
      } else {
        WorkerWritesOnly(s, step);
        OthersKeepTheirPhase(s, step, a);
      }
    } else if step.ClaimStep? {
      ClaimKeepsOthers(s, step, a);
    } else {
      TableStepKeepsAttempt(s, step, a);
    }
  }

  lemma OthersKeepTheirPhase(s: State, step: Step, a: AttemptId)
    requires Enabled(s, step) && WorkerStep(step) && step.attempt != a
    ensures a in Apply(s, step).workers <==> a in s.workers
    ensures a in s.workers ==> Apply(s, step).workers[a] == s.workers[a]
  {
    match step
    case GateStep(_, _, _) =>
    case ReserveStep(_, _) =>
    case SandboxStep(_, _) =>
    case VerdictStep(_, _, _) =>
  }

  lemma LastStatementOverwrites(f: FineState, id: PlanId, now: Ms, a: AttemptId)
    requires FineInv(f) && FineEnabled(f, WriteAttempt(id, now)) && a in FineApply(f, WriteAttempt(id, now)).base.db.attempts
    ensures Overwritten(FineApply(f, WriteAttempt(id, now)).base, a) <==> Overwritten(f.base, a) || Overwrites(f, WriteAttempt(id, now), a)
  {
    var p := f.plans[id];
    assert PlanOk(f.base, p);
    if AttemptStatement(f.base.db, p.row, p.unknown, now).Some? && p.row.claim.value == a {
      assert p.unknown || !Overwritten(f.base, a) by { if !p.unknown { assert f.base.db.attempts[a].job in f.base.db.jobs; } }
    }
  }

  lemma OnlyLastStatementWritesAttempts(f: FineState, step: FineStep)
    requires FineEnabled(f, step) && (step.Look? || step.WriteJob? || step.Stop?)
    ensures FineApply(f, step).base.db.attempts == f.base.db.attempts && FineApply(f, step).base.workers == f.base.workers
  {
  }

  /**
   The exact condition, over all states and steps: an attempt becomes overwritten only by the last
   statement of a recovery that looked while the call was open, exactly if the worker has meanwhile
   recorded an answer and that answer did not close the call. Nothing makes it right again.
   */
  lemma OverwrittenExactly(f: FineState, step: FineStep, a: AttemptId)
    requires FineInv(f) && FineEnabled(f, step) && a in FineApply(f, step).base.db.attempts
    ensures Overwritten(FineApply(f, step).base, a) <==> Overwritten(f.base, a) || Overwrites(f, step, a)
  {
    if step.Other? {
      OtherOverwritesNothing(f.base, f.refused, step.step, a);
    } else if step.WriteAttempt? {
      LastStatementOverwrites(f, step.id, step.now, a);
    } else {
      OnlyLastStatementWritesAttempts(f, step);
    }
  }

  /** The answers that leave a call open for recovery to overwrite are acceptance and transient refusal. */
  lemma LateAnswerIsOverwritten(f: FineState, id: PlanId, result: SendResult, now: Ms, later: Ms)
    requires FineInv(f) && id in f.plans && f.plans[id].unknown && f.plans[id].jobWritten
    requires var a := f.plans[id].row.claim; a.Some? && FineEnabled(f, Other(VerdictStep(a.value, result, now)))
    ensures var a, v := f.plans[id].row.claim.value, Judge(f.base.kind, result);
            var answered := FineApply(f, Other(VerdictStep(a, result, now)));
            && FineEnabled(answered, WriteAttempt(id, later))
            && (Overwritten(FineApply(answered, WriteAttempt(id, later)).base, a) <==> v.Delivered? || v.Retry?)
  {
    var step := VerdictStep(f.plans[id].row.claim.value, result, now);
    FineStepKeeps(f, Other(step));
    AnsweredCall(f, step);
    OwnStepOverwritesNothing(f.base, f.refused, step);
    LastStatementDecides(FineApply(f, Other(step)), id, later);
  }

  /** After an answer the last statement of the recovery overwrites exactly what is not closed. */
  lemma LastStatementDecides(f: FineState, id: PlanId, later: Ms)
    requires FineInv(f) && FineEnabled(f, WriteAttempt(id, later)) && f.plans[id].unknown && f.plans[id].row.claim.Some?
    requires var a := f.plans[id].row.claim.value;
             a in f.base.db.attempts && a in f.base.workers && f.base.workers[a].phase == Finished && !Overwritten(f.base, a)
    ensures var a := f.plans[id].row.claim.value;
            Overwritten(FineApply(f, WriteAttempt(id, later)).base, a) <==> f.base.db.attempts[a].closedAt.None?
  {
    LastStatementOverwrites(f, id, later, f.plans[id].row.claim.value);
  }

  lemma AnsweredCall(f: FineState, step: Step)
    requires FineInv(f) && step.VerdictStep? && FineEnabled(f, Other(step))
    ensures var s', v := Apply(f.base, step), Judge(f.base.kind, step.result);
            && step.attempt in s'.db.attempts && step.attempt in s'.workers && s'.workers[step.attempt].phase == Finished
            && (s'.db.attempts[step.attempt].closedAt.Some? <==> v.Reject? || v.Doubtful?)
  {
    HeldFacts(f.base, f.refused, step.attempt);
    AnswerClosesExactly(f.base, step.attempt, step.result, step.now);
  }

  lemma AnswerClosesExactly(s: State, a: AttemptId, result: SendResult, now: Ms)
    requires Holds(s, a, Calling) && RowsFound(s.db, s.workers[a].job, a, s.workers[a].tenant) && s.db.attempts[a].closedAt.None?
    ensures var s', v := AfterVerdict(s, a, result, now), Judge(s.kind, result);
            && a in s'.db.attempts && a in s'.workers && s'.workers[a].phase == Finished
            && (s'.db.attempts[a].closedAt.Some? <==> v.Reject? || v.Doubtful?)
  {
  }

  // ---- an overwritten attempt stays --------------------------------------------------------------------------

  lemma FamilyPurgeKeepsInFlight(
    s: State, refused: set<AttemptId>, addYear: Calendar, tenant: TenantId, scan: ScanId, nowUs: Us, a: AttemptId)
    requires FineCore(s, refused) && a in s.db.attempts && InFlight(s.db.attempts[a])
    ensures a in PurgeFamily(addYear, s.db, tenant, scan, nowUs).db.attempts
  {
    if PurgeFamily(addYear, s.db, tenant, scan, nowUs).outcome == Deleted { FamilyPurgeIsQuiet(s, addYear, tenant, scan, nowUs); }
  }

  lemma TenantPurgeKeepsInFlight(s: State, refused: set<AttemptId>, tenant: TenantId, due: bool, a: AttemptId)
    requires FineCore(s, refused) && a in s.db.attempts && InFlight(s.db.attempts[a])
    ensures a in PurgeTenant(s.db, tenant, due).attempts
  {
    if PurgeTenant(s.db, tenant, due) != s.db { TenantPurgeIsQuiet(s, tenant); }
  }

  lemma TableStepKeepsRow(s: State, step: Step, a: AttemptId)
    requires Enabled(s, step) && !step.RecoverStep? && !WorkerStep(step) && !step.PurgeFamilyStep? && !step.PurgeTenantStep?
    requires a in s.db.attempts
    ensures a in Apply(s, step).db.attempts
  {
    match step
    case ScanStep(r, nowUs, scan, id) => IntakeWrites(s.db, r, nowUs, scan, id);
    case ClaimStep(_, _, _, _, _, _) =>
    case CancelStep(_, _, _) =>
    case FailQueuedStep(_, _, _) =>
    case TenantStep(_, _) =>
    case ArriveStep(_) =>
    case CrashStep(_) =>
    case ListStaleStep(_, _) =>
  }

  lemma InFlightRowStays(s: State, refused: set<AttemptId>, step: Step, a: AttemptId)
    requires FineCore(s, refused) && Enabled(s, step) && !step.RecoverStep? && a in s.db.attempts && InFlight(s.db.attempts[a])
    ensures a in Apply(s, step).db.attempts
  {
    if WorkerStep(step) {
      WorkerWritesOnly(s, step);
    } else if step.PurgeFamilyStep? {
      FamilyPurgeKeepsInFlight(s, refused, step.addYear, step.tenant, step.scan, step.nowUs, a);
    } else if step.PurgeTenantStep? {
      TenantPurgeKeepsInFlight(s, refused, step.tenant, step.due, a);
    } else {
      TableStepKeepsRow(s, step, a);
    }
  }

  lemma RecoveryStepKeepsRow(f: FineState, step: FineStep, a: AttemptId)
    requires FineEnabled(f, step) && !step.Other? && a in f.base.db.attempts
    ensures a in FineApply(f, step).base.db.attempts
  {
    if !step.WriteAttempt? { OnlyLastStatementWritesAttempts(f, step); }
  }

  lemma OverwrittenStays(f: FineState, step: FineStep, a: AttemptId)
    requires FineInv(f) && FineEnabled(f, step) && Overwritten(f.base, a)
    ensures Overwritten(FineApply(f, step).base, a)
  {
    if step.Other? { InFlightRowStays(f.base, f.refused, step.step, a); } else { RecoveryStepKeepsRow(f, step, a); }
    OverwrittenExactly(f, step, a);
  }

  /** What an attempt in flight holds up: retention of its family, and the purge of its tenant. */
  lemma InFlightHoldsUp(db: Db, a: AttemptId)
    requires a in db.attempts && InFlight(db.attempts[a]) && db.attempts[a].job in db.jobs
    ensures var j := db.jobs[db.attempts[a].job];
            && TenantMailInFlight(db, j.tenant)
            && (forall due :: PurgeTenant(db, j.tenant, due) == db)
            && forall addYear: Calendar, tenant, nowUs :: PurgeFamily(addYear, db, tenant, j.scan, nowUs).outcome != Deleted
  {
    var j := db.jobs[db.attempts[a].job];
    assert TenantMailInFlight(db, j.tenant);
    forall tenant ensures AttemptRowsBlock(db, tenant, j.scan) {}
  }

  /**
   An overwritten attempt is for good: in every run it stays, no retention by any calendar ever
   deletes its family, and its tenant is never purged.
   */
  lemma {:induction false} OverwrittenForever(f: FineState, steps: seq<FineStep>, a: AttemptId)
    requires FineInv(f) && FineValidRun(f, steps) && Overwritten(f.base, a)
    ensures var db := FineExec(f, steps).base.db;
            && Overwritten(FineExec(f, steps).base, a) && db.attempts[a].job in db.jobs
            && var j := db.jobs[db.attempts[a].job];
            && (forall due :: PurgeTenant(db, j.tenant, due) == db)
            && forall addYear: Calendar, tenant, nowUs :: PurgeFamily(addYear, db, tenant, j.scan, nowUs).outcome != Deleted
    decreases |steps|
  {
    if steps == [] {
      InFlightHoldsUp(f.base.db, a);
    } else {
      OverwrittenStays(f, steps[0], a);
      FineStepKeeps(f, steps[0]);
      OverwrittenForever(FineApply(f, steps[0]), steps[1..], a);
    }
  }

  // ---- the theorems about rows, with their exception ---------------------------------------------------------

  /** A refused call counts as possibly delivered exactly if recovery has written over it. */
  lemma {:induction false} RefusedLooksOpenExactly(f: FineState, a: AttemptId)
    requires FineReachable(f) && a in f.refused && a in f.base.db.attempts
    ensures MayBeDelivered(f.base.db.attempts[a]) <==> Overwritten(f.base, a)
  {
    FineReachableIsGood(f);
  }

  lemma OneUnrefused(s: State, refused: set<AttemptId>, a: AttemptId, b: AttemptId)
    requires Linked(s) && CallsOk(s, refused) && a in s.db.attempts && b in s.db.attempts && s.db.attempts[a].job == s.db.attempts[b].job
    requires s.db.attempts[a].invokedAt.Some? && s.db.attempts[b].invokedAt.Some? && a !in refused && b !in refused
    ensures a == b
  {
  }

  /** Two recorded attempts of a job that may have been delivered: one of them was refused and written over. */
  lemma {:induction false} OnePossibleDeliveryUnlessOverwritten(f: FineState, a: AttemptId, b: AttemptId)
    requires FineReachable(f) && a in f.base.db.attempts && b in f.base.db.attempts && a != b
    requires f.base.db.attempts[a].job == f.base.db.attempts[b].job
    requires MayBeDelivered(f.base.db.attempts[a]) && MayBeDelivered(f.base.db.attempts[b])
    ensures (a in f.refused && Overwritten(f.base, a)) || (b in f.refused && Overwritten(f.base, b))
  {
    FineReachableIsGood(f);
    if a !in f.refused && b !in f.refused { OneUnrefused(f.base, f.refused, a, b); }
    if a in f.refused { RefusedLooksOpenExactly(f, a); }
    if b in f.refused { RefusedLooksOpenExactly(f, b); }
  }

  lemma UnrefusedUnclaimable(s: State, refused: set<AttemptId>, a: AttemptId, auto: bool, nowUs: Us)
    requires Linked(s) && CallsOk(s, refused) && a in s.db.attempts && s.db.attempts[a].invokedAt.Some? && a !in refused
    ensures !Claimable(s.db.jobs[s.db.attempts[a].job], auto, nowUs)
  {
  }

  /** A job that is claimable beside an attempt that may have been delivered: it was refused and written over. */
  lemma {:induction false} ClaimableOnlyBesideOverwritten(f: FineState, a: AttemptId, auto: bool, nowUs: Us)
    requires FineReachable(f) && a in f.base.db.attempts && MayBeDelivered(f.base.db.attempts[a])
    requires var id := f.base.db.attempts[a].job; id in f.base.db.jobs && Claimable(f.base.db.jobs[id], auto, nowUs)
    ensures a in f.refused && Overwritten(f.base, a)
  {
    FineReachableIsGood(f);
    if a !in f.refused { UnrefusedUnclaimable(f.base, f.refused, a, auto, nowUs); }
    RefusedLooksOpenExactly(f, a);
  }

  /** Whoever is in flight has a worker that is not done, or is overwritten. */
  lemma {:induction false} InFlightIsUnfinishedOrOverwritten(f: FineState, a: AttemptId)
    requires FineReachable(f) && a in f.base.db.attempts && InFlight(f.base.db.attempts[a])
    ensures a in f.base.workers && (f.base.workers[a].phase != Finished || Overwritten(f.base, a))
  {
    FineReachableIsGood(f);
  }

  // ---- retention -------------------------------------------------------------------------------------------

  /** The one job of the family has ended, and none of its attempts is in flight. */
  predicate AllQuiet(db: Db, job: JobId)
    requires job in db.jobs
  {
    && TerminalStatus(db.jobs[job].status) && !Stranded(db, job)
    && (db.jobs[job].status == DeliveryUnknown ==> HasClosedUnknown(db, job))
    && forall a | a in db.attempts && db.attempts[a].job == job :: !InFlight(db.attempts[a])
  }

  /** A due family is purged exactly if its one job is quiet: the tenant clauses of the rechecks never decide. */
  lemma {:induction false} PurgedExactlyWhenQuiet(f: FineState, scan: ScanId, job: JobId, addYear: Calendar, nowUs: Us)
    requires FineReachable(f) && scan in f.base.db.scans && IsJobOf(f.base.db, scan, job) && InBacklog(addYear, f.base.db, scan, nowUs)
    ensures PurgeFamily(addYear, f.base.db, f.base.db.scans[scan].tenant, scan, nowUs).outcome == Deleted <==> AllQuiet(f.base.db, job)
  {
    FineReachableIsGood(f);
    FamilyRecordsPass(f.base.db, scan);
    RechecksAreAllQuiet(f.base, scan, job);
  }

  lemma RechecksAreAllQuiet(s: State, scan: ScanId, job: JobId)
    requires Linked(s) && Paired(s.db) && scan in s.db.scans && IsJobOf(s.db, scan, job)
    ensures var t := s.db.scans[scan].tenant;
            AllQuiet(s.db, job) <==> !JobRowsBlock(s.db, t, scan) && !AttemptRowsBlock(s.db, t, scan)
  {
    assert s.db.jobs[job].tenant == s.db.scans[scan].tenant;
    forall j | j in s.db.jobs && s.db.jobs[j].scan == scan ensures j == job {}
  }
}
