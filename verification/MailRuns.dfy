/**
 Every step keeps every invariant, so every reachable state has them; and what single steps can
 and cannot do to a job row.
 */
module MailRuns {
  import opened Base
  import opened MailTables
  import opened ProviderVerdict
  import opened RateLimiter
  import opened MailTransactions
  import opened ScanIntake
  import opened Retention
  import opened MailProtocol
  import opened MailInvariant
  import opened IntakeInvariant

  // ---- reservations -----------------------------------------------------------------------------

  ghost predicate SubReservations(before: map<AttemptId, Attempt>, after: map<AttemptId, Attempt>) {
    forall a | a in Reservations(after) :: a in Reservations(before) && Reservations(after)[a] == Reservations(before)[a]
  }

  lemma RecoveryReservesNothing(db: Db, row: StaleRow, now: Ms)
    ensures SubReservations(db.attempts, AfterRecovery(db, RecoverRow(db, row, now)).attempts)
    ensures SubReservations(AfterRecovery(db, RecoverRow(db, row, now)).attempts, db.attempts)
  {
    RecoveryWritesAttempt(db, row, now);
    SameReservations(db.attempts, AfterRecovery(db, RecoverRow(db, row, now)).attempts, row, RecoversAsUnknown(db, row), now);
  }

  lemma SameReservations(before: map<AttemptId, Attempt>, after: map<AttemptId, Attempt>, row: StaleRow, unknown: bool, now: Ms)
    requires || after == before
             || (row.claim.Some? && row.claim.value in before
                 && after == before[row.claim.value := RecoveredAttempt(before[row.claim.value], unknown, now)])
    ensures SubReservations(before, after) && SubReservations(after, before)
  {
  }

  lemma VerdictReservesNothing(db: Db, job: JobId, a: AttemptId, tenant: TenantId, retryCount: nat, v: Verdict, now: Ms)
    ensures SubReservations(db.attempts, RecordVerdict(db, job, a, tenant, retryCount, v, now).attempts)
  {
  }

  lemma PurgeReservesNothing(addYear: Calendar, db: Db, tenant: TenantId, scan: ScanId, nowUs: Us)
    ensures SubReservations(db.attempts, PurgeFamily(addYear, db, tenant, scan, nowUs).db.attempts)
  {
  }

  /** Only an admission adds a reservation. */
  lemma OnlyAdmissionReserves(s: State, step: Step)
    requires Enabled(s, step)
    requires !step.ReserveStep? || Decision(s.db.attempts, step.nowUs).Defer?
    ensures SubReservations(s.db.attempts, Apply(s, step).db.attempts)
  {
    match step
    case ScanStep(r, nowUs, scan, job) => IntakeWrites(s.db, r, nowUs, scan, job);
    case VerdictStep(a, result, now) =>
      var w := s.workers[a];
      VerdictReservesNothing(s.db, w.job, a, w.tenant, w.retryCount, Judge(s.kind, result), now);
    case RecoverStep(row, now) => RecoveryReservesNothing(s.db, row, now);
    case PurgeFamilyStep(tenant, scan, addYear, nowUs) => PurgeReservesNothing(addYear, s.db, tenant, scan, nowUs);
    case _ =>
  }

  lemma ReservationsStayPaced(before: map<AttemptId, Attempt>, after: map<AttemptId, Attempt>)
    requires PacedRows(before) && SubReservations(before, after)
    ensures PacedRows(after)
  {
  }

  lemma AdmissionStaysPaced(attempts: map<AttemptId, Attempt>, a: AttemptId, at: Attempt, nowUs: Us)
    requires PacedRows(attempts) && Decision(attempts, nowUs).Admit?
    requires a in attempts && attempts[a].invokedAt.None? && at.invokedAt == Some(TruncMs(nowUs)) && at.hasRfcId
    ensures PacedRows(attempts[a := at])
  {
    AdmittedIsLast(attempts, nowUs);
    var all, all' := Reservations(attempts), Reservations(attempts[a := at]);
    assert all' == all[a := TruncMs(nowUs)];
  }

  // ---- all invariants ---------------------------------------------------------------------------

  ghost predicate Good(s: State) {
    Inv(s) && IntakeInv(s.db) && PacedRows(s.db.attempts)
  }

  lemma StepKeepsPace(s: State, step: Step)
    requires Good(s) && Enabled(s, step)
    ensures PacedRows(Apply(s, step).db.attempts)
  {
    if step.ReserveStep? && Decision(s.db.attempts, step.nowUs).Admit? {
      HeldJobNotCanceled(s, step.attempt);
      assert WorkerOk(s, step.attempt);
      AdmissionStaysPaced(s.db.attempts, step.attempt, Apply(s, step).db.attempts[step.attempt], step.nowUs);
    } else {
      OnlyAdmissionReserves(s, step);
      ReservationsStayPaced(s.db.attempts, Apply(s, step).db.attempts);
    }
  }

  /** What intake writes to the delivery tables: one waiting job, or nothing. */
  lemma IntakeWrites(db: Db, r: ScanRequest, nowUs: Us, scan: ScanId, job: JobId)
    ensures var i := CreateScan(db, r, nowUs, scan, job);
            && i.db.attempts == db.attempts
            && i.db.jobs == if i.outcome.Created? then db.jobs[job := NewJob(r, scan, nowUs)] else db.jobs
  {
  }

  lemma CreatedScanKeepsInv(s: State, db': Db, r: ScanRequest, nowUs: Us, scan: ScanId, job: JobId)
    requires Inv(s) && FreshJob(s, job) && db'.attempts == s.db.attempts && db'.jobs == s.db.jobs[job := NewJob(r, scan, nowUs)]
    ensures Inv(s.(db := db', issued := s.issued + {job}))
  {
    assert JobOk(NewJob(r, scan, nowUs));
    InsertKeeps(s, db', job, NewJob(r, scan, nowUs));
  }

  lemma UnchangedJobsKeepInv(s: State, db': Db, job: JobId)
    requires Inv(s) && db'.attempts == s.db.attempts && db'.jobs == s.db.jobs
    ensures Inv(s.(db := db', issued := s.issued + {job}))
  {
    TenantStatusIsInert(s, db');
    IssueKeeps(s.(db := db'), job);
  }

  lemma ScanStepKeepsInv(s: State, r: ScanRequest, nowUs: Us, scan: ScanId, job: JobId)
    requires Inv(s) && scan !in s.db.scans && FreshJob(s, job)
    ensures Inv(s.(db := CreateScan(s.db, r, nowUs, scan, job).db, issued := s.issued + {job}))
  {
    IntakeWrites(s.db, r, nowUs, scan, job);
    var i := CreateScan(s.db, r, nowUs, scan, job);
    if i.outcome.Created? {
      CreatedScanKeepsInv(s, i.db, r, nowUs, scan, job);
    } else {
      UnchangedJobsKeepInv(s, i.db, job);
    }
  }

  lemma CancelStepKeepsInv(s: State, scan: ScanId, job: JobId, nowUs: Us)
    requires Inv(s)
    ensures Inv(s.(db := CancelScan(s.db, scan, job, nowUs)))
  {
    LeaveQueueKeeps(s, CancelScan(s.db, scan, job, nowUs));
  }

  lemma PurgeFamilyKeepsInv(s: State, addYear: Calendar, tenant: TenantId, scan: ScanId, nowUs: Us)
    requires Inv(s) && IntakeInv(s.db)
    ensures Inv(s.(db := PurgeFamily(addYear, s.db, tenant, scan, nowUs).db))
    ensures IntakeInv(PurgeFamily(addYear, s.db, tenant, scan, nowUs).db)
  {
    var p := PurgeFamily(addYear, s.db, tenant, scan, nowUs);
    if p.outcome == Deleted {
      FamilyPurgeDrops(s, addYear, tenant, scan, nowUs);
      DropKeeps(s, p.db);
      DropKeepsIntake(s.db, p.db);
    }
  }

  lemma PurgeTenantKeepsInv(s: State, tenant: TenantId, due: bool)
    requires Inv(s) && IntakeInv(s.db)
    ensures Inv(s.(db := PurgeTenant(s.db, tenant, due)))
    ensures IntakeInv(PurgeTenant(s.db, tenant, due))
  {
    var db' := PurgeTenant(s.db, tenant, due);
    if db' != s.db {
      TenantPurgeDrops(s, tenant);
      DropKeeps(s, db');
      DropKeepsIntake(s.db, db');
    }
  }

  lemma ClaimAndWorkerStepsKeepInv(s: State, step: Step)
    requires Good(s) && Enabled(s, step) && (step.ClaimStep? || WorkerStep(step))
    ensures Inv(Apply(s, step))
  {
    match step
    case ClaimStep(a, job, tenant, auto, nowUs, active) => ClaimKeeps(s, a, job, tenant, auto, nowUs, active);
    case GateStep(a, canSend, now) => GateKeeps(s, a, canSend, now);
    case ReserveStep(a, nowUs) => ReserveKeeps(s, a, nowUs);
    case SandboxStep(a, now) => InvokeKeeps(s, a, now, false);
    case VerdictStep(a, result, now) => VerdictKeeps(s, a, result, now);
  }

  lemma ProcessEventsKeepInv(s: State, step: Step)
    requires Good(s) && Enabled(s, step) && (ProcessEvent(step) || step.RecoverStep?)
    ensures Inv(Apply(s, step))
  {
    match step
    case ArriveStep(a) => ArriveKeeps(s, a);
    case CrashStep(a) => CrashKeeps(s, a);
    case ListStaleStep(rows, staleBefore) => ListStaleKeeps(s, rows, staleBefore);
    case RecoverStep(row, now) => RecoverKeeps(s, row, now);
  }

  /** Every step keeps the delivery invariant. */
  lemma StepKeepsInv(s: State, step: Step)
    requires Good(s) && Enabled(s, step)
    ensures Inv(Apply(s, step))
  {
    if step.ClaimStep? || WorkerStep(step) {
      ClaimAndWorkerStepsKeepInv(s, step);
    } else if ProcessEvent(step) || step.RecoverStep? {
      ProcessEventsKeepInv(s, step);
    } else {
      match step
      case ScanStep(r, nowUs, scan, job) => ScanStepKeepsInv(s, r, nowUs, scan, job);
      case CancelStep(scan, job, nowUs) => CancelStepKeepsInv(s, scan, job, nowUs);
      case FailQueuedStep(tenant, location, reason) => LeaveQueueKeeps(s, FailQueued(s.db, tenant, location, reason));
      case PurgeFamilyStep(tenant, scan, addYear, nowUs) => PurgeFamilyKeepsInv(s, addYear, tenant, scan, nowUs);
      case PurgeTenantStep(tenant, due) => PurgeTenantKeepsInv(s, tenant, due);
      case TenantStep(tenant, status) => TenantStatusIsInert(s, Apply(s, step).db);
    }
  }

  /** Every step keeps the scan invariant. */
  lemma StepKeepsIntake(s: State, step: Step)
    requires Good(s) && Enabled(s, step)
    ensures IntakeInv(Apply(s, step).db)
  {
    if step.ClaimStep? || WorkerStep(step) {
      if WorkerStep(step) { HeldJobNotCanceled(s, step.attempt); }
      WorkerStepRewrites(s, step);
      RewriteKeepsIntake(s.db, Apply(s, step).db);
    } else if !ProcessEvent(step) {
      match step
      case ScanStep(r, nowUs, scan, job) => CreateKeepsIntake(s.db, r, nowUs, scan, job);
      case CancelStep(scan, job, nowUs) => CancelKeepsIntake(s.db, scan, job, nowUs);
      case RecoverStep(row, now) =>
        RecoverRewrites(s.db, row, now);
        RewriteKeepsIntake(s.db, AfterRecovery(s.db, RecoverRow(s.db, row, now)));
      case FailQueuedStep(tenant, location, reason) => RewriteKeepsIntake(s.db, FailQueued(s.db, tenant, location, reason));
      case PurgeFamilyStep(tenant, scan, addYear, nowUs) => PurgeFamilyKeepsInv(s, addYear, tenant, scan, nowUs);
      case PurgeTenantStep(tenant, due) => PurgeTenantKeepsInv(s, tenant, due);
      case TenantStep(tenant, status) => RewriteKeepsIntake(s.db, Apply(s, step).db);
    }
  }

  lemma StepKeepsGood(s: State, step: Step)
    requires Good(s) && Enabled(s, step)
    ensures Good(Apply(s, step))
  {
    StepKeepsInv(s, step);
    StepKeepsIntake(s, step);
    StepKeepsPace(s, step);
  }

  lemma {:induction false} RunKeepsGood(s: State, steps: seq<Step>)
    requires Good(s) && ValidRun(s, steps)
    ensures Good(Exec(s, steps))
    decreases |steps|
  {
    if steps != [] {
      StepKeepsGood(s, steps[0]);
      RunKeepsGood(Apply(s, steps[0]), steps[1..]);
    }
  }

  lemma InitIsGood(s: State)
    requires Init(s)
    ensures Good(s)
  {
    InitInv(s);
    InitIntake(s);
  }

  /** Every reachable state satisfies all the invariants. */
  lemma ReachableIsGood(s: State)
    requires Reachable(s)
    ensures Good(s)
  {
    var init, steps :| Init(init) && ValidRun(init, steps) && Exec(init, steps) == s;
    InitIsGood(init);
    RunKeepsGood(init, steps);
  }
}
