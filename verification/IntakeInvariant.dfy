/**
 The invariant of the scan records: each scan with its one job, cancellation recorded on both or
 on neither, ten-second spacing, and idempotency records that point at a consistent result.
 */
module IntakeInvariant {
  import opened Base
  import opened MailTables
  import opened ProviderVerdict
  import opened RateLimiter
  import opened MailTransactions
  import opened ScanIntake
  import opened Retention
  import opened MailProtocol
  import opened MailInvariant

  ghost predicate CanceledTogether(db: Db)
    requires Paired(db)
  {
    forall j | j in db.jobs :: db.jobs[j].status == Canceled <==> db.scans[db.jobs[j].scan].canceledAt.Some?
  }

  ghost predicate RecordsOk(db: Db)
    requires Paired(db)
  {
    forall k | k in db.idempotency :: RecordOk(db, k)
  }

  ghost predicate RecordOk(db: Db, k: IdempotencyKey)
    requires Paired(db) && k in db.idempotency
  {
    var r := db.idempotency[k];
    && r.job in db.jobs && db.jobs[r.job].scan == r.scan && db.jobs[r.job].tenant == k.tenant
    && var s := db.scans[r.scan];
    && r.fingerprint == Fingerprint(s.location, s.person, s.action) && s.action != UnknownAction
  }

  ghost predicate IntakeInv(db: Db) {
    Paired(db) && CanceledTogether(db) && ScansSpaced(db) && RecordsOk(db)
  }

  lemma InitIntake(s: State)
    requires Init(s)
    ensures IntakeInv(s.db)
  {
  }

  // ---- steps that rewrite rows in place -----------------------------------------------------------

  predicate SameJob(j: Job, j': Job) {
    j'.tenant == j.tenant && j'.location == j.location && j'.person == j.person && j'.scan == j.scan && j'.action == j.action
  }

  predicate SameScan(s: Scan, s': Scan) {
    s' == s.(canceledAt := s'.canceledAt)
  }

  /** No row appears or disappears, rows keep their identity, and no canceled job comes back. */
  ghost predicate Rewritten(db: Db, db': Db) {
    && db'.jobs.Keys == db.jobs.Keys && db'.scans.Keys == db.scans.Keys
    && (forall j | j in db.jobs :: SameJob(db.jobs[j], db'.jobs[j]) && (db.jobs[j].status == Canceled ==> db'.jobs[j].status == Canceled))
    && (forall s | s in db.scans :: SameScan(db.scans[s], db'.scans[s]))
  }

  lemma RewriteKeepsPairs(db: Db, db': Db)
    requires Paired(db) && Rewritten(db, db')
    ensures Paired(db')
  {
    forall s | s in db'.scans ensures exists j :: IsJobOf(db', s, j) {
      assert s in db.scans;
      var j :| IsJobOf(db, s, j);
      assert IsJobOf(db', s, j);
    }
  }

  lemma RewriteKeepsSpacing(db: Db, db': Db)
    requires ScansSpaced(db) && Rewritten(db, db')
    ensures ScansSpaced(db')
  {
    forall s | Effective(db', s) ensures Effective(db, s) {
      var j :| j in db'.jobs && db'.jobs[j].scan == s && db'.jobs[j].status != Canceled;
      assert j in db.jobs;
    }
  }

  lemma RewriteKeepsRecords(db: Db, db': Db)
    requires Paired(db) && RecordsOk(db) && Rewritten(db, db') && Paired(db') && db'.idempotency == db.idempotency
    ensures RecordsOk(db')
  {
    forall k | k in db'.idempotency ensures RecordOk(db', k) { assert RecordOk(db, k); }
  }

  lemma RewriteKeepsRest(db: Db, db': Db)
    requires Paired(db) && ScansSpaced(db) && RecordsOk(db) && Rewritten(db, db') && db'.idempotency == db.idempotency
    ensures Paired(db') && ScansSpaced(db') && RecordsOk(db')
  {
    RewriteKeepsPairs(db, db');
    RewriteKeepsSpacing(db, db');
    RewriteKeepsRecords(db, db');
  }

  ghost predicate OnlyJobsRewritten(db: Db, db': Db) {
    && db'.scans == db.scans && db'.idempotency == db.idempotency && db'.jobs.Keys == db.jobs.Keys
    && forall j | j in db.jobs :: SameJob(db.jobs[j], db'.jobs[j]) && (db.jobs[j].status == Canceled <==> db'.jobs[j].status == Canceled)
  }

  lemma RewriteKeepsIntake(db: Db, db': Db)
    requires IntakeInv(db) && OnlyJobsRewritten(db, db')
    ensures IntakeInv(db')
  {
    RewriteKeepsRest(db, db');
  }

  /** An update by a worker keeps identities as long as its job was not canceled. */
  lemma WriteRewrites(db: Db, id: JobId, j: Job, a: AttemptId, at: Attempt)
    requires id in db.jobs && SameJob(db.jobs[id], j) && db.jobs[id].status != Canceled && j.status != Canceled
    ensures OnlyJobsRewritten(db, Write(db, id, j, a, at))
  {
  }

  /** A worker's two rows are there, and its job was not canceled. */
  ghost predicate HeldRows(s: State, a: AttemptId) {
    a in s.workers && RowsFound(s.db, s.workers[a].job, a, s.workers[a].tenant) && s.db.jobs[s.workers[a].job].status != Canceled
  }

  /** The job of a live worker is there and was not canceled. */
  lemma HeldJobNotCanceled(s: State, a: AttemptId)
    requires Inv(s) && a in s.workers && s.workers[a].alive && s.workers[a].phase != Finished
    ensures a in s.db.attempts && s.workers[a].job in s.db.jobs && HeldRows(s, a)
  {
    assert WorkerOk(s, a);
    if s.workers[a].phase == Calling { assert LastCall(s.db.attempts[a]); }
  }

  lemma VerdictRewrites(db: Db, job: JobId, a: AttemptId, tenant: TenantId, retryCount: nat, v: Verdict, now: Ms)
    requires RowsFound(db, job, a, tenant) && db.jobs[job].status != Canceled
    ensures OnlyJobsRewritten(db, RecordVerdict(db, job, a, tenant, retryCount, v, now))
  {
    var db' := RecordVerdict(db, job, a, tenant, retryCount, v, now);
    WriteRewrites(db, job, db'.jobs[job], a, db'.attempts[a]);
  }

  lemma ReserveRewrites(db: Db, job: JobId, a: AttemptId, tenant: TenantId, nowUs: Us)
    requires RowsFound(db, job, a, tenant) && db.jobs[job].status != Canceled
    ensures OnlyJobsRewritten(db, Reserve(db, job, a, tenant, nowUs))
  {
    var db' := Reserve(db, job, a, tenant, nowUs);
    if Decision(db.attempts, nowUs).Defer? { WriteRewrites(db, job, db'.jobs[job], a, db'.attempts[a]); }
  }

  lemma WorkerStepRewrites(s: State, step: Step)
    requires Enabled(s, step) && (step.ClaimStep? || WorkerStep(step)) && (WorkerStep(step) ==> HeldRows(s, step.attempt))
    ensures OnlyJobsRewritten(s.db, Apply(s, step).db)
  {
    match step
    case ClaimStep(a, job, tenant, auto, nowUs, _) =>
      if Claims(s.db, job, tenant, auto, nowUs) {
        WriteRewrites(s.db, job, ClaimedRow(s.db.jobs[job], a, nowUs), a, NewAttempt(tenant, job));
      }
    case GateStep(a, canSend, now) =>
      var db' := Apply(s, step).db;
      if db' != s.db { WriteRewrites(s.db, s.workers[a].job, db'.jobs[s.workers[a].job], a, db'.attempts[a]); }
    case ReserveStep(a, nowUs) =>
      ReserveRewrites(s.db, s.workers[a].job, a, s.workers[a].tenant, nowUs);
    case SandboxStep(a, _) =>
    case VerdictStep(a, result, now) =>
      VerdictRewrites(s.db, s.workers[a].job, a, s.workers[a].tenant, s.workers[a].retryCount, Judge(s.kind, result), now);
  }

  lemma JobWriteRewrites(db: Db, id: JobId, j: Job, attempts: map<AttemptId, Attempt>)
    requires id in db.jobs && SameJob(db.jobs[id], j) && db.jobs[id].status != Canceled && j.status != Canceled
    ensures OnlyJobsRewritten(db, db.(jobs := db.jobs[id := j], attempts := attempts))
  {
  }

  lemma RecoverRewrites(db: Db, row: StaleRow, now: Ms)
    ensures OnlyJobsRewritten(db, AfterRecovery(db, RecoverRow(db, row, now)))
  {
    var db' := AfterRecovery(db, RecoverRow(db, row, now));
    if row.job in db.jobs && db'.jobs != db.jobs {
      assert db' == db.(jobs := db.jobs[row.job := db'.jobs[row.job]], attempts := db'.attempts);
      JobWriteRewrites(db, row.job, db'.jobs[row.job], db'.attempts);
    }
  }

  // ---- cancellation -----------------------------------------------------------------------------

  lemma CancelRewrites(db: Db, scan: ScanId, job: JobId, nowUs: Us)
    ensures Rewritten(db, CancelScan(db, scan, job, nowUs))
    ensures CancelScan(db, scan, job, nowUs).idempotency == db.idempotency
  {
  }

  lemma CancelMarksBoth(db: Db, scan: ScanId, job: JobId, nowUs: Us)
    requires Paired(db) && CanceledTogether(db) && Paired(CancelScan(db, scan, job, nowUs))
    ensures CanceledTogether(CancelScan(db, scan, job, nowUs))
  {
    var db' := CancelScan(db, scan, job, nowUs);
    forall j | j in db'.jobs ensures db'.jobs[j].status == Canceled <==> db'.scans[db'.jobs[j].scan].canceledAt.Some? {
      if Cancelable(db, scan, job, nowUs) && j != job { assert db.jobs[j].scan != scan; }
    }
  }

  lemma CancelKeepsIntake(db: Db, scan: ScanId, job: JobId, nowUs: Us)
    requires IntakeInv(db)
    ensures IntakeInv(CancelScan(db, scan, job, nowUs))
  {
    CancelRewrites(db, scan, job, nowUs);
    RewriteKeepsRest(db, CancelScan(db, scan, job, nowUs));
    CancelMarksBoth(db, scan, job, nowUs);
  }

  // ---- creation ---------------------------------------------------------------------------------

  lemma StoreKeepsRecords(db: Db, r: ScanRequest, scan: ScanId, job: JobId, received: Ms)
    requires Paired(db) && RecordsOk(db) && Paired(StoreKey(db, r, scan, job, received))
    requires scan in db.scans && IsJobOf(db, scan, job) && SamePlace(db.scans[scan], r) && db.scans[scan].action == r.action
    ensures RecordsOk(StoreKey(db, r, scan, job, received))
  {
    var db' := StoreKey(db, r, scan, job, received);
    forall k | k in db'.idempotency ensures RecordOk(db', k) {
      if r.keyHash.None? || k != KeyOf(r) { assert RecordOk(db, k); }
    }
  }

  lemma StoreKeepsIntake(db: Db, r: ScanRequest, scan: ScanId, job: JobId, received: Ms)
    requires IntakeInv(db) && scan in db.scans && IsJobOf(db, scan, job)
    requires SamePlace(db.scans[scan], r) && db.scans[scan].action == r.action
    ensures IntakeInv(StoreKey(db, r, scan, job, received))
  {
    var db' := StoreKey(db, r, scan, job, received);
    RewriteKeepsPairs(db, db');
    RewriteKeepsSpacing(db, db');
    StoreKeepsRecords(db, r, scan, job, received);
  }

  lemma InsertKeepsPairs(db: Db, r: ScanRequest, nowUs: Us, scan: ScanId, job: JobId)
    requires Paired(db) && scan !in db.scans && job !in db.jobs
    ensures Paired(InsertScan(db, r, nowUs, scan, job))
  {
    var db' := InsertScan(db, r, nowUs, scan, job);
    forall s | s in db'.scans ensures exists j :: IsJobOf(db', s, j) {
      if s == scan {
        assert IsJobOf(db', s, job);
      } else {
        var j :| IsJobOf(db, s, j);
        assert IsJobOf(db', s, j);
      }
    }
  }

  /** The new scan is ten seconds later than every scan the lookup did not return, future ones included. */
  lemma InsertKeepsSpacing(db: Db, r: ScanRequest, nowUs: Us, scan: ScanId, job: JobId)
    requires ScansSpaced(db) && Paired(db) && scan !in db.scans && job !in db.jobs
    requires !exists s :: Duplicates(db, r, TruncMs(nowUs), s)
    ensures ScansSpaced(InsertScan(db, r, nowUs, scan, job))
  {
    var db' := InsertScan(db, r, nowUs, scan, job);
    forall s | s != scan && Effective(db', s) ensures Effective(db, s) {
      var j :| j in db'.jobs && db'.jobs[j].scan == s && db'.jobs[j].status != Canceled;
      assert j in db.jobs;
    }
    forall s | s in db.scans && SamePerson(db.scans[s], db'.scans[scan]) && Effective(db, s)
      ensures db.scans[s].receivedAt <= TruncMs(nowUs) - DEDUPLICATION_WINDOW_MS
    {
      assert !Duplicates(db, r, TruncMs(nowUs), s);
    }
  }

  lemma InsertKeepsIntake(db: Db, r: ScanRequest, nowUs: Us, scan: ScanId, job: JobId)
    requires IntakeInv(db) && scan !in db.scans && job !in db.jobs
    requires !exists s :: Duplicates(db, r, TruncMs(nowUs), s)
    ensures IntakeInv(InsertScan(db, r, nowUs, scan, job))
  {
    var db' := InsertScan(db, r, nowUs, scan, job);
    InsertKeepsPairs(db, r, nowUs, scan, job);
    InsertKeepsSpacing(db, r, nowUs, scan, job);
    forall k | k in db'.idempotency ensures RecordOk(db', k) { assert RecordOk(db, k); }
  }

  lemma CreateKeepsIntake(db: Db, r: ScanRequest, nowUs: Us, scan: ScanId, job: JobId)
    requires IntakeInv(db) && scan !in db.scans && job !in db.jobs
    ensures IntakeInv(CreateScan(db, r, nowUs, scan, job).db)
  {
    var received := TruncMs(nowUs);
    if FindReplay(db, r, received).None? {
      var result := CreateScan(db, r, nowUs, scan, job);
      if exists s :: Duplicates(db, r, received, s) {
        if result.outcome.Deduplicated? {
          StoreKeepsIntake(db, r, result.outcome.scan, result.outcome.job, received);
        }
      } else {
        InsertKeepsIntake(db, r, nowUs, scan, job);
        StoreKeepsIntake(InsertScan(db, r, nowUs, scan, job), r, scan, job, received);
      }
    }
  }

  // ---- deletion ---------------------------------------------------------------------------------

  /** Scans leave together with their jobs, and with the records that name them. */
  ghost predicate DropsFamilies(db: Db, db': Db) {
    && (forall j | j in db'.jobs :: j in db.jobs && db'.jobs[j] == db.jobs[j])
    && (forall s | s in db'.scans :: s in db.scans && db'.scans[s] == db.scans[s])
    && (forall j | j in db.jobs :: j in db'.jobs <==> db.jobs[j].scan in db'.scans)
    && (forall k | k in db'.idempotency ::
          k in db.idempotency && db'.idempotency[k] == db.idempotency[k] && db.idempotency[k].scan in db'.scans)
  }

  lemma DropKeepsPairs(db: Db, db': Db)
    requires Paired(db) && DropsFamilies(db, db')
    ensures Paired(db')
  {
    forall s | s in db'.scans ensures exists j :: IsJobOf(db', s, j) {
      assert s in db.scans;
      var j :| IsJobOf(db, s, j);
      assert j in db'.jobs;
      assert IsJobOf(db', s, j);
    }
  }

  lemma DropKeepsSpacing(db: Db, db': Db)
    requires ScansSpaced(db) && DropsFamilies(db, db')
    ensures ScansSpaced(db')
  {
    forall s | Effective(db', s) ensures Effective(db, s) {
      var j :| j in db'.jobs && db'.jobs[j].scan == s && db'.jobs[j].status != Canceled;
      assert j in db.jobs && db.jobs[j].scan == s && db.jobs[j].status != Canceled;
    }
  }

  lemma DropKeepsIntake(db: Db, db': Db)
    requires IntakeInv(db) && DropsFamilies(db, db')
    ensures IntakeInv(db')
  {
    DropKeepsPairs(db, db');
    DropKeepsSpacing(db, db');
    forall k | k in db'.idempotency ensures RecordOk(db', k) { assert RecordOk(db, k); }
  }

  lemma FamilyPurgeDropsFamilies(db: Db, tenant: TenantId, scan: ScanId)
    requires IntakeInv(db) && scan in db.scans && db.scans[scan].tenant == tenant
    ensures DropsFamilies(db, DropFamily(db, tenant, scan))
  {
    var db' := DropFamily(db, tenant, scan);
    forall k | k in db.idempotency && db.idempotency[k].scan == scan ensures k !in db'.idempotency {
      assert RecordOk(db, k);
    }
  }

  lemma TenantPurgeDropsFamilies(db: Db, tenant: TenantId)
    requires IntakeInv(db)
    ensures DropsFamilies(db, DropTenant(db, tenant))
  {
    var db' := DropTenant(db, tenant);
    forall k | k in db'.idempotency ensures db.idempotency[k].scan in db'.scans { assert RecordOk(db, k); }
  }

  lemma FamilyPurgeDrops(s: State, addYear: Calendar, tenant: TenantId, scan: ScanId, nowUs: Us)
    requires Inv(s) && IntakeInv(s.db) && PurgeFamily(addYear, s.db, tenant, scan, nowUs).outcome == Deleted
    ensures DropsFamilies(s.db, DropFamily(s.db, tenant, scan))
    ensures DropsQuietJobs(s.db, DropFamily(s.db, tenant, scan))
  {
    var db, db' := s.db, DropFamily(s.db, tenant, scan);
    FamilyPurgeDropsFamilies(db, tenant, scan);
    forall a | a in db.attempts ensures a in db'.attempts <==> db.attempts[a].job in db'.jobs {
      assert db.jobs[db.attempts[a].job].tenant == db.attempts[a].tenant;
    }
    forall a | a in db.attempts && db.attempts[a].job !in db'.jobs ensures !InFlight(db.attempts[a]) {
      assert db.jobs[db.attempts[a].job].scan == scan;
    }
  }

  lemma TenantPurgeDrops(s: State, tenant: TenantId)
    requires Inv(s) && IntakeInv(s.db) && !TenantMailInFlight(s.db, tenant)
    ensures DropsFamilies(s.db, DropTenant(s.db, tenant))
    ensures DropsQuietJobs(s.db, DropTenant(s.db, tenant))
  {
    var db, db' := s.db, DropTenant(s.db, tenant);
    TenantPurgeDropsFamilies(db, tenant);
    forall a | a in db.attempts && db.attempts[a].job !in db'.jobs ensures !InFlight(db.attempts[a]) {
      assert db.jobs[db.attempts[a].job].tenant == tenant;
    }
  }
}
