/**
 Every transaction that writes mail_jobs and mail_delivery_attempts, as a function from the
 database before it to the database after it. A transaction that raises leaves the database as
 it was, so the functions return the old value on those branches.
 */
module MailTransactions {
  import opened Base
  import opened MailTables
  import opened ProviderVerdict
  import opened RateLimiter

  // ---- claim ----------------------------------------------------------------------------

  /** The WHERE clause of CLAIM_DUE_MAIL_JOB_SQL; `auto` is "no actor user". */
  predicate Claimable(j: Job, auto: bool, nowUs: Us) {
    || (auto && j.status == Waiting && j.sendNotBefore.Some? && TruncMs(nowUs) >= j.sendNotBefore.value)
    || (j.status == Queued && j.scheduledAt.Some? && TruncMs(nowUs) >= j.scheduledAt.value)
    || (j.status == Queued && j.scheduledAt.None? && j.sendNotBefore.None?)
  }

  /** The WHERE clause by which the processor selects due jobs; columns are compared in microseconds. */
  predicate Due(j: Job, nowUs: Us) {
    || (j.status == Waiting && j.sendNotBefore.Some? && j.sendNotBefore.value * 1000 <= nowUs)
    || (j.status == Queued && j.scheduledAt.Some? && j.scheduledAt.value * 1000 <= nowUs)
    || (j.status == Queued && j.scheduledAt.None? && j.sendNotBefore.None?)
  }

  predicate Claims(db: Db, job: JobId, tenant: TenantId, auto: bool, nowUs: Us) {
    job in db.jobs && db.jobs[job].tenant == tenant && Claimable(db.jobs[job], auto, nowUs)
  }

  function ClaimedRow(j: Job, a: AttemptId, nowUs: Us): Job {
    j.(status := Processing, claimedAt := Some(RoundMs(nowUs)), claimAttempt := Some(a))
  }

  function NewAttempt(tenant: TenantId, job: JobId): Attempt {
    Attempt(tenant, job, Claimed, None, false, None, None, None)
  }

  function ClaimJob(db: Db, a: AttemptId, job: JobId, tenant: TenantId, auto: bool, nowUs: Us): Db {
    if !Claims(db, job, tenant, auto, nowUs) then db
    else db.(jobs := db.jobs[job := ClaimedRow(db.jobs[job], a, nowUs)],
             attempts := db.attempts[a := NewAttempt(tenant, job)])
  }

  // ---- gate, reservation and verdict: updates by a worker that holds attempt `a` ----------

  /** Both rows that a worker's update names exist; otherwise the update raises. */
  predicate RowsFound(db: Db, job: JobId, a: AttemptId, tenant: TenantId) {
    job in db.jobs && db.jobs[job].tenant == tenant && a in db.attempts && db.attempts[a].tenant == tenant
  }

  function Write(db: Db, job: JobId, j: Job, a: AttemptId, at: Attempt): Db {
    db.(jobs := db.jobs[job := j], attempts := db.attempts[a := at])
  }

  function BlockJob(db: Db, job: JobId, a: AttemptId, tenant: TenantId, reason: Reason, now: Ms): Db {
    if !RowsFound(db, job, a, tenant) then db
    else Write(db, job, db.jobs[job].(status := Failed, scheduledAt := None, error := Some(reason)),
               a, db.attempts[a].(status := Blocked, completedAt := Some(now), error := Some(reason)))
  }

  function DeferJob(db: Db, job: JobId, a: AttemptId, tenant: TenantId, scheduledAt: Ms, now: Ms): Db {
    if !RowsFound(db, job, a, tenant) then db
    else Write(db, job, db.jobs[job].(status := Queued, scheduledAt := Some(scheduledAt), claimedAt := None,
                                      claimAttempt := None, error := Some(RateLimited)),
               a, db.attempts[a].(status := Deferred, completedAt := Some(now), error := Some(RateLimited)))
  }

  function MarkInvoked(db: Db, a: AttemptId, tenant: TenantId, now: Ms, hasRfcId: bool): Db {
    if a !in db.attempts || db.attempts[a].tenant != tenant then db
    else db.(attempts := db.attempts[a := db.attempts[a].(status := Invoked, invokedAt := Some(now), hasRfcId := hasRfcId)])
  }

  /** OciMailRateLimiter.reserve */
  ghost function Reserve(db: Db, job: JobId, a: AttemptId, tenant: TenantId, nowUs: Us): Db {
    match Decision(db.attempts, nowUs)
    case Defer(scheduledAt) => DeferJob(db, job, a, tenant, scheduledAt, TruncMs(nowUs))
    case Admit => MarkInvoked(db, a, tenant, TruncMs(nowUs), true)
  }

  const RETRY_DELAYS_MS: seq<Ms> := [30_000, 120_000, 600_000]

  /** The scheduled time of the retry after `retryCount` earlier ones, or none when they are used up. */
  function RetryAt(retryCount: nat, now: Ms): Option<Ms> {
    if retryCount < |RETRY_DELAYS_MS| then Some(now + RETRY_DELAYS_MS[retryCount]) else None
  }

  /**
   The update that ends a provider call. `retryCount` is the count that the worker read when it
   claimed the job, not the one in the row now.
   */
  function RecordVerdict(db: Db, job: JobId, a: AttemptId, tenant: TenantId, retryCount: nat, v: Verdict, now: Ms): Db {
    if !RowsFound(db, job, a, tenant) then db
    else
      var j, at := db.jobs[job], db.attempts[a];
      match v
      case Delivered =>
        Write(db, job, j.(status := Sent, error := None, scheduledAt := None, sentAt := Some(now)),
              a, at.(status := Succeeded, completedAt := Some(now)))
      case Reject(reason) =>
        Write(db, job, j.(status := Failed, scheduledAt := None, error := Some(reason)),
              a, at.(status := AttemptFailed, completedAt := Some(now), closedAt := Some(now), error := Some(reason)))
      case Doubtful =>
        Write(db, job, j.(status := DeliveryUnknown, scheduledAt := None, error := Some(ProviderOutcomeUnknown)),
              a, at.(status := OutcomeUnknown, completedAt := Some(now), closedAt := Some(now), error := Some(ProviderOutcomeUnknown)))
      case Retry(reason) =>
        var at' := RetryAt(retryCount, now);
        Write(db, job, j.(status := if at'.None? then Failed else Queued, retryCount := retryCount + 1,
                          scheduledAt := at', error := Some(reason)),
              a, at.(status := if at'.None? then AttemptFailed else RetryScheduled, completedAt := Some(now), error := Some(reason)))
  }

  // ---- stale recovery --------------------------------------------------------------------

  /** One row of the list that recovery reads before it starts to write. */
  datatype StaleRow = StaleRow(job: JobId, tenant: TenantId, claim: Option<AttemptId>, retryCount: nat, sendNotBefore: Option<Ms>)

  predicate IsStale(j: Job, staleBefore: Ms) {
    j.status == Processing && j.claimedAt.Some? && j.claimedAt.value <= staleBefore
  }

  function StaleRowOf(id: JobId, j: Job): StaleRow {
    StaleRow(id, j.tenant, j.claimAttempt, j.retryCount, j.sendNotBefore)
  }

  /** What one iteration of recovery does; an error leaves what the statements before it have written. */
  datatype Recovery = Skipped | Recovered(db: Db) | Raised(db: Db)

  /** The attempt that the stale row names, if it still exists. */
  function ClaimRow(db: Db, row: StaleRow): Option<Attempt> {
    if row.claim.Some? && row.claim.value in db.attempts then Some(db.attempts[row.claim.value]) else None
  }

  /** The call may be open, so the outcome becomes "unknown". */
  predicate RecoversAsUnknown(db: Db, row: StaleRow) {
    row.claim.None? || (ClaimRow(db, row).Some? && ClaimRow(db, row).value.invokedAt.Some?)
  }

  /** The row that an abandoned claim is given back as. */
  function Unclaimed(j: Job, row: StaleRow): Job {
    j.(status := if row.retryCount == 0 && row.sendNotBefore.Some? then Waiting else Queued,
       claimedAt := None, claimAttempt := None, error := None)
  }

  /** The first statement reads the attempt: nothing to do, or whether the outcome becomes unknown. */
  function Lookup(db: Db, row: StaleRow): Option<bool> {
    if ClaimRow(db, row).Some? && ClaimRow(db, row).value.completedAt.Some? then None else Some(RecoversAsUnknown(db, row))
  }

  predicate StillProcessing(db: Db, row: StaleRow) {
    row.job in db.jobs && db.jobs[row.job].tenant == row.tenant && db.jobs[row.job].status == Processing
  }

  /** The second updates the job if it is still processing; None if a CHECK constraint raises. */
  function JobStatement(db: Db, row: StaleRow, unknown: bool): Option<Db> {
    if !StillProcessing(db, row) then Some(db)
    else if unknown then
      Some(db.(jobs := db.jobs[row.job := db.jobs[row.job].(status := DeliveryUnknown, error := Some(ProviderOutcomeUnknown))]))
    else if db.jobs[row.job].claimAttempt != row.claim then Some(db)
    else if !ChecksHold(Unclaimed(db.jobs[row.job], row)) then None
    else Some(db.(jobs := db.jobs[row.job := Unclaimed(db.jobs[row.job], row)]))
  }

  function RecoveredAttempt(at: Attempt, unknown: bool, now: Ms): Attempt {
    at.(status := if unknown then OutcomeUnknown else Abandoned, completedAt := Some(now),
        error := Some(if unknown then ProviderOutcomeUnknown else StaleBeforeProvider))
  }

  /** The third updates the attempt, whatever has become of it; None if the row is missing. */
  function AttemptStatement(db: Db, row: StaleRow, unknown: bool, now: Ms): Option<Db> {
    if row.claim.None? then Some(db)
    else if row.claim.value !in db.attempts then None
    else Some(db.(attempts := db.attempts[row.claim.value := RecoveredAttempt(db.attempts[row.claim.value], unknown, now)]))
  }

  /** One iteration of recoverStaleProcessingJobs when nothing comes between its three statements. */
  function RecoverRow(db: Db, row: StaleRow, now: Ms): Recovery {
    match Lookup(db, row)
    case None => Skipped
    case Some(unknown) =>
      match JobStatement(db, row, unknown)
      case None => Raised(db)
      case Some(written) =>
        match AttemptStatement(written, row, unknown, now)
        case None => Raised(written)
        case Some(done) => Recovered(done)
  }

  function AfterRecovery(db: Db, r: Recovery): Db {
    if r.Skipped? then db else r.db
  }

  /** The second statement rewrites at most the job of the row, and only while that is processing. */
  lemma JobStatementWrites(db: Db, row: StaleRow, unknown: bool)
    requires JobStatement(db, row, unknown).Some?
    ensures var db' := JobStatement(db, row, unknown).value;
            && db' == db.(jobs := db'.jobs)
            && (db'.jobs == db.jobs
                || (StillProcessing(db, row) && row.job in db'.jobs && db'.jobs == db.jobs[row.job := db'.jobs[row.job]]))
  {
  }

  /** Recovery as a whole writes what its second statement writes to the jobs. */
  lemma RecoveryWritesJob(db: Db, row: StaleRow, now: Ms)
    ensures var jobs := AfterRecovery(db, RecoverRow(db, row, now)).jobs;
            || jobs == db.jobs
            || (StillProcessing(db, row) && row.job in jobs && jobs == db.jobs[row.job := jobs[row.job]])
  {
    var unknown := RecoversAsUnknown(db, row);
    if JobStatement(db, row, unknown).Some? {
      JobStatementWrites(db, row, unknown);
      var written := JobStatement(db, row, unknown).value;
      assert AttemptStatement(written, row, unknown, now).Some? ==> AttemptStatement(written, row, unknown, now).value.jobs == written.jobs;
    }
  }

  /** Recovery rewrites at most the attempt of the row's claim, and not whether it was invoked. */
  lemma RecoveryWritesAttempt(db: Db, row: StaleRow, now: Ms)
    ensures var attempts := AfterRecovery(db, RecoverRow(db, row, now)).attempts;
            || attempts == db.attempts
            || (row.claim.Some? && row.claim.value in db.attempts
                && attempts == db.attempts[row.claim.value :=
                                 RecoveredAttempt(db.attempts[row.claim.value], RecoversAsUnknown(db, row), now)])
  {
    var unknown := RecoversAsUnknown(db, row);
    if JobStatement(db, row, unknown).Some? { JobStatementWrites(db, row, unknown); }
  }

  datatype RecoveryRun = RecoveryRun(db: Db, raised: bool)

  /** recoverStaleProcessingJobs over the listed rows: the first row that raises ends the call. */
  function RecoverAll(db: Db, rows: seq<StaleRow>, now: Ms): RecoveryRun
    decreases |rows|
  {
    if rows == [] then RecoveryRun(db, false)
    else
      var r := RecoverRow(db, rows[0], now);
      if r.Raised? then RecoveryRun(r.db, true) else RecoverAll(AfterRecovery(db, r), rows[1..], now)
  }

  // ---- a location leaves service ----------------------------------------------------------

  /** Queued jobs of the location fail; their scheduled time stays in the row. */
  function FailQueued(db: Db, tenant: TenantId, location: LocationId, reason: Reason): Db {
    db.(jobs := map id | id in db.jobs ::
      var j := db.jobs[id];
      if QueuedAt(db, id, tenant, location) then j.(status := Failed, error := Some(reason)) else j)
  }

  predicate QueuedAt(db: Db, id: JobId, tenant: TenantId, location: LocationId)
    requires id in db.jobs
  {
    var j := db.jobs[id];
    j.tenant == tenant && j.status == Queued && j.scan in db.scans && db.scans[j.scan].location == location
  }

  // ---- cancellation -----------------------------------------------------------------------

  /** The WHERE clause of CANCEL_WAITING_MAIL_JOB_SQL for the job `job` of the scan `scan`. */
  predicate Cancelable(db: Db, scan: ScanId, job: JobId, nowUs: Us) {
    && scan in db.scans && job in db.jobs
    && db.jobs[job].tenant == db.scans[scan].tenant
    && db.jobs[job].location == db.scans[scan].location
    && db.jobs[job].scan == scan
    && db.jobs[job].status == Waiting
    && db.jobs[job].cancelUntil.Some? && TruncMs(nowUs) < db.jobs[job].cancelUntil.value
  }

  function CancelScan(db: Db, scan: ScanId, job: JobId, nowUs: Us): Db {
    if !Cancelable(db, scan, job, nowUs) then db
    else
      var jobs := db.jobs[job := db.jobs[job].(status := Canceled)];
      var s := db.scans[scan];
      db.(jobs := jobs,
          scans := if s.canceledAt.None? then db.scans[scan := s.(canceledAt := Some(RoundMs(nowUs)))] else db.scans)
  }

  // ---- retention and tenant purge: the record deletions --------------------------------------

  predicate ClosedUnknown(at: Attempt, job: JobId) {
    at.job == job && at.status == OutcomeUnknown && at.closedAt.Some?
  }

  predicate HasClosedUnknown(db: Db, job: JobId) {
    exists a :: a in db.attempts && ClosedUnknown(db.attempts[a], job)
  }

  /** An attempt whose provider call may still return. */
  predicate InFlight(at: Attempt) {
    at.completedAt.None? || (at.status == OutcomeUnknown && at.closedAt.None?)
  }

  /** Delete the attempts, jobs, idempotency records and scans of one tenant, children first. */
  function DropTenant(db: Db, tenant: TenantId): Db {
    Db(map j | j in db.jobs && db.jobs[j].tenant != tenant :: db.jobs[j],
       map a | a in db.attempts && db.attempts[a].tenant != tenant :: db.attempts[a],
       map s | s in db.scans && db.scans[s].tenant != tenant :: db.scans[s],
       map k | k in db.idempotency && k.tenant != tenant :: db.idempotency[k],
       db.tenants)
  }

  /** The count that makes purgeDueTenant give up with TENANT_PURGE_MAIL_IN_FLIGHT is not zero. */
  predicate TenantMailInFlight(db: Db, tenant: TenantId) {
    exists j :: j in db.jobs && db.jobs[j].tenant == tenant
      && (|| db.jobs[j].status == Processing
          || (db.jobs[j].status == DeliveryUnknown && !HasClosedUnknown(db, j))
          || exists a :: a in db.attempts && db.attempts[a].job == j && InFlight(db.attempts[a]))
  }

  /** purgeDueTenant, as far as the records are concerned; `due` is its deadline test. */
  function PurgeTenant(db: Db, tenant: TenantId, due: bool): Db {
    if tenant !in db.tenants || db.tenants[tenant] != PendingDelete || !due || TenantMailInFlight(db, tenant) then db
    else DropTenant(db, tenant).(tenants := db.tenants[tenant := Purged])
  }
}
