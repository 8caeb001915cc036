/**
 Mail delivery as one state machine: the database, the workers that hold a claim, the rows that
 recovery has read but not yet acted on, and what the provider really accepted. Each step is one
 transaction (or one process event), and steps of different workers interleave freely. Clock
 readings are arguments of the steps and are not assumed to be ordered in any way.
 */
module MailProtocol {
  import opened Base
  import opened MailTables
  import opened ProviderVerdict
  import opened RateLimiter
  import opened MailTransactions
  import opened ScanIntake
  import opened Retention

  /** Where processClaimedMailJob stands for one attempt. */
  datatype Phase = Holding | Cleared | Calling | Finished

  /**
   One execution of processClaimedMailJob after its claim succeeded. `retryCount` and
   `resourceActive` are what the claim transaction read. `mayArrive` says that a provider call was
   made and no answer has excluded that the provider accepted it.
   */
  datatype Worker = Worker(job: JobId, tenant: TenantId, retryCount: nat, resourceActive: bool,
                           phase: Phase, alive: bool, mayArrive: bool)

  datatype State = State(
    kind: ProviderKind,
    db: Db,
    workers: map<AttemptId, Worker>,
    stale: set<StaleRow>,
    delivered: set<AttemptId>,
    admitted: seq<Ms>,
    issued: set<JobId>)

  datatype Step =
    | ScanStep(request: ScanRequest, nowUs: Us, newScan: ScanId, newJob: JobId)
    | CancelStep(scan: ScanId, job: JobId, nowUs: Us)
    | ClaimStep(attempt: AttemptId, job: JobId, tenant: TenantId, auto: bool, nowUs: Us, active: bool)
    | GateStep(attempt: AttemptId, canSend: bool, now: Ms)
    | ReserveStep(attempt: AttemptId, nowUs: Us)
    | SandboxStep(attempt: AttemptId, now: Ms)
    | ArriveStep(attempt: AttemptId)
    | VerdictStep(attempt: AttemptId, result: SendResult, now: Ms)
    | CrashStep(attempt: AttemptId)
    | ListStaleStep(rows: set<StaleRow>, staleBefore: Ms)
    | RecoverStep(row: StaleRow, now: Ms)
    | FailQueuedStep(tenant: TenantId, location: LocationId, reason: Reason)
    | PurgeFamilyStep(tenant: TenantId, scan: ScanId, addYear: Calendar, nowUs: Us)
    | PurgeTenantStep(tenant: TenantId, due: bool)
    | TenantStep(tenant: TenantId, status: TenantStatus)

  /** The steps of processClaimedMailJob that write the database. */
  predicate WorkerStep(step: Step) {
    step.GateStep? || step.ReserveStep? || step.SandboxStep? || step.VerdictStep?
  }

  /** Steps that leave every table alone. */
  predicate ProcessEvent(step: Step) {
    step.ArriveStep? || step.CrashStep? || step.ListStaleStep?
  }

  ghost predicate Holds(s: State, a: AttemptId, phase: Phase) {
    a in s.workers && s.workers[a].alive && s.workers[a].phase == phase
  }

  /** Random identifiers do not repeat, not even after the row that bore one is gone. */
  ghost predicate FreshJob(s: State, j: JobId) {
    j !in s.issued
  }

  /** Recovery would give this row's claim back while the claim's worker may still be running. */
  ghost predicate Unfenced(s: State, row: StaleRow) {
    && ClaimRow(s.db, row).Some? && ClaimRow(s.db, row).value.completedAt.None? && !RecoversAsUnknown(s.db, row)
    && row.claim.value in s.workers && s.workers[row.claim.value].alive
  }

  /** An answer that says "not accepted" is true, and OCI and sandbox each give only their own verdicts. */
  ghost predicate HonestAnswer(s: State, a: AttemptId, v: Verdict) {
    a in s.delivered ==> v.Delivered? || v.Doubtful?
  }

  ghost predicate Enabled(s: State, step: Step) {
    match step
    case ScanStep(r, nowUs, scan, job) => scan !in s.db.scans && FreshJob(s, job)
    case CancelStep(scan, job, nowUs) => true
    case ClaimStep(a, job, tenant, auto, nowUs, active) => a !in s.workers && a !in s.db.attempts
    case GateStep(a, canSend, now) => Holds(s, a, Holding)
    case ReserveStep(a, nowUs) => s.kind == Oci && Holds(s, a, Cleared) && nowUs >= 0
    case SandboxStep(a, now) => s.kind == Sandbox && Holds(s, a, Cleared)
    case ArriveStep(a) => a in s.workers && s.workers[a].mayArrive
    case VerdictStep(a, result, now) => Holds(s, a, Calling) && HonestAnswer(s, a, Judge(s.kind, result))
    case CrashStep(a) => a in s.workers
    case ListStaleStep(rows, staleBefore) =>
      forall r | r in rows :: r.job in s.db.jobs && IsStale(s.db.jobs[r.job], staleBefore) && r == StaleRowOf(r.job, s.db.jobs[r.job])
    case RecoverStep(row, now) => row in s.stale && !Unfenced(s, row)
    case FailQueuedStep(tenant, location, reason) => true
    case PurgeFamilyStep(tenant, scan, addYear, nowUs) => true
    case PurgeTenantStep(tenant, due) => true
    case TenantStep(tenant, status) => true
  }

  function AfterGate(s: State, a: AttemptId, canSend: bool, now: Ms): State
    requires a in s.workers
  {
    var w := s.workers[a];
    if !canSend then
      s.(db := BlockJob(s.db, w.job, a, w.tenant, SubscriptionNotSendable, now), workers := s.workers[a := w.(phase := Finished)])
    else if !w.resourceActive then
      s.(db := BlockJob(s.db, w.job, a, w.tenant, ResourceNotSendable, now), workers := s.workers[a := w.(phase := Finished)])
    else s.(workers := s.workers[a := w.(phase := Cleared)])
  }

  ghost function AfterReserve(s: State, a: AttemptId, nowUs: Us): State
    requires a in s.workers
  {
    var w := s.workers[a];
    var db := Reserve(s.db, w.job, a, w.tenant, nowUs);
    if Decision(s.db.attempts, nowUs).Admit? then
      s.(db := db, workers := s.workers[a := w.(phase := Calling, mayArrive := true)], admitted := s.admitted + [TruncMs(nowUs)])
    else
      s.(db := db, workers := s.workers[a := w.(phase := Finished)])
  }

  function AfterSandboxInvoke(s: State, a: AttemptId, now: Ms): State
    requires a in s.workers
  {
    var w := s.workers[a];
    s.(db := MarkInvoked(s.db, a, w.tenant, now, false), workers := s.workers[a := w.(phase := Calling, mayArrive := true)])
  }

  function AfterVerdict(s: State, a: AttemptId, result: SendResult, now: Ms): State
    requires a in s.workers
  {
    var w := s.workers[a];
    var v := Judge(s.kind, result);
    s.(db := RecordVerdict(s.db, w.job, a, w.tenant, w.retryCount, v, now),
       workers := s.workers[a := w.(phase := Finished, mayArrive := v.Delivered? || v.Doubtful?)])
  }

  function AfterClaim(s: State, a: AttemptId, job: JobId, tenant: TenantId, auto: bool, nowUs: Us, active: bool): State {
    if !Claims(s.db, job, tenant, auto, nowUs) then s
    else s.(db := ClaimJob(s.db, a, job, tenant, auto, nowUs),
            workers := s.workers[a := Worker(job, tenant, s.db.jobs[job].retryCount, active, Holding, true, false)])
  }

  ghost function Apply(s: State, step: Step): State
    requires Enabled(s, step)
  {
    match step
    case ScanStep(r, nowUs, scan, job) => s.(db := CreateScan(s.db, r, nowUs, scan, job).db, issued := s.issued + {job})
    case CancelStep(scan, job, nowUs) => s.(db := CancelScan(s.db, scan, job, nowUs))
    case ClaimStep(a, job, tenant, auto, nowUs, active) => AfterClaim(s, a, job, tenant, auto, nowUs, active)
    case GateStep(a, canSend, now) => AfterGate(s, a, canSend, now)
    case ReserveStep(a, nowUs) => AfterReserve(s, a, nowUs)
    case SandboxStep(a, now) => AfterSandboxInvoke(s, a, now)
    case ArriveStep(a) => s.(delivered := s.delivered + {a})
    case VerdictStep(a, result, now) => AfterVerdict(s, a, result, now)
    case CrashStep(a) => s.(workers := s.workers[a := s.workers[a].(alive := false)])
    case ListStaleStep(rows, staleBefore) => s.(stale := s.stale + rows)
    case RecoverStep(row, now) => s.(db := AfterRecovery(s.db, RecoverRow(s.db, row, now)))
    case FailQueuedStep(tenant, location, reason) => s.(db := FailQueued(s.db, tenant, location, reason))
    case PurgeFamilyStep(tenant, scan, addYear, nowUs) => s.(db := PurgeFamily(addYear, s.db, tenant, scan, nowUs).db)
    case PurgeTenantStep(tenant, due) => s.(db := PurgeTenant(s.db, tenant, due))
    case TenantStep(tenant, status) => s.(db := s.db.(tenants := s.db.tenants[tenant := status]))
  }

  /** Runs of any length. */
  ghost predicate ValidRun(s: State, steps: seq<Step>)
    decreases |steps|
  {
    steps == [] || (Enabled(s, steps[0]) && ValidRun(Apply(s, steps[0]), steps[1..]))
  }

  ghost function Exec(s: State, steps: seq<Step>): State
    requires ValidRun(s, steps)
    decreases |steps|
  {
    if steps == [] then s else Exec(Apply(s, steps[0]), steps[1..])
  }

  /** A job that existed before send windows were introduced. */
  predicate LegacyJob(j: Job) {
    && (j.status == Queued || j.status == Sent || j.status == Failed)
    && j.retryCount == 0 && j.scheduledAt.None? && j.cancelUntil.None? && j.sendNotBefore.None? && j.claimAttempt.None?
  }

  /** Every scan has exactly one job, and the two agree on whose they are. */
  ghost predicate Paired(db: Db) {
    && (forall j | j in db.jobs :: db.jobs[j].scan in db.scans && Agree(db.jobs[j], db.scans[db.jobs[j].scan]))
    && (forall i, j | i in db.jobs && j in db.jobs && db.jobs[i].scan == db.jobs[j].scan :: i == j)
    && (forall s | s in db.scans :: exists j :: IsJobOf(db, s, j))
  }

  predicate Agree(j: Job, s: Scan) {
    j.tenant == s.tenant && j.location == s.location && j.person == s.person && j.action == s.action
  }

  predicate SamePerson(s: Scan, t: Scan) {
    s.tenant == t.tenant && s.location == t.location && s.person == t.person
  }

  /** Scans of one person at one place whose mail was not canceled are ten seconds apart. */
  ghost predicate ScansSpaced(db: Db) {
    forall s, t | s in db.scans && t in db.scans && s != t && SamePerson(db.scans[s], db.scans[t])
                  && Effective(db, s) && Effective(db, t) ::
      || db.scans[s].receivedAt - db.scans[t].receivedAt >= DEDUPLICATION_WINDOW_MS
      || db.scans[t].receivedAt - db.scans[s].receivedAt >= DEDUPLICATION_WINDOW_MS
  }

  /** The system starts with nothing but jobs from before the migration, each with its scan. */
  ghost predicate Init(s: State) {
    && s.db.attempts == map[] && s.workers == map[] && s.stale == {} && s.delivered == {} && s.admitted == []
    && s.db.idempotency == map[] && s.db.jobs.Keys <= s.issued
    && (forall j | j in s.db.jobs :: LegacyJob(s.db.jobs[j]))
    && (forall c | c in s.db.scans :: s.db.scans[c].canceledAt.None?)
    && Paired(s.db) && ScansSpaced(s.db)
  }

  ghost predicate Reachable(s: State) {
    exists init, steps :: Init(init) && ValidRun(init, steps) && Exec(init, steps) == s
  }
}
