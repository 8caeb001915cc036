/**
 The tables that mail delivery, scan intake and retention share, and the constraints that the
 database itself enforces on them.

 `Us` is a database clock reading (PostgreSQL keeps microseconds); `Ms` is the value of a
 TIMESTAMP(3) column or of a JavaScript Date (whole milliseconds).
 */
module MailTables {
  import opened Base

  type Us = int
  type Ms = int

  type TenantId = nat
  type LocationId = nat
  type PersonId = nat
  type ScanId = nat
  type JobId = nat
  type AttemptId = nat

  const SECOND_US := 1_000_000

  /** "+ 1 year" is calendar arithmetic and stays a parameter wherever it is used. */
  type Calendar = Ms -> Ms

  /** date_trunc('milliseconds', t), and also what a JavaScript Date keeps of t. */
  function TruncMs(t: Us): Ms { t / 1000 }

  /** What a TIMESTAMP(3) column stores for t. */
  function RoundMs(t: Us): Ms { (t + 500) / 1000 }

  datatype TenantStatus = Active | Inactive | PendingDelete | Purged | StagingDeleting

  datatype Action = Entry | Exit | UnknownAction

  datatype JobStatus = Waiting | Queued | Processing | Sent | Failed | Canceled | DeliveryUnknown

  datatype AttemptStatus =
    | Claimed | Invoked | Succeeded | AttemptFailed | RetryScheduled
    | OutcomeUnknown | Blocked | Deferred | Abandoned

  datatype Reason =
    | RateLimited | SubscriptionNotSendable | ResourceNotSendable
    | LocationInactive | LocationPendingDeletion | StaleBeforeProvider
    | ProviderOutcomeUnknown | RecipientSuppressed | AuthRejected | RequestRejected
    | QuotaRejected | ProviderTransient | ProviderFailure

  datatype Job = Job(
    tenant: TenantId, location: LocationId, person: PersonId, scan: ScanId, action: Action,
    status: JobStatus, retryCount: nat, scheduledAt: Option<Ms>,
    cancelUntil: Option<Ms>, sendNotBefore: Option<Ms>,
    claimedAt: Option<Ms>, claimAttempt: Option<AttemptId>,
    error: Option<Reason>, sentAt: Option<Ms>)

  datatype Attempt = Attempt(
    tenant: TenantId, job: JobId, status: AttemptStatus,
    invokedAt: Option<Ms>, hasRfcId: bool,
    closedAt: Option<Ms>, completedAt: Option<Ms>, error: Option<Reason>)

  datatype Scan = Scan(
    tenant: TenantId, location: LocationId, person: PersonId, action: Action,
    receivedAt: Ms, createdAt: Ms, canceledAt: Option<Ms>)

  /** sha256 is treated as injective, so a fingerprint is the request it was computed from. */
  datatype Fingerprint = Fingerprint(location: LocationId, person: PersonId, action: Action)

  datatype IdempotencyKey = IdempotencyKey(tenant: TenantId, keyHash: nat)

  datatype Idempotency = Idempotency(fingerprint: Fingerprint, scan: ScanId, job: JobId, expiresAt: Ms)

  datatype Db = Db(
    jobs: map<JobId, Job>,
    attempts: map<AttemptId, Attempt>,
    scans: map<ScanId, Scan>,
    idempotency: map<IdempotencyKey, Idempotency>,
    tenants: map<TenantId, TenantStatus>)

  /** The three CHECK constraints on mail_jobs. An UPDATE that breaks one raises an error. */
  predicate ChecksHold(j: Job) {
    && (j.status == Waiting ==> j.cancelUntil.Some? && j.sendNotBefore.Some? && j.scheduledAt.None?)
    && (j.status == Queued ==> j.scheduledAt.Some? || j.sendNotBefore.None?)
    && (j.status == Processing ==> j.claimedAt.Some? && j.claimAttempt.Some?)
  }

  /** The foreign keys among the four record tables. */
  ghost predicate ForeignKeys(db: Db) {
    && (forall j | j in db.jobs :: db.jobs[j].scan in db.scans)
    && (forall a | a in db.attempts :: db.attempts[a].job in db.jobs)
    && (forall k | k in db.idempotency :: db.idempotency[k].scan in db.scans && db.idempotency[k].job in db.jobs)
  }

  predicate TerminalStatus(s: JobStatus) {
    s == Sent || s == Failed || s == Canceled || s == DeliveryUnknown
  }

  /** Statuses of a tenant whose records belong to the deletion flow, not to retention. */
  predicate InDeletion(t: TenantStatus) {
    t == PendingDelete || t == Purged || t == StagingDeleting
  }
}
