/**
 The services as they run: five mutable tables and methods that write them statement by statement.
 Each method is proved to do exactly what the transaction functions say, so everything proved about
 those holds of the methods. A transaction that raises puts back the tables it has changed.
 */
module MailDatabase {
  import opened Base
  import opened MailTables
  import opened ProviderVerdict
  import opened RateLimiter
  import opened MailTransactions
  import opened ScanIntake
  import opened Retention
  import opened MailProtocol
  import opened MailInvariant
  import opened IntakeInvariant
  import opened MailRuns
  import opened MailProgress
  import opened MailFencing

  datatype SendOutcome = Handled | NotSendable | JobNotFound

  /** An update by primary key that finds no row raises, and its transaction is undone. */
  datatype WriteOutcome = Written | RowMissing

  datatype TenantPurgeOutcome = AlreadyPurged | NotYetDue | MailStillInFlight | SubscriptionInvalid | StateChanged | TenantPurged

  datatype CancelOutcome = ScanNotFound | CanceledNow | AlreadyCanceled | WindowExpired | NotAvailable

  /** What one execution of processClaimedMailJob meets: clocks, the license gate, and the provider. */
  datatype Delivery = Delivery(
    attempt: AttemptId, job: JobId, tenant: TenantId, auto: bool, claimUs: Us, active: bool,
    canSend: bool, gateMs: Ms, reserveUs: Us, result: SendResult, answerMs: Ms)

  /** The transactions of one undisturbed execution, in order. */
  ghost function DeliverAlone(kind: ProviderKind, db: Db, d: Delivery): Db {
    if !Claims(db, d.job, d.tenant, d.auto, d.claimUs) then db
    else
      var claimed := ClaimJob(db, d.attempt, d.job, d.tenant, d.auto, d.claimUs);
      if !d.canSend then BlockJob(claimed, d.job, d.attempt, d.tenant, SubscriptionNotSendable, d.gateMs)
      else if !d.active then BlockJob(claimed, d.job, d.attempt, d.tenant, ResourceNotSendable, d.gateMs)
      else
        var invoked := if kind == Oci then Reserve(claimed, d.job, d.attempt, d.tenant, d.reserveUs)
                       else MarkInvoked(claimed, d.attempt, d.tenant, d.gateMs, false);
        if kind == Oci && Decision(claimed.attempts, d.reserveUs).Defer? then invoked
        else RecordVerdict(invoked, d.job, d.attempt, d.tenant, db.jobs[d.job].retryCount, Judge(kind, d.result), d.answerMs)
  }

  /** The rows that the transaction of the limiter updates exist. */
  predicate CanReserve(db: Db, job: JobId, a: AttemptId, tenant: TenantId, d: RateDecision) {
    if d.Defer? then RowsFound(db, job, a, tenant) else a in db.attempts && db.attempts[a].tenant == tenant
  }

  /** The transaction of the tenant purge gets past its deadline test. */
  predicate PurgeBegins(db: Db, tenant: TenantId, due: bool) {
    tenant in db.tenants && db.tenants[tenant] == PendingDelete && due
  }

  predicate JobExists(db: Db, job: JobId, tenant: TenantId) {
    job in db.jobs && db.jobs[job].tenant == tenant
  }

  datatype PassRun = PassRun(db: Db, raised: bool)

  /** The loop over the due jobs: a lost claim is skipped, a job that is gone ends the pass with its error. */
  ghost function DeliverAll(kind: ProviderKind, db: Db, ds: seq<Delivery>): PassRun
    decreases |ds|
  {
    if ds == [] then PassRun(db, false)
    else if !JobExists(db, ds[0].job, ds[0].tenant) then PassRun(db, true)
    else DeliverAll(kind, DeliverAlone(kind, db, ds[0]), ds[1..])
  }

  /** One pass of the processor: recovery first, and if that raises, no job at all. */
  ghost function ProcessorPass(kind: ProviderKind, db: Db, stale: seq<StaleRow>, now: Ms, due: seq<Delivery>): PassRun {
    var r := RecoverAll(db, stale, now);
    if r.raised then PassRun(r.db, true) else DeliverAll(kind, r.db, due)
  }

  ghost predicate IsMaxOf(w: map<AttemptId, Ms>, seen: set<AttemptId>, latest: Option<Ms>)
    requires seen <= w.Keys
  {
    if seen == {} then latest.None?
    else latest.Some? && (exists a | a in seen :: w[a] == latest.value) && forall a | a in seen :: w[a] <= latest.value
  }

  ghost predicate IsMinOf(w: map<AttemptId, Ms>, seen: set<AttemptId>, oldest: Option<Ms>)
    requires seen <= w.Keys
  {
    if seen == {} then oldest.None?
    else oldest.Some? && (exists a | a in seen :: w[a] == oldest.value) && forall a | a in seen :: w[a] >= oldest.value
  }

  lemma MaxGrows(w: map<AttemptId, Ms>, seen: set<AttemptId>, latest: Option<Ms>, a: AttemptId)
    requires seen <= w.Keys && a in w && IsMaxOf(w, seen, latest)
    ensures IsMaxOf(w, seen + {a}, if latest.None? || w[a] > latest.value then Some(w[a]) else latest)
  {
    assert a in seen + {a} && forall b | b in seen :: b in seen + {a};
  }

  lemma MinGrows(w: map<AttemptId, Ms>, seen: set<AttemptId>, oldest: Option<Ms>, a: AttemptId)
    requires seen <= w.Keys && a in w && IsMinOf(w, seen, oldest)
    ensures IsMinOf(w, seen + {a}, if oldest.None? || w[a] < oldest.value then Some(w[a]) else oldest)
  {
    assert a in seen + {a} && forall b | b in seen :: b in seen + {a};
  }

  /** MAX over the rows of the query. */
  method Latest(w: map<AttemptId, Ms>) returns (latest: Option<Ms>)
    ensures if w == map[] then latest.None? else latest.Some? && IsMax(w, latest.value)
  {
    latest := None;
    var rest := w.Keys;
    ghost var seen: set<AttemptId> := {};
    while rest != {}
      invariant seen + rest == w.Keys && IsMaxOf(w, seen, latest)
      decreases rest
    {
      var a :| a in rest;
      MaxGrows(w, seen, latest, a);
      latest := if latest.None? || w[a] > latest.value then Some(w[a]) else latest;
      rest, seen := rest - {a}, seen + {a};
    }
    assert seen == w.Keys;
  }

  /** MIN over the rows of the query. */
  method Oldest(w: map<AttemptId, Ms>) returns (oldest: Option<Ms>)
    ensures if w == map[] then oldest.None? else oldest.Some? && IsMin(w, oldest.value)
  {
    oldest := None;
    var rest := w.Keys;
    ghost var seen: set<AttemptId> := {};
    while rest != {}
      invariant seen + rest == w.Keys && IsMinOf(w, seen, oldest)
      decreases rest
    {
      var a :| a in rest;
      MinGrows(w, seen, oldest, a);
      oldest := if oldest.None? || w[a] < oldest.value then Some(w[a]) else oldest;
      rest, seen := rest - {a}, seen + {a};
    }
    assert seen == w.Keys;
  }

  class Database {
    const kind: ProviderKind
    const addYear: Calendar
    var jobs: map<JobId, Job>
    var attempts: map<AttemptId, Attempt>
    var scans: map<ScanId, Scan>
    var idempotency: map<IdempotencyKey, Idempotency>
    var tenants: map<TenantId, TenantStatus>
    var mailRunning: bool
    var retentionRunning: bool

    constructor (kind: ProviderKind, addYear: Calendar, db: Db)
      ensures this.kind == kind && this.addYear == addYear && Contents() == db && !mailRunning && !retentionRunning
    {
      this.kind, this.addYear := kind, addYear;
      jobs, attempts, scans, idempotency, tenants := db.jobs, db.attempts, db.scans, db.idempotency, db.tenants;
      mailRunning, retentionRunning := false, false;
    }

    function Contents(): Db
      reads this
    {
      Db(jobs, attempts, scans, idempotency, tenants)
    }

    // ---- mail-jobs.service ----------------------------------------------------------------------------

    method Claim(a: AttemptId, job: JobId, tenant: TenantId, auto: bool, nowUs: Us) returns (claimed: bool)
      modifies `jobs, `attempts
      ensures Contents() == ClaimJob(old(Contents()), a, job, tenant, auto, nowUs)
      ensures claimed == Claims(old(Contents()), job, tenant, auto, nowUs)
    {
      if job !in jobs || jobs[job].tenant != tenant || !Claimable(jobs[job], auto, nowUs) { return false; }
      jobs := jobs[job := jobs[job].(status := Processing, claimedAt := Some(RoundMs(nowUs)), claimAttempt := Some(a))];
      attempts := attempts[a := NewAttempt(tenant, job)];
      claimed := true;
    }

    /** A blocked job is final and its attempt is over, so nothing claims it again. */
    method BlockClaimedJob(job: JobId, a: AttemptId, tenant: TenantId, reason: Reason, now: Ms) returns (outcome: WriteOutcome)
      modifies `jobs, `attempts
      ensures Contents() == BlockJob(old(Contents()), job, a, tenant, reason, now)
      ensures outcome == Written <==> old(RowsFound(Contents(), job, a, tenant))
      ensures outcome == Written ==>
                && job in jobs && a in attempts && !InFlight(attempts[a]) && jobs[job].status == Failed && jobs[job].error == Some(reason)
                && attempts[a].status == Blocked && attempts[a].error == Some(reason) && jobs[job].scheduledAt.None?
                && forall auto, nowUs :: !Claimable(jobs[job], auto, nowUs)
    {
      if !RowsFound(Contents(), job, a, tenant) { return RowMissing; }
      jobs := jobs[job := jobs[job].(status := Failed, scheduledAt := None, error := Some(reason))];
      attempts := attempts[a := attempts[a].(status := Blocked, completedAt := Some(now), error := Some(reason))];
      outcome := Written;
    }

    /** The query over the last second of reservations. */
    method QueryWindow(nowUs: Us) returns (s: Snapshot)
      ensures IsSnapshot(s, attempts, nowUs)
    {
      var w := Window(attempts, nowUs);
      var latest := Latest(w);
      var oldest := Oldest(w);
      s := Snapshot(TruncMs(nowUs), latest, |w|, oldest);
    }

    /** None if an update finds no row: the transaction raises and nothing is written. */
    method ReserveCall(job: JobId, a: AttemptId, tenant: TenantId, nowUs: Us) returns (d: Option<RateDecision>)
      modifies `jobs, `attempts
      ensures Contents() == Reserve(old(Contents()), job, a, tenant, nowUs)
      ensures var decision := Decision(old(attempts), nowUs);
              d == if CanReserve(old(Contents()), job, a, tenant, decision) then Some(decision) else None
      ensures d.None? ==> Contents() == old(Contents())
    {
      var window := QueryWindow(nowUs);
      DecisionIs(window, attempts, nowUs);
      var afterLatest := if window.latest.Some? then window.latest.value + PACE_MS else 0;
      var afterOldest := if window.recentCount >= MAX_PER_SECOND && window.oldest.Some? then window.oldest.value + 1_001 else 0;
      var nextAt := Max(window.dbNow, Max(afterLatest, afterOldest));
      if nextAt > window.dbNow {
        if !RowsFound(Contents(), job, a, tenant) { return None; }
        jobs := jobs[job := jobs[job].(status := Queued, scheduledAt := Some(nextAt), claimedAt := None, claimAttempt := None,
                                       error := Some(RateLimited))];
        attempts := attempts[a := attempts[a].(status := Deferred, completedAt := Some(window.dbNow), error := Some(RateLimited))];
        return Some(Defer(nextAt));
      }
      if a !in attempts || attempts[a].tenant != tenant { return None; }
      attempts := attempts[a := attempts[a].(status := Invoked, invokedAt := Some(window.dbNow), hasRfcId := true)];
      d := Some(Admit);
    }

    method MarkSandboxCall(a: AttemptId, tenant: TenantId, now: Ms) returns (outcome: WriteOutcome)
      modifies `attempts
      ensures Contents() == MarkInvoked(old(Contents()), a, tenant, now, false)
      ensures outcome == Written <==> a in old(attempts) && old(attempts)[a].tenant == tenant
    {
      if a !in attempts || attempts[a].tenant != tenant { return RowMissing; }
      attempts := attempts[a := attempts[a].(status := Invoked, invokedAt := Some(now), hasRfcId := false)];
      outcome := Written;
    }

    /** From the raw result to the rows: distrust, then the three branches of the service. */
    method Record(job: JobId, a: AttemptId, tenant: TenantId, retryCount: nat, raw: SendResult, now: Ms)
      returns (outcome: WriteOutcome)
      modifies `jobs, `attempts
      ensures Contents() == RecordVerdict(old(Contents()), job, a, tenant, retryCount, Judge(kind, raw), now)
      ensures outcome == Written <==> old(RowsFound(Contents(), job, a, tenant))
    {
      if !RowsFound(Contents(), job, a, tenant) { return RowMissing; }
      outcome := Written;
      var r := raw;
      if kind == Oci && (r.provider != Oci || r.disposition.None? || (r.disposition == Some(Accepted)) != r.success
                         || (r.disposition == Some(Accepted) && (!r.hasMessageId || !r.hasEnvelopeId || !r.hasRequestId))) {
        r := UNKNOWN_RESULT;
      }
      if r.success {
        jobs := jobs[job := jobs[job].(status := Sent, error := None, scheduledAt := None, sentAt := Some(now))];
        attempts := attempts[a := attempts[a].(status := Succeeded, completedAt := Some(now))];
        return;
      }
      if kind == Oci && r.disposition != Some(Transient) {
        var code := if r.disposition == Some(Suppressed) then RecipientSuppressed
                    else if r.disposition == Some(Permanent) then
                      (if r.errorCode == Some(AuthRejected) then AuthRejected else RequestRejected)
                    else ProviderOutcomeUnknown;
        var unknown := code == ProviderOutcomeUnknown;
        jobs := jobs[job := jobs[job].(status := if unknown then DeliveryUnknown else Failed, scheduledAt := None, error := Some(code))];
        attempts := attempts[a := attempts[a].(status := if unknown then OutcomeUnknown else AttemptFailed,
                                               completedAt := Some(now), closedAt := Some(now), error := Some(code))];
        return;
      }
      var reason := if kind == Oci then (if r.errorCode.Some? then r.errorCode.value else ProviderTransient) else ProviderFailure;
      var scheduledAt := if retryCount < |RETRY_DELAYS_MS| then Some(now + RETRY_DELAYS_MS[retryCount]) else None;
      var terminal := scheduledAt.None?;
      jobs := jobs[job := jobs[job].(status := if terminal then Failed else Queued, retryCount := retryCount + 1,
                                     scheduledAt := scheduledAt, error := Some(reason))];
      attempts := attempts[a := attempts[a].(status := if terminal then AttemptFailed else RetryScheduled,
                                             completedAt := Some(now), error := Some(reason))];
    }

    /** processClaimedMailJob with nothing in between; none of its updates misses its row. */
    method ProcessClaimedMailJob(d: Delivery) returns (outcome: SendOutcome)
      modifies `jobs, `attempts
      ensures Contents() == DeliverAlone(kind, old(Contents()), d)
      ensures outcome == Handled <==> Claims(old(Contents()), d.job, d.tenant, d.auto, d.claimUs)
      ensures outcome == JobNotFound <==> !JobExists(old(Contents()), d.job, d.tenant)
    {
      var claimed := Claim(d.attempt, d.job, d.tenant, d.auto, d.claimUs);
      if !claimed {
        return if JobExists(Contents(), d.job, d.tenant) then NotSendable else JobNotFound;
      }
      outcome := Handled;
      var retryCount := jobs[d.job].retryCount;
      if !d.canSend {
        var blocked := BlockClaimedJob(d.job, d.attempt, d.tenant, SubscriptionNotSendable, d.gateMs);
        if blocked == RowMissing { assert false; }
        return;
      }
      if !d.active {
        var blocked := BlockClaimedJob(d.job, d.attempt, d.tenant, ResourceNotSendable, d.gateMs);
        if blocked == RowMissing { assert false; }
        return;
      }
      if kind == Oci {
        var decision := ReserveCall(d.job, d.attempt, d.tenant, d.reserveUs);
        if decision == None { assert false; }
        if decision.value.Defer? { return; }
      } else {
        var marked := MarkSandboxCall(d.attempt, d.tenant, d.gateMs);
        if marked == RowMissing { assert false; }
      }
      var recorded := Record(d.job, d.attempt, d.tenant, retryCount, d.result, d.answerMs);
      if recorded == RowMissing { assert false; }
    }

    /** The first statement of recovery: None if the attempt is over, else whether the outcome becomes unknown. */
    method LookAtClaim(row: StaleRow) returns (unknown: Option<bool>)
      ensures unknown == Lookup(Contents(), row)
    {
      var attempt := if row.claim.Some? && row.claim.value in attempts then Some(attempts[row.claim.value]) else None;
      if attempt.Some? && attempt.value.completedAt.Some? { return None; }
      unknown := Some(row.claim.None? || (attempt.Some? && attempt.value.invokedAt.Some?));
    }

    /** The second: the job, if it is still processing. A CHECK constraint may raise. */
    method RecoverJob(row: StaleRow, unknown: bool) returns (raised: bool)
      modifies `jobs
      ensures raised <==> JobStatement(old(Contents()), row, unknown).None?
      ensures Contents() == if raised then old(Contents()) else JobStatement(old(Contents()), row, unknown).value
    {
      raised := false;
      if row.job !in jobs || jobs[row.job].tenant != row.tenant || jobs[row.job].status != Processing { return; }
      if unknown {
        jobs := jobs[row.job := jobs[row.job].(status := DeliveryUnknown, error := Some(ProviderOutcomeUnknown))];
        return;
      }
      if jobs[row.job].claimAttempt != row.claim { return; }
      var back := jobs[row.job].(status := if row.retryCount == 0 && row.sendNotBefore.Some? then Waiting else Queued,
                                 claimedAt := None, claimAttempt := None, error := None);
      if !ChecksHold(back) { return true; }
      jobs := jobs[row.job := back];
    }

    /** The third: the attempt, whatever it has become. It raises if the row is gone. */
    method RecoverAttempt(row: StaleRow, unknown: bool, now: Ms) returns (raised: bool)
      modifies `attempts
      ensures raised <==> AttemptStatement(old(Contents()), row, unknown, now).None?
      ensures Contents() == if raised then old(Contents()) else AttemptStatement(old(Contents()), row, unknown, now).value
    {
      raised := false;
      if row.claim.None? { return; }
      if row.claim.value !in attempts { return true; }
      var at := attempts[row.claim.value];
      if unknown {
        attempts := attempts[row.claim.value := at.(status := OutcomeUnknown, completedAt := Some(now),
                                                    error := Some(ProviderOutcomeUnknown))];
      } else {
        attempts := attempts[row.claim.value := at.(status := Abandoned, completedAt := Some(now),
                                                    error := Some(StaleBeforeProvider))];
      }
    }

    /** The three statements with nothing in between; an error in the third leaves what the second wrote. */
    method RecoverOne(row: StaleRow, now: Ms) returns (raised: bool)
      modifies `jobs, `attempts
      ensures raised == RecoverRow(old(Contents()), row, now).Raised?
      ensures Contents() == AfterRecovery(old(Contents()), RecoverRow(old(Contents()), row, now))
    {
      raised := false;
      var unknown := LookAtClaim(row);
      if unknown.None? { return; }
      raised := RecoverJob(row, unknown.value);
      if raised { return; }
      raised := RecoverAttempt(row, unknown.value, now);
    }

    method RecoverStaleProcessingJobs(rows: seq<StaleRow>, now: Ms) returns (raised: bool)
      modifies `jobs, `attempts
      ensures RecoveryRun(Contents(), raised) == RecoverAll(old(Contents()), rows, now)
    {
      for i := 0 to |rows|
        invariant RecoverAll(old(Contents()), rows, now) == RecoverAll(Contents(), rows[i..], now)
      {
        assert rows[i..][1..] == rows[i + 1..];
        raised := RecoverOne(rows[i], now);
        if raised { return; }
      }
      raised := false;
    }

    /** `due` is what the selection after recovery returns. */
    method ProcessDueJobs(stale: seq<StaleRow>, now: Ms, due: seq<Delivery>) returns (raised: bool)
      modifies `jobs, `attempts, `mailRunning
      ensures mailRunning == old(mailRunning)
      ensures old(mailRunning) ==> !raised && Contents() == old(Contents())
      ensures !old(mailRunning) ==> PassRun(Contents(), raised) == ProcessorPass(kind, old(Contents()), stale, now, due)
    {
      if mailRunning { return false; }
      mailRunning := true;
      raised := RecoverStaleProcessingJobs(stale, now);
      if !raised {
        ghost var recovered := Contents();
        for i := 0 to |due|
          invariant mailRunning && !raised && DeliverAll(kind, recovered, due) == DeliverAll(kind, Contents(), due[i..])
        {
          assert due[i..][1..] == due[i + 1..];
          var outcome := ProcessClaimedMailJob(due[i]);
          if outcome == JobNotFound {
            raised := true;
            break;
          }
        }
      }
      mailRunning := false;
    }

    // ---- scan-events.service --------------------------------------------------------------------------

    /** `existing` is what the duplicate lookup returned, with the scan's job. */
    method CreateScanEvent(r: ScanRequest, nowUs: Us, scan: ScanId, job: JobId, existing: Option<(ScanId, JobId)>)
      returns (outcome: ScanOutcome)
      requires Paired(Contents())
      requires match existing
               case None => !exists s :: Duplicates(Contents(), r, TruncMs(nowUs), s)
               case Some(found) => IsLatestDuplicate(Contents(), r, TruncMs(nowUs), found.0) && IsJobOf(Contents(), found.0, found.1)
      modifies `jobs, `scans, `idempotency
      ensures Intake(Contents(), outcome) == CreateScan(old(Contents()), r, nowUs, scan, job)
    {
      ghost var before := Contents();
      var received := TruncMs(nowUs);
      var replay := FindReplay(Contents(), r, received);
      if replay.Some? { return replay.value; }
      if existing.Some? {
        var (s, j) := existing.value;
        LatestIsUnique(before, r, received, s);
        if scans[s].action != r.action { return ActionConflict(s); }
        if r.keyHash.Some? {
          idempotency := idempotency[KeyOf(r) := Idempotency(FingerprintOf(r), s, j, received + IDEMPOTENCY_RETENTION_MS)];
        }
        return Deduplicated(s, j);
      }
      var deadline := Some(RoundMs(nowUs + CANCEL_WINDOW_US));
      scans := scans[scan := Scan(r.tenant, r.location, r.person, r.action, received, RoundMs(nowUs), None)];
      jobs := jobs[job := Job(r.tenant, r.location, r.person, scan, r.action, Waiting, 0, None,
                              deadline, deadline, None, None, None, None)];
      if r.keyHash.Some? {
        idempotency := idempotency[KeyOf(r) := Idempotency(FingerprintOf(r), scan, job, received + IDEMPOTENCY_RETENTION_MS)];
      }
      outcome := Created(scan, job);
    }

    /** `job` is the scan's job as it was read before the transaction. */
    method CancelScanEvent(scan: ScanId, job: JobId, nowUs: Us) returns (outcome: CancelOutcome)
      modifies `jobs, `scans
      ensures Contents() == CancelScan(old(Contents()), scan, job, nowUs)
      ensures scan in old(scans) && job in old(jobs)
              && old(Paired(Contents()) && CanceledTogether(Contents()) && jobs[job].scan == scan) ==>
                && (outcome == CanceledNow <==> old(Cancelable(Contents(), scan, job, nowUs)))
                && (outcome == AlreadyCanceled <==> old(jobs[job].status) == Canceled)
                && (outcome == WindowExpired <==> old(jobs[job].status) == Waiting && !old(Cancelable(Contents(), scan, job, nowUs)))
                && outcome != ScanNotFound
    {
      if scan !in scans || job !in jobs { return ScanNotFound; }
      if scans[scan].canceledAt.Some? && jobs[job].status == Canceled { return AlreadyCanceled; }
      var count := 0;
      if Cancelable(Contents(), scan, job, nowUs) {
        jobs := jobs[job := jobs[job].(status := Canceled)];
        count := 1;
      }
      if count == 1 && scans[scan].canceledAt.None? {
        scans := scans[scan := scans[scan].(canceledAt := Some(RoundMs(nowUs)))];
      }
      if scans[scan].canceledAt.Some? && jobs[job].status == Canceled {
        return if count == 1 then CanceledNow else AlreadyCanceled;
      }
      outcome := if jobs[job].status == Waiting then WindowExpired else NotAvailable;
    }

    // ---- locations.service: jobs of a location that leaves service ------------------------------------

    /** The one UPDATE over the queued jobs of the location. */
    method UpdateQueuedJobs(tenant: TenantId, location: LocationId, reason: Reason)
      modifies `jobs
      ensures Contents() == FailQueued(old(Contents()), tenant, location, reason)
    {
      var before := Contents();
      jobs := map id | id in before.jobs ::
        if QueuedAt(before, id, tenant, location) then before.jobs[id].(status := Failed, error := Some(reason)) else before.jobs[id];
    }

    method FailQueuedJobs(tenant: TenantId, location: LocationId, reason: Reason)
      modifies `jobs
      ensures Contents() == FailQueued(old(Contents()), tenant, location, reason)
      ensures NoneQueuedAt(Contents(), tenant, location) && OnlyFailsQueuedAt(old(Contents()), Contents(), tenant, location, reason)
    {
      var before := Contents();
      FailingLeavesNoneQueued(before, tenant, location, reason);
      UpdateQueuedJobs(tenant, location, reason);
    }

    // ---- record-retention.service ---------------------------------------------------------------------

    /** The rechecks, and then the four deletes; RETENTION_MAIL_COUNT_MISMATCH cannot happen. */
    method PurgeScanFamily(tenant: TenantId, scan: ScanId, nowUs: Us) returns (outcome: RetentionOutcome)
      modifies `jobs, `attempts, `scans, `idempotency
      ensures outcome == PurgeFamily(addYear, old(Contents()), tenant, scan, nowUs).outcome
      ensures Contents() == PurgeFamily(addYear, old(Contents()), tenant, scan, nowUs).db
    {
      if tenant !in tenants || InDeletion(tenants[tenant]) { return RetentionBlocked; }
      if scan !in scans || scans[scan].tenant != tenant || !IsDue(addYear, scans[scan], nowUs) { return NotDue; }
      var listed := set j | j in jobs && jobs[j].scan == scan;
      if JobRowsBlock(Contents(), tenant, scan) { return RetentionBlocked; }
      if AttemptRowsBlock(Contents(), tenant, scan) { return RetentionBlocked; }
      if ForeignRecordBlocks(Contents(), tenant, scan) { return RetentionBlocked; }
      idempotency := WithoutRecords(Contents(), tenant, scan).idempotency;
      attempts := WithoutAttempts(Contents(), tenant, scan).attempts;
      var removed := set j | j in jobs && jobs[j].tenant == tenant && jobs[j].scan == scan;
      assert removed == listed;
      jobs := WithoutJobs(Contents(), tenant, scan).jobs;
      if |removed| != |listed| { assert false; }
      scans := WithoutScan(Contents(), tenant, scan).scans;
      outcome := Deleted;
    }

    /**
     The scan loop of one retention run; `listed` is what the selection returned, and `failure` is the
     index of the first transaction that raises, if one does: it writes nothing and ends the loop.
     */
    method RunOnce(listed: seq<(TenantId, ScanId)>, nowUs: Us, failure: Option<nat>) returns (deleted: nat, blocked: nat, failed: nat)
      modifies `jobs, `attempts, `scans, `idempotency, `retentionRunning
      ensures retentionRunning == old(retentionRunning)
      ensures old(retentionRunning) ==> Contents() == old(Contents()) && deleted == 0 && blocked == 0 && failed == 0
      ensures !old(retentionRunning) ==>
                && failed == (if failure.Some? && failure.value < |listed| then 1 else 0)
                && RunResult(Contents(), deleted, blocked) ==
                   PurgeAll(addYear, old(Contents()), if failed == 1 then listed[..failure.value] else listed, nowUs)
    {
      deleted, blocked, failed := 0, 0, 0;
      if retentionRunning { return; }
      retentionRunning := true;
      ghost var reached := if failure.Some? && failure.value < |listed| then listed[..failure.value] else listed;
      for i := 0 to |listed|
        invariant retentionRunning && failed == 0 && (failure.Some? ==> i <= failure.value || failure.value >= |listed|)
        invariant i <= |reached|
        invariant var rest := PurgeAll(addYear, Contents(), reached[i..], nowUs);
                  PurgeAll(addYear, old(Contents()), reached, nowUs) == RunResult(rest.db, deleted + rest.deleted, blocked + rest.blocked)
      {
        if failure == Some(i) {
          failed := 1;
          break;
        }
        assert reached[i..][1..] == reached[i + 1..];
        var outcome := PurgeScanFamily(listed[i].0, listed[i].1, nowUs);
        if outcome == Deleted { deleted := deleted + 1; }
        if outcome == RetentionBlocked { blocked := blocked + 1; }
      }
      retentionRunning := false;
    }

    method DeleteTenantRecords(tenant: TenantId)
      modifies `jobs, `attempts, `scans, `idempotency
      ensures Contents() == DropTenant(old(Contents()), tenant)
      ensures NoRecordOf(Contents(), tenant)
    {
      DroppedTenantHasNoRecord(Contents(), tenant);
      idempotency := map k | k in idempotency && k.tenant != tenant :: idempotency[k];
      attempts := map a | a in attempts && attempts[a].tenant != tenant :: attempts[a];
      jobs := map j | j in jobs && jobs[j].tenant != tenant :: jobs[j];
      scans := map s | s in scans && scans[s].tenant != tenant :: scans[s];
    }

    /**
     The record part of purgeDueTenant: children first, then the subscription and the tenant's own row,
     for which the clock is read a second time. An error at the end undoes everything.
     */
    method PurgeTenantRecords(tenant: TenantId, due: bool, suspended: bool, stillDue: bool) returns (outcome: TenantPurgeOutcome)
      modifies `jobs, `attempts, `scans, `idempotency, `tenants
      ensures Contents() == PurgeTenant(old(Contents()), tenant, due && suspended && stillDue)
      ensures outcome == AlreadyPurged || outcome == NotYetDue <==> !old(PurgeBegins(Contents(), tenant, due))
      ensures outcome == AlreadyPurged <==> tenant in old(tenants) && old(tenants)[tenant] == Purged
      ensures outcome == MailStillInFlight <==> old(PurgeBegins(Contents(), tenant, due) && TenantMailInFlight(Contents(), tenant))
      ensures outcome == SubscriptionInvalid ==> !suspended
      ensures outcome == StateChanged ==> suspended && !stillDue
      ensures outcome == TenantPurged ==> suspended && stillDue && NoRecordOf(Contents(), tenant)
    {
      if tenant !in tenants || tenants[tenant] != PendingDelete || !due {
        return if tenant in tenants && tenants[tenant] == Purged then AlreadyPurged else NotYetDue;
      }
      var inFlight := TenantMailInFlight(Contents(), tenant);
      if inFlight { return MailStillInFlight; }
      var before := Contents();
      DeleteTenantRecords(tenant);
      if suspended && stillDue {
        tenants := tenants[tenant := Purged];
        return TenantPurged;
      }
      idempotency, attempts, jobs, scans := before.idempotency, before.attempts, before.jobs, before.scans;
      outcome := if suspended then StateChanged else SubscriptionInvalid;
    }
  }

  predicate NoneQueuedAt(db: Db, tenant: TenantId, location: LocationId) {
    forall id | id in db.jobs && db.jobs[id].tenant == tenant && db.jobs[id].status == Queued ::
      db.jobs[id].scan in db.scans ==> db.scans[db.jobs[id].scan].location != location
  }

  /** Every job keeps its row, and one that changes was queued at the location and has failed with the reason. */
  predicate OnlyFailsQueuedAt(db: Db, db': Db, tenant: TenantId, location: LocationId, reason: Reason) {
    forall id | id in db.jobs ::
      && id in db'.jobs
      && (|| db'.jobs[id] == db.jobs[id]
          || (db.jobs[id].status == Queued && db.jobs[id].tenant == tenant && db.jobs[id].scan in db.scans
              && db.scans[db.jobs[id].scan].location == location
              && db'.jobs[id] == db.jobs[id].(status := Failed, error := Some(reason))))
  }

  lemma FailingLeavesNoneQueued(db: Db, tenant: TenantId, location: LocationId, reason: Reason)
    ensures NoneQueuedAt(FailQueued(db, tenant, location, reason), tenant, location)
    ensures OnlyFailsQueuedAt(db, FailQueued(db, tenant, location, reason), tenant, location, reason)
  {
  }

  predicate NoRecordOf(db: Db, tenant: TenantId) {
    && (forall j | j in db.jobs :: db.jobs[j].tenant != tenant) && (forall a | a in db.attempts :: db.attempts[a].tenant != tenant)
    && (forall s | s in db.scans :: db.scans[s].tenant != tenant) && (forall k | k in db.idempotency :: k.tenant != tenant)
  }

  lemma DroppedTenantHasNoRecord(db: Db, tenant: TenantId)
    ensures NoRecordOf(DropTenant(db, tenant), tenant)
  {
  }

  /** The latest duplicate is one scan, and a scan has one job. */
  lemma LatestIsUnique(db: Db, r: ScanRequest, received: Ms, s: ScanId)
    requires IsLatestDuplicate(db, r, received, s)
    ensures forall t :: IsLatestDuplicate(db, r, received, t) ==> t == s
  {
    forall t | IsLatestDuplicate(db, r, received, t) ensures t == s {
      assert Later(db, s, t) && Later(db, t, s);
    }
  }

  /**
   One poisoned claim in the list that recovery reads stops the processor: its pass raises before
   it has claimed a single job, whatever was due. MailProgress.PoisonedForever says that the claim stays.
   */
  lemma {:induction false} PoisonedClaimStopsThePass(s: State, job: JobId, stale: seq<StaleRow>, now: Ms, due: seq<Delivery>)
    requires Good(s) && Poisoned(s, job) && (forall r | r in stale :: r in s.stale) && StaleRowOf(job, s.db.jobs[job]) in stale
    ensures ProcessorPass(s.kind, s.db, stale, now, due) == PassRun(RecoverAll(s.db, stale, now).db, true)
    ensures forall a | a in ProcessorPass(s.kind, s.db, stale, now, due).db.attempts :: a in s.db.attempts
  {
    RecoveryOfPoisonedListRaises(s, job, stale, now);
    RecoveryAddsNoAttempt(s.db, stale, now);
  }

  lemma {:induction false} RecoveryAddsNoAttempt(db: Db, rows: seq<StaleRow>, now: Ms)
    ensures RecoverAll(db, rows, now).db.attempts.Keys == db.attempts.Keys
    decreases |rows|
  {
    if rows != [] && !RecoverRow(db, rows[0], now).Raised? {
      RecoveryAddsNoAttempt(AfterRecovery(db, RecoverRow(db, rows[0], now)), rows[1..], now);
    }
  }

  // ---- an execution is a run of the state machine ---------------------------------------------------

  lemma ClaimRuns(s: State, d: Delivery) returns (t: State)
    requires Good(s) && d.attempt !in s.workers && d.attempt !in s.db.attempts && Claims(s.db, d.job, d.tenant, d.auto, d.claimUs)
    ensures Reaches(s, t) && t.kind == s.kind && t.db == ClaimJob(s.db, d.attempt, d.job, d.tenant, d.auto, d.claimUs)
    ensures Holds(t, d.attempt, Holding) && d.attempt !in t.delivered
    ensures t.workers[d.attempt] == Worker(d.job, d.tenant, s.db.jobs[d.job].retryCount, d.active, Holding, true, false)
  {
    var step := ClaimStep(d.attempt, d.job, d.tenant, d.auto, d.claimUs, d.active);
    ReachesSelf(s);
    ReachesThen(s, s, step);
    t := Apply(s, step);
  }

  lemma CallRuns(s0: State, s: State, d: Delivery) returns (t: State)
    requires Reaches(s0, s) && Holds(s, d.attempt, Cleared) && d.reserveUs >= 0 && d.attempt !in s.delivered
    ensures var w := s.workers[d.attempt];
            var deferred := s.kind == Oci && Decision(s.db.attempts, d.reserveUs).Defer?;
            && Reaches(s0, t) && t.kind == s.kind && d.attempt !in t.delivered
            && t.db == (if s.kind == Oci then Reserve(s.db, w.job, d.attempt, w.tenant, d.reserveUs)
                        else MarkInvoked(s.db, d.attempt, w.tenant, d.gateMs, false))
            && (!deferred ==> Holds(t, d.attempt, Calling) && SameExecution(w, t.workers[d.attempt]))
  {
    var step := if s.kind == Oci then ReserveStep(d.attempt, d.reserveUs) else SandboxStep(d.attempt, d.gateMs);
    ReachesThen(s0, s, step);
    t := Apply(s, step);
  }

  lemma AnswerRuns(s0: State, s: State, d: Delivery) returns (t: State)
    requires Reaches(s0, s) && Holds(s, d.attempt, Calling) && d.attempt !in s.delivered
    ensures var w := s.workers[d.attempt];
            Reaches(s0, t) && t.db == RecordVerdict(s.db, w.job, d.attempt, w.tenant, w.retryCount, Judge(s.kind, d.result), d.answerMs)
  {
    var step := VerdictStep(d.attempt, d.result, d.answerMs);
    assert Enabled(s, step);
    ReachesThen(s0, s, step);
    t := Apply(s, step);
  }

  /** An undisturbed execution does to the tables what some run of the state machine does. */
  lemma DeliveryIsARun(s: State, d: Delivery) returns (t: State)
    requires Good(s) && d.attempt !in s.workers && d.attempt !in s.db.attempts && d.reserveUs >= 0
    ensures Reaches(s, t) && t.db == DeliverAlone(s.kind, s.db, d)
  {
    if !Claims(s.db, d.job, d.tenant, d.auto, d.claimUs) {
      ReachesSelf(s);
      return s;
    }
    var s1 := ClaimRuns(s, d);
    var gate := GateStep(d.attempt, d.canSend, d.gateMs);
    ReachesThen(s, s1, gate);
    var s2 := Apply(s1, gate);
    if !d.canSend || !d.active { return s2; }
    var s3 := CallRuns(s, s2, d);
    if s.kind == Oci && Decision(s1.db.attempts, d.reserveUs).Defer? { return s3; }
    t := AnswerRuns(s, s3, d);
  }
}
