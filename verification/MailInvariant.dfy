/**
 The invariant that ties jobs, attempts and workers together, and the proof that every step of the
 delivery state machine keeps it.
 */
module MailInvariant {
  import opened Base
  import opened MailTables
  import opened ProviderVerdict
  import opened RateLimiter
  import opened MailTransactions
  import opened ScanIntake
  import opened Retention
  import opened MailProtocol

  const MAX_RETRY_COUNT := 4

  /** The provider was called and refused in a way that allows another call. */
  predicate TransientEnd(at: Attempt) {
    at.invokedAt.Some? && at.completedAt.Some? && at.closedAt.None?
    && (at.status == RetryScheduled || at.status == AttemptFailed)
  }

  /** The provider was called, and the call is open or ended in any other way. */
  predicate LastCall(at: Attempt) {
    at.invokedAt.Some? && !TransientEnd(at)
  }

  /** Accepted, verdict unknown, or invoked and still open. */
  predicate MayBeDelivered(at: Attempt) {
    at.invokedAt.Some? && (at.status == Invoked || at.status == Succeeded || at.status == OutcomeUnknown)
  }

  predicate AttemptShape(at: Attempt) {
    match at.status
    case Claimed => at.invokedAt.None? && at.completedAt.None? && at.closedAt.None?
    case Invoked => at.invokedAt.Some? && at.completedAt.None? && at.closedAt.None?
    case Succeeded => at.invokedAt.Some? && at.completedAt.Some? && at.closedAt.None?
    case OutcomeUnknown => at.invokedAt.Some? && at.completedAt.Some?
    case AttemptFailed => at.invokedAt.Some? && at.completedAt.Some?
    case RetryScheduled => at.invokedAt.Some? && at.completedAt.Some? && at.closedAt.None?
    case _ => at.invokedAt.None? && at.completedAt.Some? && at.closedAt.None?
  }

  ghost predicate AttemptsOk(s: State) {
    forall a | a in s.db.attempts ::
      var at := s.db.attempts[a];
      && AttemptShape(at)
      && a in s.workers && s.workers[a].job == at.job && s.workers[a].tenant == at.tenant
      && at.job in s.db.jobs && s.db.jobs[at.job].tenant == at.tenant
  }

  /** An open attempt is the claim its job is being processed under. */
  ghost predicate OpenIsCurrent(s: State)
    requires AttemptsOk(s)
  {
    forall a | a in s.db.attempts && s.db.attempts[a].completedAt.None? ::
      var j := s.db.jobs[s.db.attempts[a].job];
      j.status == Processing && j.claimAttempt == Some(a) && j.retryCount == s.workers[a].retryCount
  }

  ghost predicate ProcessingIsOpen(s: State) {
    forall j | j in s.db.jobs && s.db.jobs[j].status == Processing ::
      var c := s.db.jobs[j].claimAttempt;
      && s.db.jobs[j].claimedAt.Some? && c.Some?
      && c.value in s.db.attempts && s.db.attempts[c.value].job == j && s.db.attempts[c.value].completedAt.None?
  }

  /** The status of a job after, or during, its last call. */
  predicate LastCallStatus(at: AttemptStatus, j: JobStatus) {
    match at
    case Invoked => j == Processing
    case Succeeded => j == Sent
    case OutcomeUnknown => j == DeliveryUnknown
    case AttemptFailed => j == Failed
    case _ => false
  }

  /** The last call of a job is its current claim, and the job's status is the call's outcome. */
  ghost predicate LastCallIsCurrent(s: State)
    requires AttemptsOk(s)
  {
    forall a | a in s.db.attempts && LastCall(s.db.attempts[a]) ::
      var j := s.db.jobs[s.db.attempts[a].job];
      j.claimAttempt == Some(a) && j.retryCount < MAX_RETRY_COUNT && LastCallStatus(s.db.attempts[a].status, j.status)
  }

  /** A job of unknown outcome has the attempt whose outcome is unknown. */
  ghost predicate UnknownHasAttempt(s: State) {
    forall j | j in s.db.jobs && s.db.jobs[j].status == DeliveryUnknown ::
      var c := s.db.jobs[j].claimAttempt;
      c.Some? && c.value in s.db.attempts && s.db.attempts[c.value].job == j && s.db.attempts[c.value].status == OutcomeUnknown
  }

  ghost predicate JobsOk(s: State) {
    forall id | id in s.db.jobs :: JobOk(s.db.jobs[id])
  }

  predicate JobOk(j: Job) {
    && ChecksHold(j)
    && (j.status == Waiting || j.status == Canceled ==> j.retryCount == 0 && j.sendNotBefore.Some?)
    && j.cancelUntil == j.sendNotBefore
    && j.retryCount <= MAX_RETRY_COUNT
    && (j.retryCount == MAX_RETRY_COUNT ==> j.status == Failed)
    && (j.retryCount > 0 && (j.status == Queued || j.status == Processing) ==> j.scheduledAt.Some?)
  }

  ghost predicate WorkerOk(s: State, a: AttemptId)
    requires AttemptsOk(s) && a in s.workers
  {
    var w := s.workers[a];
    && (w.alive && (w.phase == Holding || w.phase == Cleared) ==> a in s.db.attempts && s.db.attempts[a].status == Claimed)
    && (w.alive && w.phase == Calling ==> a in s.db.attempts && CallIsOpen(s, a))
    && (w.mayArrive && w.job in s.db.jobs ==> a in s.db.attempts && MayBeDelivered(s.db.attempts[a]))
    && (w.mayArrive ==> w.phase == Calling || w.phase == Finished)
  }

  /** A call that has not returned: still the claim, or already written off by recovery. */
  ghost predicate CallIsOpen(s: State, a: AttemptId)
    requires AttemptsOk(s) && a in s.workers && a in s.db.attempts
  {
    var at := s.db.attempts[a];
    var j := s.db.jobs[at.job];
    || at.status == Invoked
    || (at.status == OutcomeUnknown && at.closedAt.None? && j.status == DeliveryUnknown && j.retryCount == s.workers[a].retryCount)
  }

  ghost predicate WorkersOk(s: State)
    requires AttemptsOk(s)
  {
    forall a | a in s.workers :: WorkerOk(s, a)
  }

  /** At most one call per job may have been accepted, counting jobs that are long gone. */
  ghost predicate ArrivalsUnique(s: State) {
    forall a, b | a in s.workers && b in s.workers && s.workers[a].mayArrive && s.workers[b].mayArrive
                  && s.workers[a].job == s.workers[b].job :: a == b
  }

  ghost predicate DeliveredOk(s: State) {
    forall a | a in s.delivered :: a in s.workers && s.workers[a].mayArrive
  }

  /** A row that recovery has read still describes its claim, for as long as that claim is open. */
  ghost predicate StaleOk(s: State) {
    forall r | r in s.stale ::
      && r.claim.Some? && r.claim.value in s.workers
      && var w := s.workers[r.claim.value];
      && w.job == r.job && w.tenant == r.tenant && w.retryCount == r.retryCount
      && (r.job in s.db.jobs ==> s.db.jobs[r.job].sendNotBefore == r.sendNotBefore)
  }

  ghost function TransientEnds(attempts: map<AttemptId, Attempt>, job: JobId): set<AttemptId> {
    set a | a in attempts && attempts[a].job == job && TransientEnd(attempts[a])
  }

  ghost predicate Counted(s: State) {
    forall j | j in s.db.jobs :: |TransientEnds(s.db.attempts, j)| == s.db.jobs[j].retryCount
  }

  ghost predicate IssuedOk(s: State) {
    s.db.jobs.Keys <= s.issued && forall a | a in s.workers :: s.workers[a].job in s.issued
  }

  ghost predicate Core(s: State) {
    && AttemptsOk(s) && OpenIsCurrent(s) && ProcessingIsOpen(s) && LastCallIsCurrent(s) && UnknownHasAttempt(s)
    && JobsOk(s) && WorkersOk(s) && ArrivalsUnique(s) && DeliveredOk(s) && StaleOk(s) && Counted(s)
  }

  ghost predicate Inv(s: State) {
    Core(s) && IssuedOk(s)
  }

  lemma InitInv(s: State)
    requires Init(s)
    ensures Inv(s)
  {
    forall j | j in s.db.jobs ensures |TransientEnds(s.db.attempts, j)| == s.db.jobs[j].retryCount {
      assert TransientEnds(s.db.attempts, j) == {};
    }
  }

  // ---- counting ---------------------------------------------------------------------------

  /** Rewriting one attempt changes only its own job's count, and only if it now ends transiently. */
  lemma EndsAfterWrite(attempts: map<AttemptId, Attempt>, a: AttemptId, at: Attempt)
    requires a in attempts ==> attempts[a].job == at.job && !TransientEnd(attempts[a])
    ensures |TransientEnds(attempts[a := at], at.job)| == |TransientEnds(attempts, at.job)| + (if TransientEnd(at) then 1 else 0)
    ensures forall j | j != at.job :: TransientEnds(attempts[a := at], j) == TransientEnds(attempts, j)
  {
    var before, after := TransientEnds(attempts, at.job), TransientEnds(attempts[a := at], at.job);
    assert after == if TransientEnd(at) then before + {a} else before;
    forall j | j != at.job ensures TransientEnds(attempts[a := at], j) == TransientEnds(attempts, j) {
    }
  }

  // ---- one worker rewrites its job and its attempt --------------------------------------------

  /** The shape of every step by which the worker of attempt `a` (or recovery, for it) writes. */
  function Touch(s: State, a: AttemptId, id: JobId, j: Job, at: Attempt, w: Worker): State {
    s.(db := Write(s.db, id, j, a, at), workers := s.workers[a := w])
  }

  /** Attempt `a` may write job `id`: it is the job's claim, or nobody holds the job. */
  predicate MayWrite(row: Job, a: AttemptId) {
    row.claimAttempt == Some(a) || row.status == Waiting || row.status == Queued
  }

  /** What a rewrite must establish about its own three rows. */
  ghost predicate TouchOk(s: State, a: AttemptId, id: JobId, j: Job, at: Attempt, w: Worker) {
    && id in s.db.jobs && MayWrite(s.db.jobs[id], a)
    && at.job == id && w.job == id && at.tenant == w.tenant == j.tenant == s.db.jobs[id].tenant
    && j.sendNotBefore == s.db.jobs[id].sendNotBefore
    && (a in s.db.attempts ==> s.db.attempts[a].job == id && !TransientEnd(s.db.attempts[a]))
    && (a in s.workers ==> SameExecution(s.workers[a], w))
    && AttemptShape(at) && JobOk(j)
    && (at.completedAt.None? <==> j.status == Processing)
    && (at.completedAt.None? ==> j.claimAttempt == Some(a) && j.retryCount == w.retryCount)
    && (LastCall(at) ==> j.claimAttempt == Some(a) && j.retryCount < MAX_RETRY_COUNT && LastCallStatus(at.status, j.status))
    && (j.status == DeliveryUnknown ==> at.status == OutcomeUnknown)
    && (w.alive && (w.phase == Holding || w.phase == Cleared) ==> at.status == Claimed)
    && (w.alive && w.phase == Calling ==>
          at.status == Invoked
          || (at.status == OutcomeUnknown && at.closedAt.None? && j.status == DeliveryUnknown && j.retryCount == w.retryCount))
    && (w.mayArrive ==> MayBeDelivered(at) && (w.phase == Calling || w.phase == Finished))
    && (a in s.delivered ==> w.mayArrive)
    && j.retryCount == s.db.jobs[id].retryCount + (if TransientEnd(at) then 1 else 0)
  }

  predicate SameExecution(v: Worker, w: Worker) {
    v.job == w.job && v.tenant == w.tenant && v.retryCount == w.retryCount
  }

  /** No other attempt of the job is open or has made its last call. */
  lemma NoRival(s: State, a: AttemptId, id: JobId, b: AttemptId)
    requires AttemptsOk(s) && OpenIsCurrent(s) && LastCallIsCurrent(s)
    requires id in s.db.jobs && MayWrite(s.db.jobs[id], a)
    requires b in s.db.attempts && b != a && s.db.attempts[b].job == id
    ensures s.db.attempts[b].completedAt.Some? && !LastCall(s.db.attempts[b])
  {
  }

  lemma TouchAttempts(s: State, a: AttemptId, id: JobId, j: Job, at: Attempt, w: Worker)
    requires Inv(s) && TouchOk(s, a, id, j, at, w)
    ensures AttemptsOk(Touch(s, a, id, j, at, w))
  {
    var s' := Touch(s, a, id, j, at, w);
    forall b | b in s'.db.attempts && b != a ensures b in s.db.attempts && s'.db.attempts[b] == s.db.attempts[b] {
    }
  }

  lemma TouchClaims(s: State, a: AttemptId, id: JobId, j: Job, at: Attempt, w: Worker)
    requires Inv(s) && TouchOk(s, a, id, j, at, w) && AttemptsOk(Touch(s, a, id, j, at, w))
    ensures OpenIsCurrent(Touch(s, a, id, j, at, w))
    ensures LastCallIsCurrent(Touch(s, a, id, j, at, w))
  {
    forall b | b in s.db.attempts && b != a && s.db.attempts[b].job == id
      ensures s.db.attempts[b].completedAt.Some? && !LastCall(s.db.attempts[b])
    {
      NoRival(s, a, id, b);
    }
  }

  lemma TouchProcessing(s: State, a: AttemptId, id: JobId, j: Job, at: Attempt, w: Worker)
    requires ProcessingIsOpen(s) && TouchOk(s, a, id, j, at, w)
    ensures ProcessingIsOpen(Touch(s, a, id, j, at, w))
  {
    var s' := Touch(s, a, id, j, at, w);
    forall i | i in s'.db.jobs && s'.db.jobs[i].status == Processing
      ensures var c := s'.db.jobs[i].claimAttempt;
              && s'.db.jobs[i].claimedAt.Some? && c.Some?
              && c.value in s'.db.attempts && s'.db.attempts[c.value].job == i && s'.db.attempts[c.value].completedAt.None?
    {
      if i != id { assert s.db.attempts[s.db.jobs[i].claimAttempt.value].job == i; }
    }
  }

  lemma TouchUnknown(s: State, a: AttemptId, id: JobId, j: Job, at: Attempt, w: Worker)
    requires UnknownHasAttempt(s) && TouchOk(s, a, id, j, at, w)
    ensures UnknownHasAttempt(Touch(s, a, id, j, at, w))
  {
    var s' := Touch(s, a, id, j, at, w);
    forall i | i in s'.db.jobs && s'.db.jobs[i].status == DeliveryUnknown
      ensures var c := s'.db.jobs[i].claimAttempt;
              && c.Some? && c.value in s'.db.attempts && s'.db.attempts[c.value].job == i
              && s'.db.attempts[c.value].status == OutcomeUnknown
    {
      if i != id { assert s.db.attempts[s.db.jobs[i].claimAttempt.value].job == i; }
    }
  }

  lemma TouchWorkers(s: State, a: AttemptId, id: JobId, j: Job, at: Attempt, w: Worker)
    requires Inv(s) && TouchOk(s, a, id, j, at, w) && AttemptsOk(Touch(s, a, id, j, at, w))
    ensures WorkersOk(Touch(s, a, id, j, at, w))
  {
    var s' := Touch(s, a, id, j, at, w);
    forall b | b in s'.workers ensures WorkerOk(s', b) {
      if b != a {
        assert WorkerOk(s, b);
        if b in s.db.attempts && s.db.attempts[b].job == id { NoRival(s, a, id, b); }
      }
    }
  }

  lemma TouchArrivals(s: State, a: AttemptId, id: JobId, j: Job, at: Attempt, w: Worker)
    requires Inv(s) && TouchOk(s, a, id, j, at, w)
    ensures ArrivalsUnique(Touch(s, a, id, j, at, w))
    ensures DeliveredOk(Touch(s, a, id, j, at, w))
    ensures StaleOk(Touch(s, a, id, j, at, w))
    ensures IssuedOk(Touch(s, a, id, j, at, w))
    ensures JobsOk(Touch(s, a, id, j, at, w))
  {
    forall b | b in s.workers && b != a && s.workers[b].job == id ensures !s.workers[b].mayArrive {
      assert WorkerOk(s, b);
      if b in s.db.attempts { NoRival(s, a, id, b); }
    }
  }

  lemma TouchCounts(s: State, a: AttemptId, id: JobId, j: Job, at: Attempt, w: Worker)
    requires Counted(s) && id in s.db.jobs && at.job == id
    requires a in s.db.attempts ==> s.db.attempts[a].job == id && !TransientEnd(s.db.attempts[a])
    requires j.retryCount == s.db.jobs[id].retryCount + (if TransientEnd(at) then 1 else 0)
    ensures Counted(Touch(s, a, id, j, at, w))
  {
    EndsAfterWrite(s.db.attempts, a, at);
    var s' := Touch(s, a, id, j, at, w);
    forall i | i in s'.db.jobs ensures |TransientEnds(s'.db.attempts, i)| == s'.db.jobs[i].retryCount {
      assert i in s.db.jobs;
    }
  }

  /** A rewrite that is right about its own rows keeps the whole invariant. */
  lemma TouchKeeps(s: State, a: AttemptId, id: JobId, j: Job, at: Attempt, w: Worker)
    requires Inv(s) && TouchOk(s, a, id, j, at, w)
    ensures Inv(Touch(s, a, id, j, at, w))
  {
    TouchAttempts(s, a, id, j, at, w);
    TouchClaims(s, a, id, j, at, w);
    TouchProcessing(s, a, id, j, at, w);
    TouchUnknown(s, a, id, j, at, w);
    TouchWorkers(s, a, id, j, at, w);
    TouchArrivals(s, a, id, j, at, w);
    TouchCounts(s, a, id, j, at, w);
  }

  // ---- the steps of a worker -----------------------------------------------------------------

  lemma ClaimKeeps(s: State, a: AttemptId, job: JobId, tenant: TenantId, auto: bool, nowUs: Us, active: bool)
    requires Inv(s) && a !in s.workers && a !in s.db.attempts
    ensures Inv(AfterClaim(s, a, job, tenant, auto, nowUs, active))
  {
    if Claims(s.db, job, tenant, auto, nowUs) {
      var old_ := s.db.jobs[job];
      TouchKeeps(s, a, job, ClaimedRow(old_, a, nowUs), NewAttempt(tenant, job),
                 Worker(job, tenant, old_.retryCount, active, Holding, true, false));
    }
  }

  lemma GateKeeps(s: State, a: AttemptId, canSend: bool, now: Ms)
    requires Inv(s) && Holds(s, a, Holding)
    ensures Inv(AfterGate(s, a, canSend, now))
  {
    assert WorkerOk(s, a);
    var w := s.workers[a];
    var s' := AfterGate(s, a, canSend, now);
    assert s'.db.jobs == s.db.jobs[w.job := s'.db.jobs[w.job]];
    assert s'.db.attempts == s.db.attempts[a := s'.db.attempts[a]];
    TouchKeeps(s, a, w.job, s'.db.jobs[w.job], s'.db.attempts[a], s'.workers[a]);
  }

  /** The core does not read the log of admissions or the identifiers issued. */
  lemma LogIsInert(s: State, log: seq<Ms>, issued: set<JobId>)
    requires Core(s)
    ensures Core(s.(admitted := log, issued := issued))
  {
    var s' := s.(admitted := log, issued := issued);
    assert AttemptsOk(s');
    forall a | a in s'.workers ensures WorkerOk(s', a) { assert WorkerOk(s, a); }
  }

  lemma InvokeKeeps(s: State, a: AttemptId, now: Ms, rfc: bool)
    requires Inv(s) && Holds(s, a, Cleared)
    ensures var w := s.workers[a];
            Inv(s.(db := MarkInvoked(s.db, a, w.tenant, now, rfc), workers := s.workers[a := w.(phase := Calling, mayArrive := true)]))
  {
    assert WorkerOk(s, a);
    var w := s.workers[a];
    var db' := MarkInvoked(s.db, a, w.tenant, now, rfc);
    assert db'.jobs == s.db.jobs[w.job := s.db.jobs[w.job]];
    TouchKeeps(s, a, w.job, s.db.jobs[w.job], db'.attempts[a], w.(phase := Calling, mayArrive := true));
  }

  lemma DeferKeeps(s: State, a: AttemptId, scheduledAt: Ms, now: Ms)
    requires Inv(s) && Holds(s, a, Cleared)
    ensures var w := s.workers[a];
            Inv(s.(db := DeferJob(s.db, w.job, a, w.tenant, scheduledAt, now), workers := s.workers[a := w.(phase := Finished)]))
  {
    assert WorkerOk(s, a);
    var w := s.workers[a];
    var db' := DeferJob(s.db, w.job, a, w.tenant, scheduledAt, now);
    TouchKeeps(s, a, w.job, db'.jobs[w.job], db'.attempts[a], w.(phase := Finished));
  }

  lemma ReserveKeeps(s: State, a: AttemptId, nowUs: Us)
    requires Inv(s) && Holds(s, a, Cleared)
    ensures Inv(AfterReserve(s, a, nowUs))
  {
    match Decision(s.db.attempts, nowUs)
    case Admit =>
      InvokeKeeps(s, a, TruncMs(nowUs), true);
      var w := s.workers[a];
      LogIsInert(s.(db := MarkInvoked(s.db, a, w.tenant, TruncMs(nowUs), true),
                    workers := s.workers[a := w.(phase := Calling, mayArrive := true)]), s.admitted + [TruncMs(nowUs)], s.issued);
    case Defer(scheduledAt) => DeferKeeps(s, a, scheduledAt, TruncMs(nowUs));
  }

  /** The rows of a worker whose call is open. */
  lemma CallingFacts(s: State, a: AttemptId)
    requires Inv(s) && Holds(s, a, Calling)
    ensures var w := s.workers[a];
            && RowsFound(s.db, w.job, a, w.tenant) && s.db.attempts[a].job == w.job && LastCall(s.db.attempts[a])
            && !TransientEnd(s.db.attempts[a]) && JobOk(s.db.jobs[w.job])
            && s.db.jobs[w.job].claimAttempt == Some(a) && s.db.jobs[w.job].retryCount == w.retryCount < MAX_RETRY_COUNT
  {
    assert WorkerOk(s, a);
    assert LastCall(s.db.attempts[a]);
  }

  lemma RetryTouches(s: State, a: AttemptId, result: SendResult, now: Ms)
    requires Inv(s) && Holds(s, a, Calling) && HonestAnswer(s, a, Judge(s.kind, result)) && Judge(s.kind, result).Retry?
    ensures var w, s' := s.workers[a], AfterVerdict(s, a, result, now);
            && w.job in s'.db.jobs && a in s'.db.attempts && a in s'.workers
            && TouchOk(s, a, w.job, s'.db.jobs[w.job], s'.db.attempts[a], s'.workers[a])
            && s' == Touch(s, a, w.job, s'.db.jobs[w.job], s'.db.attempts[a], s'.workers[a])
  {
    CallingFacts(s, a);
  }

  lemma FinalTouches(s: State, a: AttemptId, result: SendResult, now: Ms)
    requires Inv(s) && Holds(s, a, Calling) && HonestAnswer(s, a, Judge(s.kind, result)) && !Judge(s.kind, result).Retry?
    ensures var w, s' := s.workers[a], AfterVerdict(s, a, result, now);
            && w.job in s'.db.jobs && a in s'.db.attempts && a in s'.workers
            && TouchOk(s, a, w.job, s'.db.jobs[w.job], s'.db.attempts[a], s'.workers[a])
            && s' == Touch(s, a, w.job, s'.db.jobs[w.job], s'.db.attempts[a], s'.workers[a])
  {
    CallingFacts(s, a);
  }

  lemma VerdictKeeps(s: State, a: AttemptId, result: SendResult, now: Ms)
    requires Inv(s) && Holds(s, a, Calling) && HonestAnswer(s, a, Judge(s.kind, result))
    ensures Inv(AfterVerdict(s, a, result, now))
  {
    if Judge(s.kind, result).Retry? { RetryTouches(s, a, result, now); } else { FinalTouches(s, a, result, now); }
    var w, s' := s.workers[a], AfterVerdict(s, a, result, now);
    TouchKeeps(s, a, w.job, s'.db.jobs[w.job], s'.db.attempts[a], s'.workers[a]);
  }

  /** The open claim that a successful recovery acts on. */
  lemma RecoveredClaim(s: State, row: StaleRow, now: Ms)
    requires Inv(s) && row in s.stale && RecoverRow(s.db, row, now).Recovered?
    ensures row.claim.Some? && row.claim.value in s.workers && row.claim.value in s.db.attempts && row.job in s.db.jobs
    ensures var a, j := row.claim.value, s.db.jobs[row.job];
            && s.db.attempts[a].completedAt.None? && s.db.attempts[a].job == row.job && AttemptShape(s.db.attempts[a]) && JobOk(j)
            && j.status == Processing && j.claimAttempt == Some(a) && j.tenant == row.tenant && j.retryCount == row.retryCount
            && j.sendNotBefore == row.sendNotBefore && WorkerOk(s, a)
  {
    assert JobOk(s.db.jobs[row.job]);
  }

  lemma WriteOffTouches(s: State, row: StaleRow, now: Ms)
    requires Inv(s) && row in s.stale && RecoverRow(s.db, row, now).Recovered? && RecoversAsUnknown(s.db, row)
    ensures var r := RecoverRow(s.db, row, now);
            && row.claim.Some? && row.claim.value in s.workers && row.job in r.db.jobs && row.claim.value in r.db.attempts
            && r.db == Write(s.db, row.job, r.db.jobs[row.job], row.claim.value, r.db.attempts[row.claim.value])
            && TouchOk(s, row.claim.value, row.job, r.db.jobs[row.job], r.db.attempts[row.claim.value], s.workers[row.claim.value])
  {
    RecoveredClaim(s, row, now);
    assert LastCall(s.db.attempts[row.claim.value]);
  }

  /** Recovery that gives back a claim writes the claim's own two rows; its worker is dead. */
  lemma GiveBackTouches(s: State, row: StaleRow, now: Ms)
    requires Inv(s) && row in s.stale && !Unfenced(s, row) && RecoverRow(s.db, row, now).Recovered? && !RecoversAsUnknown(s.db, row)
    ensures var r := RecoverRow(s.db, row, now);
            && row.claim.Some? && row.claim.value in s.workers && row.job in r.db.jobs && row.claim.value in r.db.attempts
            && r.db == Write(s.db, row.job, r.db.jobs[row.job], row.claim.value, r.db.attempts[row.claim.value])
            && TouchOk(s, row.claim.value, row.job, r.db.jobs[row.job], r.db.attempts[row.claim.value], s.workers[row.claim.value])
  {
    RecoveredClaim(s, row, now);
  }

  lemma RecoverKeeps(s: State, row: StaleRow, now: Ms)
    requires Inv(s) && row in s.stale && !Unfenced(s, row)
    ensures Inv(s.(db := AfterRecovery(s.db, RecoverRow(s.db, row, now))))
  {
    var r := RecoverRow(s.db, row, now);
    if r.Recovered? {
      var a := row.claim.value;
      RecoveredClaim(s, row, now);
      if RecoversAsUnknown(s.db, row) { WriteOffTouches(s, row, now); } else { GiveBackTouches(s, row, now); }
      assert s.workers == s.workers[a := s.workers[a]];
      TouchKeeps(s, a, row.job, r.db.jobs[row.job], r.db.attempts[a], s.workers[a]);
    }
  }

  // ---- process events --------------------------------------------------------------------------

  lemma ArriveKeeps(s: State, a: AttemptId)
    requires Inv(s) && a in s.workers && s.workers[a].mayArrive
    ensures Inv(s.(delivered := s.delivered + {a}))
  {
    var s' := s.(delivered := s.delivered + {a});
    assert AttemptsOk(s');
    forall b | b in s'.workers ensures WorkerOk(s', b) { assert WorkerOk(s, b); }
  }

  lemma CrashKeeps(s: State, a: AttemptId)
    requires Inv(s) && a in s.workers
    ensures Inv(s.(workers := s.workers[a := s.workers[a].(alive := false)]))
  {
    var s' := s.(workers := s.workers[a := s.workers[a].(alive := false)]);
    forall b | b in s'.workers
      ensures SameExecution(s.workers[b], s'.workers[b]) && s'.workers[b].mayArrive == s.workers[b].mayArrive
    {
    }
    assert AttemptsOk(s') && OpenIsCurrent(s') && LastCallIsCurrent(s');
    assert WorkersOk(s') by {
      forall b | b in s'.workers ensures WorkerOk(s', b) { assert WorkerOk(s, b); }
    }
    assert ArrivalsUnique(s') && DeliveredOk(s') && StaleOk(s');
    assert Counted(s');
  }

  lemma ListStaleKeeps(s: State, rows: set<StaleRow>, staleBefore: Ms)
    requires Inv(s) && Enabled(s, ListStaleStep(rows, staleBefore))
    ensures Inv(s.(stale := s.stale + rows))
  {
    var s' := s.(stale := s.stale + rows);
    assert AttemptsOk(s');
    forall b | b in s'.workers ensures WorkerOk(s', b) { assert WorkerOk(s, b); }
  }

  // ---- steps that touch jobs nobody holds ----------------------------------------------------------

  /** A job that no worker holds may leave the queue; nothing else about it that matters changes. */
  predicate LeavesQueue(j: Job, j': Job) {
    || j' == j
    || ((j.status == Waiting || j.status == Queued) && (j'.status == Failed || j'.status == Canceled)
        && (j'.status == Canceled ==> j.status == Waiting)
        && j' == j.(status := j'.status, error := j'.error))
  }

  ghost predicate QueueLeft(db: Db, db': Db) {
    && db'.attempts == db.attempts && db'.jobs.Keys == db.jobs.Keys
    && forall j | j in db.jobs :: LeavesQueue(db.jobs[j], db'.jobs[j])
  }

  lemma LeaveQueueClaims(s: State, db': Db)
    requires AttemptsOk(s) && OpenIsCurrent(s) && LastCallIsCurrent(s)
    requires ProcessingIsOpen(s) && UnknownHasAttempt(s) && QueueLeft(s.db, db')
    ensures var s' := s.(db := db');
            AttemptsOk(s') && OpenIsCurrent(s') && LastCallIsCurrent(s') && ProcessingIsOpen(s') && UnknownHasAttempt(s')
  {
  }

  lemma LeaveQueueWorkers(s: State, db': Db)
    requires AttemptsOk(s) && AttemptsOk(s.(db := db')) && WorkersOk(s) && QueueLeft(s.db, db')
    ensures WorkersOk(s.(db := db'))
  {
    var s' := s.(db := db');
    forall b | b in s'.workers ensures WorkerOk(s', b) { assert WorkerOk(s, b); }
  }

  lemma LeaveQueueRows(s: State, db': Db)
    requires JobsOk(s) && Counted(s) && StaleOk(s) && QueueLeft(s.db, db')
    ensures var s' := s.(db := db'); JobsOk(s') && Counted(s') && StaleOk(s')
  {
    forall j | j in db'.jobs ensures JobOk(db'.jobs[j]) { assert JobOk(s.db.jobs[j]); }
  }

  lemma LeaveQueueKeeps(s: State, db': Db)
    requires Inv(s) && QueueLeft(s.db, db')
    ensures Inv(s.(db := db'))
  {
    LeaveQueueClaims(s, db');
    LeaveQueueWorkers(s, db');
    LeaveQueueRows(s, db');
  }

  ghost predicate Inserted(s: State, db': Db, id: JobId, j: Job) {
    id !in s.issued && db'.attempts == s.db.attempts && db'.jobs == s.db.jobs[id := j] && JobOk(j) && j.status == Waiting
  }

  lemma InsertClaims(s: State, db': Db, id: JobId, j: Job)
    requires IssuedOk(s) && AttemptsOk(s) && OpenIsCurrent(s) && LastCallIsCurrent(s)
    requires ProcessingIsOpen(s) && UnknownHasAttempt(s) && Inserted(s, db', id, j)
    ensures var s' := s.(db := db');
            AttemptsOk(s') && OpenIsCurrent(s') && LastCallIsCurrent(s') && ProcessingIsOpen(s') && UnknownHasAttempt(s')
  {
  }

  lemma InsertWorkers(s: State, db': Db, id: JobId, j: Job)
    requires IssuedOk(s) && AttemptsOk(s) && AttemptsOk(s.(db := db')) && WorkersOk(s) && Inserted(s, db', id, j)
    ensures WorkersOk(s.(db := db'))
  {
    var s' := s.(db := db');
    forall b | b in s'.workers ensures WorkerOk(s', b) { assert WorkerOk(s, b); }
  }

  lemma InsertRows(s: State, db': Db, id: JobId, j: Job)
    requires IssuedOk(s) && AttemptsOk(s) && JobsOk(s) && Counted(s) && StaleOk(s) && Inserted(s, db', id, j) && j.retryCount == 0
    ensures var s' := s.(db := db'); JobsOk(s') && Counted(s') && StaleOk(s')
  {
    assert TransientEnds(s.db.attempts, id) == {} by {
      forall b | b in s.db.attempts ensures s.db.attempts[b].job != id { assert s.workers[b].job != id; }
    }
  }

  lemma InsertCore(s: State, db': Db, id: JobId, j: Job)
    requires Inv(s) && Inserted(s, db', id, j)
    ensures Core(s.(db := db'))
  {
    InsertClaims(s, db', id, j);
    InsertWorkers(s, db', id, j);
    InsertRows(s, db', id, j);
  }

  lemma IssueKeeps(s: State, id: JobId)
    requires Core(s) && s.db.jobs.Keys <= s.issued + {id} && forall a | a in s.workers :: s.workers[a].job in s.issued
    ensures Inv(s.(issued := s.issued + {id}))
  {
    LogIsInert(s, s.admitted, s.issued + {id});
    assert s.(admitted := s.admitted, issued := s.issued + {id}) == s.(issued := s.issued + {id});
  }

  lemma InsertKeeps(s: State, db': Db, id: JobId, j: Job)
    requires Inv(s) && Inserted(s, db', id, j)
    ensures Inv(s.(db := db', issued := s.issued + {id}))
  {
    InsertCore(s, db', id, j);
    IssueKeeps(s.(db := db'), id);
  }

  /** Dropping whole jobs with their attempts, none of which has a call that may still return. */
  ghost predicate DropsQuietJobs(db: Db, db': Db) {
    && (forall j | j in db'.jobs :: j in db.jobs && db'.jobs[j] == db.jobs[j])
    && (forall a | a in db'.attempts :: a in db.attempts && db'.attempts[a] == db.attempts[a] && db.attempts[a].job in db'.jobs)
    && (forall a | a in db.attempts && db.attempts[a].job in db'.jobs :: a in db'.attempts)
    && (forall a | a in db.attempts && db.attempts[a].job !in db'.jobs :: !InFlight(db.attempts[a]))
  }

  lemma DropClaims(s: State, db': Db)
    requires AttemptsOk(s) && OpenIsCurrent(s) && LastCallIsCurrent(s)
    requires ProcessingIsOpen(s) && UnknownHasAttempt(s) && DropsQuietJobs(s.db, db')
    ensures var s' := s.(db := db');
            AttemptsOk(s') && OpenIsCurrent(s') && LastCallIsCurrent(s') && ProcessingIsOpen(s') && UnknownHasAttempt(s')
  {
  }

  lemma DropWorkers(s: State, db': Db)
    requires AttemptsOk(s) && AttemptsOk(s.(db := db')) && WorkersOk(s) && DropsQuietJobs(s.db, db')
    ensures WorkersOk(s.(db := db'))
  {
    var s' := s.(db := db');
    forall b | b in s'.workers ensures WorkerOk(s', b) { assert WorkerOk(s, b); }
  }

  lemma DropRows(s: State, db': Db)
    requires JobsOk(s) && Counted(s) && StaleOk(s) && IssuedOk(s) && DropsQuietJobs(s.db, db')
    ensures var s' := s.(db := db'); JobsOk(s') && Counted(s') && StaleOk(s') && IssuedOk(s')
  {
    forall j | j in db'.jobs ensures |TransientEnds(db'.attempts, j)| == db'.jobs[j].retryCount {
      assert TransientEnds(db'.attempts, j) == TransientEnds(s.db.attempts, j);
    }
  }

  lemma DropKeeps(s: State, db': Db)
    requires Inv(s) && DropsQuietJobs(s.db, db')
    ensures Inv(s.(db := db'))
  {
    DropClaims(s, db');
    DropWorkers(s, db');
    DropRows(s, db');
  }

  lemma TenantStatusIsInert(s: State, db': Db)
    requires Inv(s) && db'.jobs == s.db.jobs && db'.attempts == s.db.attempts
    ensures Inv(s.(db := db'))
  {
    LeaveQueueKeeps(s, db');
  }
}
