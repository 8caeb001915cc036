/** Every step of the machine with three-statement recovery keeps its invariant. */
module MailRecoveryInvariant {
  import opened Base
  import opened MailTables
  import opened ProviderVerdict
  import opened RateLimiter
  import opened MailTransactions
  import opened ScanIntake
  import opened Retention
  import opened MailProtocol
  import opened MailInvariant
  import opened IntakeInvariant
  import opened MailRuns
  import opened MailRecovery

  lemma FineInitInv(f: FineState)
    requires FineInit(f)
    ensures FineInv(f)
  {
    forall j | j in f.base.db.jobs ensures |RefusedOf(f.base.db.attempts, f.refused, j)| == f.base.db.jobs[j].retryCount {
      assert RefusedOf(f.base.db.attempts, f.refused, j) == {};
    }
  }

  // ---- the rows that recovery has read -------------------------------------------------------------------

  /** What every step respects about workers, attempts and jobs that somebody has already read. */
  ghost predicate Evolves(s: State, s': State) {
    && (forall a | a in s.workers ::
          && a in s'.workers && SameExecution(s.workers[a], s'.workers[a])
          && (!s.workers[a].alive ==> !s'.workers[a].alive && s'.workers[a].mayArrive == s.workers[a].mayArrive))
    && (forall a | a in s'.db.attempts && a in s.workers ::
          && a in s.db.attempts
          && (s.db.attempts[a].invokedAt.Some? ==> s'.db.attempts[a].invokedAt.Some?)
          && (!s.workers[a].alive ==> s'.db.attempts[a].invokedAt == s.db.attempts[a].invokedAt))
    && (forall j | j in s'.db.jobs && j in s.issued :: j in s.db.jobs && s'.db.jobs[j].sendNotBefore == s.db.jobs[j].sendNotBefore)
  }

  lemma PlanStays(s: State, s': State, p: Plan)
    requires Evolves(s, s') && IssuedOk(s) && PlanOk(s, p)
    ensures PlanOk(s', p)
  {
  }

  lemma RowStays(s: State, s': State, r: StaleRow)
    requires Evolves(s, s') && IssuedOk(s) && RowOk(s, r)
    ensures RowOk(s', r)
  {
  }

  lemma RowsStay(s: State, s': State, plans: map<PlanId, Plan>)
    requires Evolves(s, s') && IssuedOk(s) && Rows(s, plans) && s'.stale == s.stale
    ensures Rows(s', plans)
  {
    forall r | r in s'.stale ensures RowOk(s', r) { RowStays(s, s', r); }
    forall i | i in plans ensures PlanOk(s', plans[i]) { PlanStays(s, s', plans[i]); }
  }

  // ---- a worker rewrites its two rows --------------------------------------------------------------------

  function RefusedAfter(refused: set<AttemptId>, a: AttemptId, refusal: bool): set<AttemptId> {
    if refusal then refused + {a} else refused
  }

  /** What a rewrite must establish about its own rows. */
  ghost predicate RewriteOk(s: State, refused: set<AttemptId>, refusal: bool, a: AttemptId, id: JobId, j: Job, at: Attempt, w: Worker) {
    && id in s.db.jobs && MayWrite(s.db.jobs[id], a) && a !in refused
    && at.job == id && w.job == id && at.tenant == w.tenant == j.tenant == s.db.jobs[id].tenant
    && j.sendNotBefore == s.db.jobs[id].sendNotBefore
    && (a in s.workers ==> a in s.db.attempts && SameExecution(s.workers[a], w) && s.workers[a].alive)
    && (a in s.db.attempts ==> s.db.attempts[a].job == id && (s.db.attempts[a].invokedAt.Some? ==> at.invokedAt.Some?))
    && JobOk(j) && w.retryCount < MAX_RETRY_COUNT
    && (j.status == Processing ==> j.claimAttempt == Some(a) && j.retryCount == w.retryCount)
    && j.retryCount == s.db.jobs[id].retryCount + (if refusal then 1 else 0)
    && (refusal ==> w.phase == Finished && !w.mayArrive && RefusedRow(at))
    && (w.alive && w.phase != Finished ==>
          && StillOpen(at) && j.claimAttempt == Some(a) && InHand(j.status) && j.retryCount == w.retryCount
          && (w.phase != Calling ==> at.invokedAt.None? && at.completedAt.None? && !w.mayArrive)
          && (w.phase == Calling ==> at.invokedAt.Some?))
    && (w.mayArrive ==> (w.phase == Calling || w.phase == Finished) && at.invokedAt.Some?
                        && j.claimAttempt == Some(a) && (InHand(j.status) || j.status == Sent))
    && (a in s.delivered ==> w.mayArrive) && (w.phase == Finished ==> Concluded(at))
    && (at.invokedAt.Some? && !refusal ==>
          j.claimAttempt == Some(a) && (InHand(j.status) || j.status == Sent || j.status == Failed) && j.retryCount == w.retryCount)
  }

  /** No other execution holds the job, and every other call of it was refused. */
  lemma NoOther(s: State, refused: set<AttemptId>, a: AttemptId, id: JobId, b: AttemptId)
    requires Linked(s) && HeldOk(s, refused) && ArrivedOk(s, refused) && CallsOk(s, refused)
    requires id in s.db.jobs && MayWrite(s.db.jobs[id], a) && b != a && b in s.workers && s.workers[b].job == id
    ensures !s.workers[b].mayArrive && (s.workers[b].alive ==> s.workers[b].phase == Finished)
    ensures b in s.db.attempts && s.db.attempts[b].invokedAt.Some? ==> b in refused
  {
  }

  lemma RewriteLinked(s: State, refused: set<AttemptId>, refusal: bool, a: AttemptId, id: JobId, j: Job, at: Attempt, w: Worker)
    requires Linked(s) && RewriteOk(s, refused, refusal, a, id, j, at, w)
    ensures Linked(Touch(s, a, id, j, at, w))
  {
  }

  lemma RewriteHeld(s: State, refused: set<AttemptId>, refusal: bool, a: AttemptId, id: JobId, j: Job, at: Attempt, w: Worker)
    requires FineCore(s, refused) && RewriteOk(s, refused, refusal, a, id, j, at, w) && Linked(Touch(s, a, id, j, at, w))
    ensures HeldOk(Touch(s, a, id, j, at, w), RefusedAfter(refused, a, refusal))
  {
    var s' := Touch(s, a, id, j, at, w);
    forall b | b in s'.workers && s'.workers[b].alive && s'.workers[b].phase != Finished
      ensures Held(s', b) && b !in RefusedAfter(refused, a, refusal)
    {
      if b != a {
        assert Held(s, b) && b !in refused;
        if s.workers[b].job == id { NoOther(s, refused, a, id, b); }
      }
    }
  }

  lemma RewriteArrived(s: State, refused: set<AttemptId>, refusal: bool, a: AttemptId, id: JobId, j: Job, at: Attempt, w: Worker)
    requires FineCore(s, refused) && RewriteOk(s, refused, refusal, a, id, j, at, w)
    ensures ArrivedOk(Touch(s, a, id, j, at, w), RefusedAfter(refused, a, refusal))
  {
    forall b | b in s.workers && b != a && s.workers[b].job == id ensures !s.workers[b].mayArrive { NoOther(s, refused, a, id, b); }
  }

  lemma RewriteArrivals(s: State, refused: set<AttemptId>, refusal: bool, a: AttemptId, id: JobId, j: Job, at: Attempt, w: Worker)
    requires FineCore(s, refused) && RewriteOk(s, refused, refusal, a, id, j, at, w)
    ensures ArrivalsUnique(Touch(s, a, id, j, at, w)) && DeliveredOk(Touch(s, a, id, j, at, w))
  {
    forall b | b in s.workers && b != a && s.workers[b].job == id ensures !s.workers[b].mayArrive { NoOther(s, refused, a, id, b); }
  }

  lemma RewriteCalls(s: State, refused: set<AttemptId>, refusal: bool, a: AttemptId, id: JobId, j: Job, at: Attempt, w: Worker)
    requires FineCore(s, refused) && RewriteOk(s, refused, refusal, a, id, j, at, w) && Linked(Touch(s, a, id, j, at, w))
    ensures CallsOk(Touch(s, a, id, j, at, w), RefusedAfter(refused, a, refusal))
  {
    forall b | b in s.db.attempts && b != a && s.db.attempts[b].job == id && s.db.attempts[b].invokedAt.Some? ensures b in refused {
      NoOther(s, refused, a, id, b);
    }
  }

  lemma RewriteRows(s: State, refused: set<AttemptId>, refusal: bool, a: AttemptId, id: JobId, j: Job, at: Attempt, w: Worker)
    requires FineCore(s, refused) && RewriteOk(s, refused, refusal, a, id, j, at, w)
    ensures var s', refused' := Touch(s, a, id, j, at, w), RefusedAfter(refused, a, refusal);
            Together(s') && RefusedOk(s', refused') && ConcludedOk(s') && WorkerCounts(s')
  {
  }

  lemma RewriteJobs(s: State, refused: set<AttemptId>, refusal: bool, a: AttemptId, id: JobId, j: Job, at: Attempt, w: Worker)
    requires FineCore(s, refused) && RewriteOk(s, refused, refusal, a, id, j, at, w)
    ensures var s' := Touch(s, a, id, j, at, w); ProcessingOk(s') && JobsOk(s') && IssuedOk(s')
  {
  }

  /** Rewriting one attempt adds at most itself to the refused calls of its own job. */
  lemma RefusedAfterWrite(attempts: map<AttemptId, Attempt>, refused: set<AttemptId>, refusal: bool, a: AttemptId, at: Attempt)
    requires a !in refused && (a in attempts ==> attempts[a].job == at.job)
    ensures |RefusedOf(attempts[a := at], RefusedAfter(refused, a, refusal), at.job)| ==
            |RefusedOf(attempts, refused, at.job)| + (if refusal then 1 else 0)
    ensures forall j | j != at.job :: RefusedOf(attempts[a := at], RefusedAfter(refused, a, refusal), j) == RefusedOf(attempts, refused, j)
  {
    var before, after := RefusedOf(attempts, refused, at.job), RefusedOf(attempts[a := at], RefusedAfter(refused, a, refusal), at.job);
    assert after == if refusal then before + {a} else before;
    forall j | j != at.job
      ensures RefusedOf(attempts[a := at], RefusedAfter(refused, a, refusal), j) == RefusedOf(attempts, refused, j) {}
  }

  lemma RewriteCounted(s: State, refused: set<AttemptId>, refusal: bool, a: AttemptId, id: JobId, j: Job, at: Attempt, w: Worker)
    requires RefusalsCounted(s, refused) && id in s.db.jobs && at.job == id && a !in refused
    requires a in s.db.attempts ==> s.db.attempts[a].job == id
    requires j.retryCount == s.db.jobs[id].retryCount + (if refusal then 1 else 0)
    ensures RefusalsCounted(Touch(s, a, id, j, at, w), RefusedAfter(refused, a, refusal))
  {
    RefusedAfterWrite(s.db.attempts, refused, refusal, a, at);
    var s' := Touch(s, a, id, j, at, w);
    forall i | i in s'.db.jobs ensures |RefusedOf(s'.db.attempts, RefusedAfter(refused, a, refusal), i)| == s'.db.jobs[i].retryCount {
      assert i in s.db.jobs;
    }
  }

  /** A rewrite that is right about its own rows keeps the invariant. */
  lemma RewriteKeeps(s: State, refused: set<AttemptId>, refusal: bool, a: AttemptId, id: JobId, j: Job, at: Attempt, w: Worker)
    requires FineCore(s, refused) && RewriteOk(s, refused, refusal, a, id, j, at, w)
    ensures FineCore(Touch(s, a, id, j, at, w), RefusedAfter(refused, a, refusal))
    ensures Evolves(s, Touch(s, a, id, j, at, w))
  {
    RewriteLinked(s, refused, refusal, a, id, j, at, w);
    RewriteHeld(s, refused, refusal, a, id, j, at, w);
    RewriteArrived(s, refused, refusal, a, id, j, at, w);
    RewriteArrivals(s, refused, refusal, a, id, j, at, w);
    RewriteCalls(s, refused, refusal, a, id, j, at, w);
    RewriteRows(s, refused, refusal, a, id, j, at, w);
    RewriteJobs(s, refused, refusal, a, id, j, at, w);
    RewriteCounted(s, refused, refusal, a, id, j, at, w);
    RewriteEvolves(s, refused, refusal, a, id, j, at, w);
  }

  lemma RewriteEvolves(s: State, refused: set<AttemptId>, refusal: bool, a: AttemptId, id: JobId, j: Job, at: Attempt, w: Worker)
    requires Linked(s) && RewriteOk(s, refused, refusal, a, id, j, at, w)
    ensures Evolves(s, Touch(s, a, id, j, at, w))
  {
  }

  // ---- the steps of a worker -----------------------------------------------------------------------------

  /** The rows of a live worker that is not done. */
  lemma HeldFacts(s: State, refused: set<AttemptId>, a: AttemptId)
    requires FineCore(s, refused) && a in s.workers && s.workers[a].alive && s.workers[a].phase != Finished
    ensures var w := s.workers[a];
            && a in s.db.attempts && a !in refused && s.db.attempts[a].job == w.job && RowsFound(s.db, w.job, a, w.tenant)
            && Held(s, a) && JobOk(s.db.jobs[w.job]) && w.retryCount < MAX_RETRY_COUNT
            && s.db.jobs[w.job].claimAttempt == Some(a) && InHand(s.db.jobs[w.job].status) && s.db.jobs[w.job].retryCount == w.retryCount
  {
    assert Held(s, a);
  }

  lemma ClaimRewrites(s: State, refused: set<AttemptId>, a: AttemptId, job: JobId, tenant: TenantId, auto: bool, nowUs: Us, active: bool)
    requires FineCore(s, refused) && a !in s.workers && a !in s.db.attempts
    ensures FineCore(AfterClaim(s, a, job, tenant, auto, nowUs, active), refused)
    ensures Evolves(s, AfterClaim(s, a, job, tenant, auto, nowUs, active))
  {
    if Claims(s.db, job, tenant, auto, nowUs) {
      assert JobOk(s.db.jobs[job]);
      RewriteKeeps(s, refused, false, a, job, ClaimedRow(s.db.jobs[job], a, nowUs), NewAttempt(tenant, job),
                   Worker(job, tenant, s.db.jobs[job].retryCount, active, Holding, true, false));
    }
  }

  lemma BlockRewriteOk(s: State, refused: set<AttemptId>, a: AttemptId, reason: Reason, now: Ms)
    requires FineCore(s, refused) && Holds(s, a, Holding)
    ensures var w := s.workers[a];
            var db' := BlockJob(s.db, w.job, a, w.tenant, reason, now);
            && w.job in db'.jobs && a in db'.attempts && db' == Write(s.db, w.job, db'.jobs[w.job], a, db'.attempts[a])
            && RewriteOk(s, refused, false, a, w.job, db'.jobs[w.job], db'.attempts[a], w.(phase := Finished))
  {
    HeldFacts(s, refused, a);
  }

  lemma BlockRewrites(s: State, refused: set<AttemptId>, a: AttemptId, reason: Reason, now: Ms)
    requires FineCore(s, refused) && Holds(s, a, Holding)
    ensures var w := s.workers[a];
            var s' := s.(db := BlockJob(s.db, w.job, a, w.tenant, reason, now), workers := s.workers[a := w.(phase := Finished)]);
            FineCore(s', refused) && Evolves(s, s')
  {
    BlockRewriteOk(s, refused, a, reason, now);
    var w := s.workers[a];
    var db' := BlockJob(s.db, w.job, a, w.tenant, reason, now);
    RewriteKeeps(s, refused, false, a, w.job, db'.jobs[w.job], db'.attempts[a], w.(phase := Finished));
  }

  lemma ClearRewrites(s: State, refused: set<AttemptId>, a: AttemptId)
    requires FineCore(s, refused) && Holds(s, a, Holding)
    ensures var s' := s.(workers := s.workers[a := s.workers[a].(phase := Cleared)]); FineCore(s', refused) && Evolves(s, s')
  {
    HeldFacts(s, refused, a);
    var w := s.workers[a];
    assert s.db.jobs == s.db.jobs[w.job := s.db.jobs[w.job]];
    assert s.db.attempts == s.db.attempts[a := s.db.attempts[a]];
    RewriteKeeps(s, refused, false, a, w.job, s.db.jobs[w.job], s.db.attempts[a], w.(phase := Cleared));
  }

  lemma GateRewrites(s: State, refused: set<AttemptId>, a: AttemptId, canSend: bool, now: Ms)
    requires FineCore(s, refused) && Holds(s, a, Holding)
    ensures FineCore(AfterGate(s, a, canSend, now), refused) && Evolves(s, AfterGate(s, a, canSend, now))
  {
    if !canSend || !s.workers[a].resourceActive {
      BlockRewrites(s, refused, a, if canSend then ResourceNotSendable else SubscriptionNotSendable, now);
    } else {
      ClearRewrites(s, refused, a);
    }
  }

  lemma InvokeRewrites(s: State, refused: set<AttemptId>, a: AttemptId, now: Ms, rfc: bool)
    requires FineCore(s, refused) && Holds(s, a, Cleared)
    ensures var w := s.workers[a];
            var s' := s.(db := MarkInvoked(s.db, a, w.tenant, now, rfc),
                         workers := s.workers[a := w.(phase := Calling, mayArrive := true)]);
            FineCore(s', refused) && Evolves(s, s')
  {
    HeldFacts(s, refused, a);
    var w := s.workers[a];
    var db' := MarkInvoked(s.db, a, w.tenant, now, rfc);
    assert db'.jobs == s.db.jobs[w.job := s.db.jobs[w.job]];
    RewriteKeeps(s, refused, false, a, w.job, s.db.jobs[w.job], db'.attempts[a], w.(phase := Calling, mayArrive := true));
  }

  lemma DeferRewrites(s: State, refused: set<AttemptId>, a: AttemptId, scheduledAt: Ms, now: Ms)
    requires FineCore(s, refused) && Holds(s, a, Cleared)
    ensures var w := s.workers[a];
            var s' := s.(db := DeferJob(s.db, w.job, a, w.tenant, scheduledAt, now), workers := s.workers[a := w.(phase := Finished)]);
            FineCore(s', refused) && Evolves(s, s')
  {
    HeldFacts(s, refused, a);
    var w := s.workers[a];
    var db' := DeferJob(s.db, w.job, a, w.tenant, scheduledAt, now);
    RewriteKeeps(s, refused, false, a, w.job, db'.jobs[w.job], db'.attempts[a], w.(phase := Finished));
  }

  /** The log of admissions is not read. */
  lemma LogIsUnread(s: State, t: State, refused: set<AttemptId>, log: seq<Ms>)
    requires FineCore(t, refused) && Evolves(s, t)
    ensures FineCore(t.(admitted := log), refused) && Evolves(s, t.(admitted := log))
  {
    var s' := t.(admitted := log);
    assert Linked(s');
    forall a | a in s'.workers && s'.workers[a].alive && s'.workers[a].phase != Finished ensures Held(s', a) && a !in refused {
      assert Held(t, a);
    }
  }

  lemma ReserveRewritesFine(s: State, refused: set<AttemptId>, a: AttemptId, nowUs: Us)
    requires FineCore(s, refused) && Holds(s, a, Cleared)
    ensures FineCore(AfterReserve(s, a, nowUs), refused) && Evolves(s, AfterReserve(s, a, nowUs))
  {
    var w := s.workers[a];
    match Decision(s.db.attempts, nowUs)
    case Admit =>
      InvokeRewrites(s, refused, a, TruncMs(nowUs), true);
      LogIsUnread(s, s.(db := MarkInvoked(s.db, a, w.tenant, TruncMs(nowUs), true),
                        workers := s.workers[a := w.(phase := Calling, mayArrive := true)]), refused, s.admitted + [TruncMs(nowUs)]);
    case Defer(scheduledAt) => DeferRewrites(s, refused, a, scheduledAt, TruncMs(nowUs));
  }

  /** The rows of an answered call. */
  lemma VerdictTouches(s: State, a: AttemptId, result: SendResult, now: Ms)
    requires a in s.workers && RowsFound(s.db, s.workers[a].job, a, s.workers[a].tenant)
    ensures var w, s' := s.workers[a], AfterVerdict(s, a, result, now);
            && w.job in s'.db.jobs && a in s'.db.attempts && a in s'.workers
            && s' == Touch(s, a, w.job, s'.db.jobs[w.job], s'.db.attempts[a], s'.workers[a])
  {
  }

  function Answered(w: Worker, v: Verdict): Worker {
    w.(phase := Finished, mayArrive := v.Delivered? || v.Doubtful?)
  }

  /** The call's two rows are its worker's; JobOk, so that no constraint is lost. */
  ghost predicate CallRows(s: State, refused: set<AttemptId>, a: AttemptId)
    requires Linked(s)
  {
    && Holds(s, a, Calling) && a !in refused && Held(s, a) && s.db.attempts[a].job == s.workers[a].job
    && RowsFound(s.db, s.workers[a].job, a, s.workers[a].tenant)
    && JobOk(s.db.jobs[s.workers[a].job]) && s.workers[a].retryCount < MAX_RETRY_COUNT
  }

  lemma RefusalRewriteOk(s: State, refused: set<AttemptId>, a: AttemptId, reason: Reason, now: Ms)
    requires Linked(s) && CallRows(s, refused, a) && a !in s.delivered
    ensures var w := s.workers[a];
            var db' := RecordVerdict(s.db, w.job, a, w.tenant, w.retryCount, Retry(reason), now);
            RewriteOk(s, refused, true, a, w.job, db'.jobs[w.job], db'.attempts[a], Answered(w, Retry(reason)))
  {
  }

  lemma DeliveredRewriteOk(s: State, refused: set<AttemptId>, a: AttemptId, now: Ms)
    requires Linked(s) && CallRows(s, refused, a)
    ensures var w := s.workers[a];
            var db' := RecordVerdict(s.db, w.job, a, w.tenant, w.retryCount, Delivered, now);
            RewriteOk(s, refused, false, a, w.job, db'.jobs[w.job], db'.attempts[a], Answered(w, Delivered))
  {
  }

  lemma RejectRewriteOk(s: State, refused: set<AttemptId>, a: AttemptId, reason: Reason, now: Ms)
    requires Linked(s) && CallRows(s, refused, a) && a !in s.delivered
    ensures var w := s.workers[a];
            var db' := RecordVerdict(s.db, w.job, a, w.tenant, w.retryCount, Reject(reason), now);
            RewriteOk(s, refused, false, a, w.job, db'.jobs[w.job], db'.attempts[a], Answered(w, Reject(reason)))
  {
  }

  lemma DoubtfulRewriteOk(s: State, refused: set<AttemptId>, a: AttemptId, now: Ms)
    requires Linked(s) && CallRows(s, refused, a)
    ensures var w := s.workers[a];
            var db' := RecordVerdict(s.db, w.job, a, w.tenant, w.retryCount, Doubtful, now);
            RewriteOk(s, refused, false, a, w.job, db'.jobs[w.job], db'.attempts[a], Answered(w, Doubtful))
  {
  }

  lemma VerdictRewriteOk(s: State, refused: set<AttemptId>, a: AttemptId, v: Verdict, now: Ms)
    requires Linked(s) && CallRows(s, refused, a) && HonestAnswer(s, a, v)
    ensures var w := s.workers[a];
            var db' := RecordVerdict(s.db, w.job, a, w.tenant, w.retryCount, v, now);
            && w.job in db'.jobs && a in db'.attempts
            && RewriteOk(s, refused, v.Retry?, a, w.job, db'.jobs[w.job], db'.attempts[a], Answered(w, v))
  {
    match v {
      case Retry(reason) => RefusalRewriteOk(s, refused, a, reason, now);
      case Delivered => DeliveredRewriteOk(s, refused, a, now);
      case Reject(reason) => RejectRewriteOk(s, refused, a, reason, now);
      case Doubtful => DoubtfulRewriteOk(s, refused, a, now);
    }
  }

  lemma VerdictRewritesFine(s: State, refused: set<AttemptId>, a: AttemptId, result: SendResult, now: Ms)
    requires FineCore(s, refused) && Holds(s, a, Calling) && HonestAnswer(s, a, Judge(s.kind, result))
    ensures FineCore(AfterVerdict(s, a, result, now), RefusedAfter(refused, a, Judge(s.kind, result).Retry?))
    ensures Evolves(s, AfterVerdict(s, a, result, now))
  {
    var w, s', v := s.workers[a], AfterVerdict(s, a, result, now), Judge(s.kind, result);
    HeldFacts(s, refused, a);
    VerdictTouches(s, a, result, now);
    VerdictRewriteOk(s, refused, a, v, now);
    RewriteKeeps(s, refused, v.Retry?, a, w.job, s'.db.jobs[w.job], s'.db.attempts[a], Answered(w, v));
  }

  // ---- process events ------------------------------------------------------------------------------------

  lemma ArriveKeepsFine(s: State, refused: set<AttemptId>, a: AttemptId)
    requires FineCore(s, refused) && a in s.workers && s.workers[a].mayArrive
    ensures FineCore(s.(delivered := s.delivered + {a}), refused)
  {
    var s' := s.(delivered := s.delivered + {a});
    assert Linked(s');
    forall b | b in s'.workers && s'.workers[b].alive && s'.workers[b].phase != Finished ensures Held(s', b) && b !in refused {
      assert Held(s, b);
    }
  }

  lemma CrashKeepsFine(s: State, refused: set<AttemptId>, a: AttemptId)
    requires FineCore(s, refused) && a in s.workers
    ensures var s' := s.(workers := s.workers[a := s.workers[a].(alive := false)]);
            FineCore(s', refused) && Evolves(s, s')
  {
    var s' := s.(workers := s.workers[a := s.workers[a].(alive := false)]);
    forall b | b in s'.workers
      ensures SameExecution(s.workers[b], s'.workers[b]) && s'.workers[b].mayArrive == s.workers[b].mayArrive
      ensures s'.workers[b].phase == s.workers[b].phase && (s'.workers[b].alive ==> s.workers[b].alive) {}
    assert Linked(s');
    assert HeldOk(s', refused) by {
      forall b | b in s'.workers && s'.workers[b].alive && s'.workers[b].phase != Finished ensures Held(s', b) && b !in refused {
        assert Held(s, b);
      }
    }
    assert ProcessingOk(s') && CallsOk(s', refused) && RefusedOk(s', refused) && ConcludedOk(s');
    assert ArrivedOk(s', refused) && ArrivalsUnique(s');
  }

  lemma ListKeepsFine(s: State, refused: set<AttemptId>, rows: set<StaleRow>, staleBefore: Ms)
    requires FineCore(s, refused) && Enabled(s, ListStaleStep(rows, staleBefore))
    ensures FineCore(s.(stale := s.stale + rows), refused)
    ensures forall r | r in rows :: RowOk(s.(stale := s.stale + rows), r)
  {
    var s' := s.(stale := s.stale + rows);
    assert Linked(s');
    forall b | b in s'.workers && s'.workers[b].alive && s'.workers[b].phase != Finished ensures Held(s', b) && b !in refused {
      assert Held(s, b);
    }
    forall r | r in rows ensures RowOk(s', r) { ListedRowOk(s, refused, r, staleBefore); }
  }

  lemma ListedRowOk(s: State, refused: set<AttemptId>, r: StaleRow, staleBefore: Ms)
    requires FineCore(s, refused) && r.job in s.db.jobs
    requires IsStale(s.db.jobs[r.job], staleBefore) && r == StaleRowOf(r.job, s.db.jobs[r.job])
    ensures RowOk(s, r)
  {
    var c := s.db.jobs[r.job].claimAttempt.value;
    assert JobOk(s.db.jobs[r.job]);
    TenantOfClaim(s, refused, r.job);
  }

  lemma TenantOfClaim(s: State, refused: set<AttemptId>, job: JobId)
    requires FineCore(s, refused) && job in s.db.jobs && s.db.jobs[job].status == Processing
    ensures s.db.jobs[job].claimAttempt.Some? && s.db.jobs[job].claimAttempt.value in s.workers
    ensures s.workers[s.db.jobs[job].claimAttempt.value].tenant == s.db.jobs[job].tenant
  {
  }

  // ---- steps on jobs that nobody holds -------------------------------------------------------------------

  lemma QueueLeftCore(s: State, refused: set<AttemptId>, db': Db)
    requires FineCore(s, refused) && QueueLeft(s.db, db')
    ensures Linked(s.(db := db')) && Together(s.(db := db')) && ArrivedOk(s.(db := db'), refused)
  {
  }

  lemma QueueLeftCalls(s: State, refused: set<AttemptId>, db': Db)
    requires FineCore(s, refused) && QueueLeft(s.db, db') && Linked(s.(db := db'))
    ensures ProcessingOk(s.(db := db')) && CallsOk(s.(db := db'), refused)
  {
  }

  lemma QueueLeftHeld(s: State, refused: set<AttemptId>, db': Db)
    requires FineCore(s, refused) && QueueLeft(s.db, db') && Linked(s.(db := db'))
    ensures HeldOk(s.(db := db'), refused)
  {
    var s' := s.(db := db');
    forall b | b in s'.workers && s'.workers[b].alive && s'.workers[b].phase != Finished ensures Held(s', b) && b !in refused {
      assert Held(s, b);
    }
  }

  lemma QueueLeftRows(s: State, refused: set<AttemptId>, db': Db)
    requires FineCore(s, refused) && QueueLeft(s.db, db')
    ensures RefusedOk(s.(db := db'), refused) && ConcludedOk(s.(db := db')) && RefusalsCounted(s.(db := db'), refused)
    ensures JobsOk(s.(db := db')) && IssuedOk(s.(db := db'))
    ensures Evolves(s, s.(db := db'))
  {
    forall j | j in db'.jobs ensures JobOk(db'.jobs[j]) { assert JobOk(s.db.jobs[j]); }
  }

  lemma QueueLeftKeeps(s: State, refused: set<AttemptId>, db': Db)
    requires FineCore(s, refused) && QueueLeft(s.db, db')
    ensures FineCore(s.(db := db'), refused) && Evolves(s, s.(db := db'))
  {
    QueueLeftCore(s, refused, db');
    QueueLeftCalls(s, refused, db');
    QueueLeftHeld(s, refused, db');
    QueueLeftRows(s, refused, db');
  }

  lemma InsertedCore(s: State, refused: set<AttemptId>, db': Db, id: JobId, j: Job)
    requires FineCore(s, refused) && Inserted(s, db', id, j)
    ensures var s' := s.(db := db', issued := s.issued + {id});
            Linked(s') && Together(s') && ArrivedOk(s', refused) && ProcessingOk(s') && CallsOk(s', refused)
  {
  }

  lemma InsertedHeld(s: State, refused: set<AttemptId>, db': Db, id: JobId, j: Job)
    requires FineCore(s, refused) && Inserted(s, db', id, j) && Linked(s.(db := db', issued := s.issued + {id}))
    ensures HeldOk(s.(db := db', issued := s.issued + {id}), refused)
  {
    var s' := s.(db := db', issued := s.issued + {id});
    forall b | b in s'.workers && s'.workers[b].alive && s'.workers[b].phase != Finished ensures Held(s', b) && b !in refused {
      assert Held(s, b);
    }
  }

  lemma InsertedRows(s: State, refused: set<AttemptId>, db': Db, id: JobId, j: Job)
    requires FineCore(s, refused) && Inserted(s, db', id, j)
    ensures var s' := s.(db := db', issued := s.issued + {id});
            RefusedOk(s', refused) && ConcludedOk(s') && RefusalsCounted(s', refused) && JobsOk(s') && IssuedOk(s')
            && Evolves(s, s')
  {
    assert RefusedOf(s.db.attempts, refused, id) == {} by {
      forall b | b in s.db.attempts ensures s.db.attempts[b].job != id { assert s.workers[b].job in s.issued; }
    }
  }

  lemma InsertedKeeps(s: State, refused: set<AttemptId>, db': Db, id: JobId, j: Job)
    requires FineCore(s, refused) && Inserted(s, db', id, j)
    ensures var s' := s.(db := db', issued := s.issued + {id}); FineCore(s', refused) && Evolves(s, s')
  {
    InsertedCore(s, refused, db', id, j);
    InsertedHeld(s, refused, db', id, j);
    InsertedRows(s, refused, db', id, j);
  }

  /** Issuing an identifier that no row uses changes nothing. */
  lemma IssuedKeeps(s: State, refused: set<AttemptId>, id: JobId)
    requires FineCore(s, refused) && id !in s.issued
    ensures var s' := s.(issued := s.issued + {id}); FineCore(s', refused) && Evolves(s, s')
  {
    var s' := s.(issued := s.issued + {id});
    assert Linked(s');
    forall b | b in s'.workers && s'.workers[b].alive && s'.workers[b].phase != Finished ensures Held(s', b) && b !in refused {
      assert Held(s, b);
    }
  }

  lemma EvolvesFromSameRows(s: State, t: State, t': State)
    requires Evolves(s, t) && t'.db == t.db && t'.workers == t.workers
    ensures Evolves(s, t')
  {
  }

  lemma ScanKeepsFine(s: State, refused: set<AttemptId>, r: ScanRequest, nowUs: Us, scan: ScanId, job: JobId)
    requires FineCore(s, refused) && FreshJob(s, job)
    ensures var s' := s.(db := CreateScan(s.db, r, nowUs, scan, job).db, issued := s.issued + {job});
            FineCore(s', refused) && Evolves(s, s')
  {
    IntakeWrites(s.db, r, nowUs, scan, job);
    var i := CreateScan(s.db, r, nowUs, scan, job);
    if i.outcome.Created? {
      assert JobOk(NewJob(r, scan, nowUs));
      InsertedKeeps(s, refused, i.db, job, NewJob(r, scan, nowUs));
    } else {
      QueueLeftKeeps(s, refused, i.db);
      IssuedKeeps(s.(db := i.db), refused, job);
      EvolvesFromSameRows(s, s.(db := i.db), s.(db := i.db, issued := s.issued + {job}));
    }
  }

  // ---- deletion ------------------------------------------------------------------------------------------

  lemma DropCore(s: State, refused: set<AttemptId>, db': Db)
    requires FineCore(s, refused) && DropsQuietJobs(s.db, db')
    ensures Linked(s.(db := db')) && Together(s.(db := db'))
    ensures ArrivedOk(s.(db := db'), refused) && ProcessingOk(s.(db := db')) && CallsOk(s.(db := db'), refused)
  {
  }

  /** An attempt whose worker is not done is in flight, so its job stays. */
  lemma DropHeld(s: State, refused: set<AttemptId>, db': Db)
    requires FineCore(s, refused) && DropsQuietJobs(s.db, db') && Linked(s.(db := db'))
    ensures HeldOk(s.(db := db'), refused)
  {
    var s' := s.(db := db');
    forall b | b in s'.workers && s'.workers[b].alive && s'.workers[b].phase != Finished ensures Held(s', b) && b !in refused {
      assert Held(s, b) && InFlight(s.db.attempts[b]);
    }
  }

  lemma DropRowsFine(s: State, refused: set<AttemptId>, db': Db)
    requires FineCore(s, refused) && DropsQuietJobs(s.db, db')
    ensures RefusedOk(s.(db := db'), refused) && ConcludedOk(s.(db := db')) && RefusalsCounted(s.(db := db'), refused)
    ensures JobsOk(s.(db := db')) && IssuedOk(s.(db := db'))
    ensures Evolves(s, s.(db := db'))
  {
    forall j | j in db'.jobs ensures |RefusedOf(db'.attempts, refused, j)| == db'.jobs[j].retryCount {
      assert RefusedOf(db'.attempts, refused, j) == RefusedOf(s.db.attempts, refused, j);
    }
  }

  lemma DropKeepsFine(s: State, refused: set<AttemptId>, db': Db)
    requires FineCore(s, refused) && DropsQuietJobs(s.db, db')
    ensures FineCore(s.(db := db'), refused) && Evolves(s, s.(db := db'))
  {
    DropCore(s, refused, db');
    DropHeld(s, refused, db');
    DropRowsFine(s, refused, db');
  }

  lemma FamilyPurgeIsQuiet(s: State, addYear: Calendar, tenant: TenantId, scan: ScanId, nowUs: Us)
    requires Linked(s) && PurgeFamily(addYear, s.db, tenant, scan, nowUs).outcome == Deleted
    ensures DropsQuietJobs(s.db, DropFamily(s.db, tenant, scan))
  {
    var db, db' := s.db, DropFamily(s.db, tenant, scan);
    assert db'.jobs == map j | j in db.jobs && !(db.jobs[j].tenant == tenant && db.jobs[j].scan == scan) :: db.jobs[j];
    forall a | a in db.attempts ensures a in db'.attempts <==> db.attempts[a].job in db'.jobs {
      assert db.jobs[db.attempts[a].job].tenant == db.attempts[a].tenant;
    }
    forall a | a in db.attempts && db.attempts[a].job !in db'.jobs ensures !InFlight(db.attempts[a]) {
      assert db.jobs[db.attempts[a].job].scan == scan;
    }
  }

  lemma FamilyPurgeKeepsFine(s: State, refused: set<AttemptId>, addYear: Calendar, tenant: TenantId, scan: ScanId, nowUs: Us)
    requires FineCore(s, refused)
    ensures var s' := s.(db := PurgeFamily(addYear, s.db, tenant, scan, nowUs).db); FineCore(s', refused) && Evolves(s, s')
  {
    var p := PurgeFamily(addYear, s.db, tenant, scan, nowUs);
    if p.outcome == Deleted {
      FamilyPurgeIsQuiet(s, addYear, tenant, scan, nowUs);
      DropKeepsFine(s, refused, p.db);
    } else {
      QueueLeftKeeps(s, refused, p.db);
    }
  }

  lemma TenantPurgeIsQuiet(s: State, tenant: TenantId)
    requires Linked(s) && !TenantMailInFlight(s.db, tenant)
    ensures DropsQuietJobs(s.db, DropTenant(s.db, tenant))
  {
    forall a | a in s.db.attempts && s.db.attempts[a].job !in DropTenant(s.db, tenant).jobs ensures !InFlight(s.db.attempts[a]) {
      assert s.db.jobs[s.db.attempts[a].job].tenant == tenant;
    }
  }

  lemma TenantPurgeKeepsFine(s: State, refused: set<AttemptId>, tenant: TenantId, due: bool)
    requires FineCore(s, refused)
    ensures var s' := s.(db := PurgeTenant(s.db, tenant, due)); FineCore(s', refused) && Evolves(s, s')
  {
    var db' := PurgeTenant(s.db, tenant, due);
    if db' == s.db {
      QueueLeftKeeps(s, refused, db');
    } else {
      TenantPurgeIsQuiet(s, tenant);
      DropKeepsFine(s, refused, db');
    }
  }

  // ---- the statements of recovery ------------------------------------------------------------------------

  /** The job is written off or, if its claim is a dead worker's uninvoked one, given back. */
  ghost predicate JobRecovered(s: State, id: JobId, j: Job) {
    && id in s.db.jobs && s.db.jobs[id].status == Processing && JobOk(j)
    && j.tenant == s.db.jobs[id].tenant && j.sendNotBefore == s.db.jobs[id].sendNotBefore && j.retryCount == s.db.jobs[id].retryCount
    && (|| (j.status == DeliveryUnknown && j.claimAttempt == s.db.jobs[id].claimAttempt)
        || ((j.status == Waiting || j.status == Queued) && s.db.jobs[id].claimAttempt.Some?
            && var c := s.db.jobs[id].claimAttempt.value;
            c in s.workers && !s.workers[c].alive && !s.workers[c].mayArrive && (c in s.db.attempts ==> s.db.attempts[c].invokedAt.None?)))
  }

  function WithJob(s: State, id: JobId, j: Job): State {
    s.(db := s.db.(jobs := s.db.jobs[id := j]))
  }

  lemma JobRecoveredLinks(s: State, refused: set<AttemptId>, id: JobId, j: Job)
    requires FineCore(s, refused) && JobRecovered(s, id, j)
    ensures var s' := WithJob(s, id, j); Linked(s') && Together(s') && ArrivedOk(s', refused)
  {
  }

  lemma JobRecoveredCalls(s: State, refused: set<AttemptId>, id: JobId, j: Job)
    requires FineCore(s, refused) && JobRecovered(s, id, j) && Linked(WithJob(s, id, j))
    ensures CallsOk(WithJob(s, id, j), refused)
  {
  }

  lemma JobRecoveredHeld(s: State, refused: set<AttemptId>, id: JobId, j: Job)
    requires FineCore(s, refused) && JobRecovered(s, id, j) && Linked(WithJob(s, id, j))
    ensures HeldOk(WithJob(s, id, j), refused)
  {
    var s' := WithJob(s, id, j);
    forall b | b in s'.workers && s'.workers[b].alive && s'.workers[b].phase != Finished ensures Held(s', b) && b !in refused {
      assert Held(s, b);
    }
  }

  lemma JobRecoveredRows(s: State, refused: set<AttemptId>, id: JobId, j: Job)
    requires FineCore(s, refused) && JobRecovered(s, id, j)
    ensures var s' := WithJob(s, id, j);
            && ProcessingOk(s') && RefusedOk(s', refused) && ConcludedOk(s') && RefusalsCounted(s', refused) && JobsOk(s') && IssuedOk(s')
            && Evolves(s, s')
  {
  }

  lemma JobRecoveredKeeps(s: State, refused: set<AttemptId>, id: JobId, j: Job)
    requires FineCore(s, refused) && JobRecovered(s, id, j)
    ensures FineCore(WithJob(s, id, j), refused) && Evolves(s, WithJob(s, id, j))
  {
    JobRecoveredLinks(s, refused, id, j);
    JobRecoveredCalls(s, refused, id, j);
    JobRecoveredHeld(s, refused, id, j);
    JobRecoveredRows(s, refused, id, j);
  }

  lemma WriteOffIsRecovery(s: State, refused: set<AttemptId>, id: JobId)
    requires FineCore(s, refused) && id in s.db.jobs && s.db.jobs[id].status == Processing
    ensures JobRecovered(s, id, s.db.jobs[id].(status := DeliveryUnknown, error := Some(ProviderOutcomeUnknown)))
  {
    assert JobOk(s.db.jobs[id]);
    TenantOfClaim(s, refused, id);
  }

  lemma GiveBackIsRecovery(s: State, refused: set<AttemptId>, p: Plan)
    requires FineCore(s, refused) && PlanOk(s, p) && !p.unknown && StillProcessing(s.db, p.row)
    requires s.db.jobs[p.row.job].claimAttempt == p.row.claim && ChecksHold(Unclaimed(s.db.jobs[p.row.job], p.row))
    ensures JobRecovered(s, p.row.job, Unclaimed(s.db.jobs[p.row.job], p.row))
  {
    assert JobOk(s.db.jobs[p.row.job]);
  }

  lemma JobStatementKeeps(s: State, refused: set<AttemptId>, p: Plan)
    requires FineCore(s, refused) && PlanOk(s, p) && JobStatement(s.db, p.row, p.unknown).Some?
    ensures var s' := s.(db := JobStatement(s.db, p.row, p.unknown).value); FineCore(s', refused) && Evolves(s, s')
  {
    if !StillProcessing(s.db, p.row) || (!p.unknown && s.db.jobs[p.row.job].claimAttempt != p.row.claim) {
      QueueLeftKeeps(s, refused, s.db);
    } else if p.unknown {
      WriteOffIsRecovery(s, refused, p.row.job);
      JobRecoveredKeeps(s, refused, p.row.job, s.db.jobs[p.row.job].(status := DeliveryUnknown, error := Some(ProviderOutcomeUnknown)));
    } else {
      GiveBackIsRecovery(s, refused, p);
      JobRecoveredKeeps(s, refused, p.row.job, Unclaimed(s.db.jobs[p.row.job], p.row));
    }
  }

  function WithAttempt(s: State, a: AttemptId, at: Attempt): State {
    s.(db := s.db.(attempts := s.db.attempts[a := at]))
  }

  /** The attempt keeps its job, its call and its closing time, and stays open unless its worker is dead. */
  ghost predicate AttemptRecovered(s: State, a: AttemptId, at: Attempt) {
    && a in s.db.attempts && a in s.workers && at.job == s.db.attempts[a].job && at.tenant == s.db.attempts[a].tenant
    && at.invokedAt == s.db.attempts[a].invokedAt && at.closedAt == s.db.attempts[a].closedAt
    && (s.workers[a].alive ==> at.invokedAt.Some? && at.status == OutcomeUnknown)
    && (at.status == OutcomeUnknown <==> at.invokedAt.Some?) && at.completedAt.Some?
  }

  lemma AttemptRecoveredHeld(s: State, refused: set<AttemptId>, a: AttemptId, at: Attempt)
    requires FineCore(s, refused) && AttemptRecovered(s, a, at)
    ensures Linked(WithAttempt(s, a, at)) && HeldOk(WithAttempt(s, a, at), refused)
  {
    var s' := WithAttempt(s, a, at);
    assert Linked(s');
    forall b | b in s'.workers && s'.workers[b].alive && s'.workers[b].phase != Finished ensures Held(s', b) && b !in refused {
      assert Held(s, b);
    }
  }

  lemma AttemptRecoveredCalls(s: State, refused: set<AttemptId>, a: AttemptId, at: Attempt)
    requires FineCore(s, refused) && AttemptRecovered(s, a, at) && Linked(WithAttempt(s, a, at))
    ensures var s' := WithAttempt(s, a, at); ArrivedOk(s', refused) && CallsOk(s', refused) && RefusedOk(s', refused)
  {
  }

  lemma AttemptRecoveredRows(s: State, refused: set<AttemptId>, a: AttemptId, at: Attempt)
    requires FineCore(s, refused) && AttemptRecovered(s, a, at) && Linked(WithAttempt(s, a, at))
    ensures var s' := WithAttempt(s, a, at); Together(s') && ProcessingOk(s') && ConcludedOk(s') && JobsOk(s') && IssuedOk(s')
  {
  }

  lemma AttemptRecoveredEvolves(s: State, a: AttemptId, at: Attempt)
    requires AttemptRecovered(s, a, at)
    ensures Evolves(s, WithAttempt(s, a, at))
  {
  }

  lemma AttemptRecoveredCounts(s: State, refused: set<AttemptId>, a: AttemptId, at: Attempt)
    requires RefusalsCounted(s, refused) && AttemptRecovered(s, a, at)
    ensures RefusalsCounted(WithAttempt(s, a, at), refused)
  {
    forall j ensures RefusedOf(s.db.attempts[a := at], refused, j) == RefusedOf(s.db.attempts, refused, j) {}
  }

  lemma AttemptStatementKeeps(s: State, refused: set<AttemptId>, p: Plan, now: Ms)
    requires FineCore(s, refused) && PlanOk(s, p) && AttemptStatement(s.db, p.row, p.unknown, now).Some?
    ensures var s' := s.(db := AttemptStatement(s.db, p.row, p.unknown, now).value); FineCore(s', refused) && Evolves(s, s')
  {
    var a := p.row.claim.value;
    var at := RecoveredAttempt(s.db.attempts[a], p.unknown, now);
    assert AttemptRecovered(s, a, at);
    AttemptRecoveredHeld(s, refused, a, at);
    AttemptRecoveredCalls(s, refused, a, at);
    AttemptRecoveredRows(s, refused, a, at);
    AttemptRecoveredEvolves(s, a, at);
    AttemptRecoveredCounts(s, refused, a, at);
  }

  // ---- every step ----------------------------------------------------------------------------------------

  lemma ClaimStepKeepsFine(s: State, refused: set<AttemptId>, step: Step)
    requires FineCore(s, refused) && Enabled(s, step) && step.ClaimStep?
    ensures FineCore(Apply(s, step), refused) && Evolves(s, Apply(s, step)) && Apply(s, step).stale == s.stale
  {
    ClaimRewrites(s, refused, step.attempt, step.job, step.tenant, step.auto, step.nowUs, step.active);
  }

  lemma GateStepKeepsFine(s: State, refused: set<AttemptId>, step: Step)
    requires FineCore(s, refused) && Enabled(s, step) && step.GateStep?
    ensures FineCore(Apply(s, step), refused) && Evolves(s, Apply(s, step)) && Apply(s, step).stale == s.stale
  {
    GateRewrites(s, refused, step.attempt, step.canSend, step.now);
  }

  lemma CallStepKeepsFine(s: State, refused: set<AttemptId>, step: Step)
    requires FineCore(s, refused) && Enabled(s, step) && (step.ReserveStep? || step.SandboxStep?)
    ensures FineCore(Apply(s, step), refused) && Evolves(s, Apply(s, step)) && Apply(s, step).stale == s.stale
  {
    match step
    case ReserveStep(a, nowUs) => ReserveRewritesFine(s, refused, a, nowUs);
    case SandboxStep(a, now) => InvokeRewrites(s, refused, a, now, false);
  }

  lemma WorkerStepKeepsFine(s: State, refused: set<AttemptId>, step: Step)
    requires FineCore(s, refused) && Enabled(s, step) && (step.ClaimStep? || WorkerStep(step))
    ensures FineCore(Apply(s, step), if Refusal(s, step) then refused + {step.attempt} else refused)
    ensures Evolves(s, Apply(s, step)) && Apply(s, step).stale == s.stale
  {
    if step.VerdictStep? {
      VerdictRewritesFine(s, refused, step.attempt, step.result, step.now);
    } else if step.ReserveStep? || step.SandboxStep? {
      CallStepKeepsFine(s, refused, step);
    } else if step.GateStep? {
      GateStepKeepsFine(s, refused, step);
    } else {
      ClaimStepKeepsFine(s, refused, step);
    }
  }

  lemma QueueStepLeavesQueue(s: State, step: Step)
    requires Enabled(s, step) && JobsOk(s) && (step.CancelStep? || step.FailQueuedStep? || step.TenantStep?)
    ensures QueueLeft(s.db, Apply(s, step).db) && Apply(s, step) == s.(db := Apply(s, step).db)
  {
    match step
    case CancelStep(scan, job, nowUs) =>
    case FailQueuedStep(tenant, location, reason) =>
    case TenantStep(tenant, status) =>
  }

  lemma QueueStepKeepsFine(s: State, refused: set<AttemptId>, step: Step)
    requires FineCore(s, refused) && Enabled(s, step) && (step.CancelStep? || step.FailQueuedStep? || step.TenantStep?)
    ensures FineCore(Apply(s, step), refused) && Evolves(s, Apply(s, step)) && Apply(s, step).stale == s.stale
  {
    QueueStepLeavesQueue(s, step);
    QueueLeftKeeps(s, refused, Apply(s, step).db);
  }

  lemma TableStepKeepsFine(s: State, refused: set<AttemptId>, step: Step)
    requires FineCore(s, refused) && Enabled(s, step)
    requires !step.ClaimStep? && !WorkerStep(step) && !ProcessEvent(step) && !step.RecoverStep?
    ensures FineCore(Apply(s, step), refused) && Evolves(s, Apply(s, step)) && Apply(s, step).stale == s.stale
  {
    if step.CancelStep? || step.FailQueuedStep? || step.TenantStep? {
      QueueStepKeepsFine(s, refused, step);
    } else {
      match step
      case ScanStep(r, nowUs, scan, job) => ScanKeepsFine(s, refused, r, nowUs, scan, job);
      case PurgeFamilyStep(tenant, scan, addYear, nowUs) => FamilyPurgeKeepsFine(s, refused, addYear, tenant, scan, nowUs);
      case PurgeTenantStep(tenant, due) => TenantPurgeKeepsFine(s, refused, tenant, due);
    }
  }

  lemma ListStepKeepsRows(s: State, refused: set<AttemptId>, rows: set<StaleRow>, staleBefore: Ms, plans: map<PlanId, Plan>)
    requires FineCore(s, refused) && Enabled(s, ListStaleStep(rows, staleBefore)) && Rows(s, plans)
    ensures Rows(s.(stale := s.stale + rows), plans)
  {
    var s' := s.(stale := s.stale + rows);
    forall r | r in s'.stale ensures RowOk(s', r) {
      if r in rows { ListedRowOk(s, refused, r, staleBefore); }
      assert RowOk(s, r);
    }
    forall i | i in plans ensures PlanOk(s', plans[i]) { assert PlanOk(s, plans[i]); }
  }

  lemma EventKeepsFine(s: State, refused: set<AttemptId>, step: Step, plans: map<PlanId, Plan>)
    requires FineCore(s, refused) && Enabled(s, step) && ProcessEvent(step) && Rows(s, plans)
    ensures FineCore(Apply(s, step), refused) && Rows(Apply(s, step), plans)
  {
    match step
    case ArriveStep(a) =>
      ArriveKeepsFine(s, refused, a);
      RowsStay(s, Apply(s, step), plans);
    case CrashStep(a) =>
      CrashKeepsFine(s, refused, a);
      RowsStay(s, Apply(s, step), plans);
    case ListStaleStep(rows, staleBefore) =>
      ListKeepsFine(s, refused, rows, staleBefore);
      ListStepKeepsRows(s, refused, rows, staleBefore, plans);
  }

  lemma OtherKeepsFine(f: FineState, step: Step)
    requires FineInv(f) && FineEnabled(f, Other(step))
    ensures FineInv(FineApply(f, Other(step)))
  {
    if ProcessEvent(step) {
      EventKeepsFine(f.base, f.refused, step, f.plans);
    } else {
      if step.ClaimStep? || WorkerStep(step) {
        WorkerStepKeepsFine(f.base, f.refused, step);
      } else {
        TableStepKeepsFine(f.base, f.refused, step);
      }
      RowsStay(f.base, Apply(f.base, step), f.plans);
    }
  }

  lemma WithoutKeeps(f: FineState, id: PlanId)
    requires FineInv(f)
    ensures FineInv(Without(f, id))
  {
    forall i | i in Without(f, id).plans ensures PlanOk(f.base, Without(f, id).plans[i]) { assert PlanOk(f.base, f.plans[i]); }
  }

  lemma LookKeeps(f: FineState, id: PlanId, row: StaleRow)
    requires FineInv(f) && FineEnabled(f, Look(id, row))
    ensures FineInv(FineApply(f, Look(id, row)))
  {
    assert RowOk(f.base, row);
    var f' := FineApply(f, Look(id, row));
    if Lookup(f.base.db, row).Some? { LookedIsOk(f, row); }
    forall i | i in f'.plans ensures PlanOk(f'.base, f'.plans[i]) {
      if i in f.plans { assert PlanOk(f.base, f.plans[i]); }
    }
  }

  lemma LookedIsOk(f: FineState, row: StaleRow)
    requires FineInv(f) && row in f.base.stale && !Unfenced(f.base, row) && Lookup(f.base.db, row).Some?
    ensures PlanOk(f.base, Plan(row, Lookup(f.base.db, row).value, false))
  {
    assert RowOk(f.base, row);
    if row.job in f.base.db.jobs && Lookup(f.base.db, row) == Some(false) { DeadClaimsNeverArrive(f, row); }
  }

  lemma DeadClaimsNeverArrive(f: FineState, row: StaleRow)
    requires FineInv(f) && row in f.base.stale && !Unfenced(f.base, row) && Lookup(f.base.db, row) == Some(false)
    requires row.job in f.base.db.jobs
    ensures row.claim.Some? && row.claim.value in f.base.workers && row.claim.value in f.base.db.attempts
    ensures !f.base.workers[row.claim.value].alive && !f.base.workers[row.claim.value].mayArrive
  {
    assert RowOk(f.base, row);
  }

  lemma WriteJobKeeps(f: FineState, id: PlanId)
    requires FineInv(f) && FineEnabled(f, WriteJob(id))
    ensures FineInv(FineApply(f, WriteJob(id)))
  {
    var p := f.plans[id];
    assert PlanOk(f.base, p);
    if JobStatement(f.base.db, p.row, p.unknown).None? {
      WithoutKeeps(f, id);
    } else {
      JobStatementKeeps(f.base, f.refused, p);
      var f' := FineApply(f, WriteJob(id));
      RowsStay(f.base, f'.base, f.plans);
      forall i | i in f'.plans ensures PlanOk(f'.base, f'.plans[i]) { assert PlanOk(f'.base, f.plans[i]); }
    }
  }

  lemma WriteAttemptKeeps(f: FineState, id: PlanId, now: Ms)
    requires FineInv(f) && FineEnabled(f, WriteAttempt(id, now))
    ensures FineInv(FineApply(f, WriteAttempt(id, now)))
  {
    var p := f.plans[id];
    assert PlanOk(f.base, p);
    if AttemptStatement(f.base.db, p.row, p.unknown, now).None? {
      WithoutKeeps(f, id);
    } else {
      AttemptStatementKeeps(f.base, f.refused, p, now);
      var f1 := f.(base := f.base.(db := AttemptStatement(f.base.db, p.row, p.unknown, now).value));
      RowsStay(f.base, f1.base, f.plans);
      WithoutKeeps(f1, id);
    }
  }

  lemma FineStepKeeps(f: FineState, step: FineStep)
    requires FineInv(f) && FineEnabled(f, step)
    ensures FineInv(FineApply(f, step))
  {
    match step
    case Other(st) => OtherKeepsFine(f, st);
    case Look(id, row) => LookKeeps(f, id, row);
    case WriteJob(id) => WriteJobKeeps(f, id);
    case WriteAttempt(id, now) => WriteAttemptKeeps(f, id, now);
    case Stop(id) => WithoutKeeps(f, id);
  }

  // ---- scans ---------------------------------------------------------------------------------------------

  ghost predicate FineGood(f: FineState) { FineInv(f) && IntakeInv(f.base.db) }

  lemma PurgesKeepIntake(s: State, step: Step)
    requires IntakeInv(s.db) && Enabled(s, step) && (step.PurgeFamilyStep? || step.PurgeTenantStep?)
    ensures IntakeInv(Apply(s, step).db)
  {
    var db' := Apply(s, step).db;
    if db' != s.db {
      match step
      case PurgeFamilyStep(tenant, scan, _, _) =>
        FamilyPurgeDropsFamilies(s.db, tenant, scan);
        DropKeepsIntake(s.db, db');
      case PurgeTenantStep(tenant, _) =>
        TenantPurgeDropsFamilies(s.db, tenant);
        DropKeepsIntake(s.db, db');
    }
  }

  lemma OtherKeepsScans(f: FineState, step: Step)
    requires FineGood(f) && FineEnabled(f, Other(step))
    ensures IntakeInv(Apply(f.base, step).db)
  {
    var s := f.base;
    if step.ClaimStep? || WorkerStep(step) {
      if WorkerStep(step) { HeldFacts(s, f.refused, step.attempt); }
      WorkerStepRewrites(s, step);
      RewriteKeepsIntake(s.db, Apply(s, step).db);
    } else if !ProcessEvent(step) {
      match step
      case ScanStep(r, nowUs, scan, job) => CreateKeepsIntake(s.db, r, nowUs, scan, job);
      case CancelStep(scan, job, nowUs) => CancelKeepsIntake(s.db, scan, job, nowUs);
      case FailQueuedStep(tenant, location, reason) => RewriteKeepsIntake(s.db, FailQueued(s.db, tenant, location, reason));
      case PurgeFamilyStep(_, _, _, _) => PurgesKeepIntake(s, step);
      case PurgeTenantStep(_, _) => PurgesKeepIntake(s, step);
      case TenantStep(tenant, status) => RewriteKeepsIntake(s.db, Apply(s, step).db);
    }
  }

  lemma JobStatementRewrites(db: Db, row: StaleRow, unknown: bool)
    requires JobStatement(db, row, unknown).Some?
    ensures OnlyJobsRewritten(db, JobStatement(db, row, unknown).value)
  {
    var db' := JobStatement(db, row, unknown).value;
    if db' != db { JobWriteRewrites(db, row.job, db'.jobs[row.job], db.attempts); }
  }

  lemma JobStatementKeepsScans(db: Db, row: StaleRow, unknown: bool)
    requires IntakeInv(db) && JobStatement(db, row, unknown).Some?
    ensures IntakeInv(JobStatement(db, row, unknown).value)
  {
    JobStatementRewrites(db, row, unknown);
    RewriteKeepsIntake(db, JobStatement(db, row, unknown).value);
  }

  lemma AttemptStatementKeepsScans(db: Db, row: StaleRow, unknown: bool, now: Ms)
    requires IntakeInv(db) && AttemptStatement(db, row, unknown, now).Some?
    ensures IntakeInv(AttemptStatement(db, row, unknown, now).value)
  {
    RewriteKeepsIntake(db, AttemptStatement(db, row, unknown, now).value);
  }

  lemma FineStepKeepsScans(f: FineState, step: FineStep)
    requires FineGood(f) && FineEnabled(f, step)
    ensures IntakeInv(FineApply(f, step).base.db)
  {
    match step
    case Other(st) => OtherKeepsScans(f, st);
    case WriteJob(id) =>
      var p := f.plans[id];
      if JobStatement(f.base.db, p.row, p.unknown).Some? { JobStatementKeepsScans(f.base.db, p.row, p.unknown); }
    case WriteAttempt(id, now) =>
      var p := f.plans[id];
      if AttemptStatement(f.base.db, p.row, p.unknown, now).Some? { AttemptStatementKeepsScans(f.base.db, p.row, p.unknown, now); }
    case Look(_, _) =>
    case Stop(_) =>
  }

  lemma FineStepKeepsGood(f: FineState, step: FineStep)
    requires FineGood(f) && FineEnabled(f, step)
    ensures FineGood(FineApply(f, step))
  {
    FineStepKeeps(f, step);
    FineStepKeepsScans(f, step);
  }

  lemma {:induction false} FineRunKeeps(f: FineState, steps: seq<FineStep>)
    requires FineGood(f) && FineValidRun(f, steps)
    ensures FineGood(FineExec(f, steps))
    decreases |steps|
  {
    if steps != [] {
      FineStepKeepsGood(f, steps[0]);
      FineRunKeeps(FineApply(f, steps[0]), steps[1..]);
    }
  }

  /** Every state that the machine with three-statement recovery reaches satisfies the invariant. */
  lemma {:induction false} FineReachableIsGood(f: FineState)
    requires FineReachable(f)
    ensures FineGood(f)
  {
    var init, steps :| FineInit(init) && FineValidRun(init, steps) && FineExec(init, steps) == f;
    FineInitInv(init);
    InitIntake(init.base);
    FineRunKeeps(init, steps);
  }
}
