/**
 Recovery as the code performs it: per stale row it reads the attempt, then updates the job if it is
 still processing, then updates the attempt whatever has become of it. Nothing holds the three
 statements together, so workers, other recoveries and everything else may act in between, and the
 process may stop after any of them.
 */
module MailRecovery {
  import opened Base
  import opened MailTables
  import opened ProviderVerdict
  import opened MailTransactions
  import opened MailProtocol
  import opened MailInvariant

  // ---- the machine ---------------------------------------------------------------------------------------

  /** A row that a recovery has looked at and not finished. */
  datatype Plan = Plan(row: StaleRow, unknown: bool, jobWritten: bool)

  type PlanId = nat

  /** `refused` names the calls that were answered with a transient refusal. */
  datatype FineState = FineState(base: State, plans: map<PlanId, Plan>, refused: set<AttemptId>)

  datatype FineStep =
    | Other(step: Step)
    | Look(id: PlanId, row: StaleRow)
    | WriteJob(id: PlanId)
    | WriteAttempt(id: PlanId, now: Ms)
    | Stop(id: PlanId)

  /** As before, a claim that never reached the provider is looked at only once its worker is dead. */
  ghost predicate FineEnabled(f: FineState, step: FineStep) {
    match step
    case Other(st) => !st.RecoverStep? && Enabled(f.base, st)
    case Look(id, row) => id !in f.plans && row in f.base.stale && !Unfenced(f.base, row)
    case WriteJob(id) => id in f.plans && !f.plans[id].jobWritten
    case WriteAttempt(id, _) => id in f.plans && f.plans[id].jobWritten
    case Stop(id) => id in f.plans
  }

  predicate Refusal(s: State, step: Step) {
    step.VerdictStep? && Judge(s.kind, step.result).Retry?
  }

  function Without(f: FineState, id: PlanId): FineState {
    f.(plans := map i | i in f.plans && i != id :: f.plans[i])
  }

  ghost function FineApply(f: FineState, step: FineStep): FineState
    requires FineEnabled(f, step)
  {
    match step
    case Other(st) =>
      FineState(Apply(f.base, st), f.plans, if Refusal(f.base, st) then f.refused + {st.attempt} else f.refused)
    case Look(id, row) =>
      (match Lookup(f.base.db, row)
       case None => f
       case Some(unknown) => f.(plans := f.plans[id := Plan(row, unknown, false)]))
    case WriteJob(id) =>
      var p := f.plans[id];
      (match JobStatement(f.base.db, p.row, p.unknown)
       case None => Without(f, id)
       case Some(db) => f.(base := f.base.(db := db), plans := f.plans[id := p.(jobWritten := true)]))
    case WriteAttempt(id, now) =>
      var p := f.plans[id];
      (match AttemptStatement(f.base.db, p.row, p.unknown, now)
       case None => Without(f, id)
       case Some(db) => Without(f.(base := f.base.(db := db)), id))
    case Stop(id) => Without(f, id)
  }

  ghost predicate FineValidRun(f: FineState, steps: seq<FineStep>)
    decreases |steps|
  {
    steps == [] || (FineEnabled(f, steps[0]) && FineValidRun(FineApply(f, steps[0]), steps[1..]))
  }

  ghost function FineExec(f: FineState, steps: seq<FineStep>): FineState
    requires FineValidRun(f, steps)
    decreases |steps|
  {
    if steps == [] then f else FineExec(FineApply(f, steps[0]), steps[1..])
  }

  ghost predicate FineInit(f: FineState) {
    Init(f.base) && f.plans == map[] && f.refused == {}
  }

  ghost predicate FineReachable(f: FineState) {
    exists init, steps :: FineInit(init) && FineValidRun(init, steps) && FineExec(init, steps) == f
  }

  // ---- the invariant -----------------------------------------------------------------------------------

  predicate InHand(s: JobStatus) { s == Processing || s == DeliveryUnknown }

  /** Every attempt has its worker and its job. */
  ghost predicate Linked(s: State) {
    forall a | a in s.db.attempts ::
      var at := s.db.attempts[a];
      && a in s.workers && s.workers[a].job == at.job && s.workers[a].tenant == at.tenant
      && at.job in s.db.jobs && s.db.jobs[at.job].tenant == at.tenant
  }

  /** A job is not deleted without its attempts, nor they without it. */
  ghost predicate Together(s: State) {
    forall a | a in s.workers && s.workers[a].job in s.db.jobs :: a in s.db.attempts
  }

  predicate StillOpen(at: Attempt) {
    at.closedAt.None? && (at.completedAt.None? || at.status == OutcomeUnknown)
  }

  /** A live worker that is not done holds its job: nobody else has claimed it since. */
  ghost predicate Held(s: State, a: AttemptId)
    requires Linked(s) && a in s.workers
  {
    var w := s.workers[a];
    && a in s.db.attempts && StillOpen(s.db.attempts[a])
    && var j := s.db.jobs[s.db.attempts[a].job];
    && j.claimAttempt == Some(a) && InHand(j.status) && j.retryCount == w.retryCount
    && (w.phase != Calling ==> s.db.attempts[a].invokedAt.None? && s.db.attempts[a].completedAt.None? && !w.mayArrive)
    && (w.phase == Calling ==> s.db.attempts[a].invokedAt.Some?)
  }

  ghost predicate HeldOk(s: State, refused: set<AttemptId>)
    requires Linked(s)
  {
    forall a | a in s.workers && s.workers[a].alive && s.workers[a].phase != Finished :: Held(s, a) && a !in refused
  }

  /** A call that may have been accepted is the claim of its job, which nothing can claim again. */
  ghost predicate ArrivedOk(s: State, refused: set<AttemptId>) {
    forall a | a in s.workers && s.workers[a].mayArrive ::
      && a !in refused && (s.workers[a].phase == Calling || s.workers[a].phase == Finished)
      && (s.workers[a].job in s.db.jobs ==>
            && a in s.db.attempts && s.db.attempts[a].invokedAt.Some?
            && var j := s.db.jobs[s.workers[a].job];
            && j.claimAttempt == Some(a) && (InHand(j.status) || j.status == Sent))
  }

  ghost predicate ProcessingOk(s: State) {
    forall j | j in s.db.jobs && s.db.jobs[j].status == Processing ::
      var c := s.db.jobs[j].claimAttempt;
      && c.Some? && c.value in s.workers && s.workers[c.value].job == j
      && s.workers[c.value].tenant == s.db.jobs[j].tenant && s.workers[c.value].retryCount == s.db.jobs[j].retryCount
  }

  /** A call that was not transiently refused is the job's last one. */
  ghost predicate CallsOk(s: State, refused: set<AttemptId>)
    requires Linked(s)
  {
    forall a | a in s.db.attempts && s.db.attempts[a].invokedAt.Some? && a !in refused ::
      var j := s.db.jobs[s.db.attempts[a].job];
      && j.claimAttempt == Some(a) && (InHand(j.status) || j.status == Sent || j.status == Failed)
      && j.retryCount == s.workers[a].retryCount
  }

  /** A refused call was never closed, and its row says so unless recovery has written over it. */
  predicate RefusedRow(at: Attempt) {
    at.invokedAt.Some? && at.closedAt.None? && (at.status == RetryScheduled || at.status == AttemptFailed || at.status == OutcomeUnknown)
  }

  ghost predicate RefusedOk(s: State, refused: set<AttemptId>) {
    forall a | a in refused ::
      a in s.workers && s.workers[a].phase == Finished && (a in s.db.attempts ==> RefusedRow(s.db.attempts[a]))
  }

  /** A worker that is done has completed its attempt, and only an invoked one has an unknown outcome. */
  ghost predicate ConcludedOk(s: State) {
    forall a | a in s.workers && s.workers[a].phase == Finished && a in s.db.attempts :: Concluded(s.db.attempts[a])
  }

  predicate Concluded(at: Attempt) {
    at.completedAt.Some? && (at.status == OutcomeUnknown ==> at.invokedAt.Some?)
  }

  ghost function RefusedOf(attempts: map<AttemptId, Attempt>, refused: set<AttemptId>, job: JobId): set<AttemptId> {
    set a | a in attempts && attempts[a].job == job && a in refused
  }

  ghost predicate RefusalsCounted(s: State, refused: set<AttemptId>) {
    forall j | j in s.db.jobs :: |RefusedOf(s.db.attempts, refused, j)| == s.db.jobs[j].retryCount
  }

  ghost predicate WorkerCounts(s: State) {
    forall a | a in s.workers :: s.workers[a].retryCount < MAX_RETRY_COUNT
  }

  /** A row that recovery has read describes its claim. */
  ghost predicate RowOk(s: State, r: StaleRow) {
    && r.claim.Some? && r.claim.value in s.workers
    && SameExecution(Worker(r.job, r.tenant, r.retryCount, false, Finished, false, false), s.workers[r.claim.value])
    && (r.job in s.db.jobs ==> s.db.jobs[r.job].sendNotBefore == r.sendNotBefore)
  }

  /** A claim that is being given back is a dead worker's and never reached the provider. */
  ghost predicate PlanOk(s: State, p: Plan) {
    && RowOk(s, p.row)
    && var a := p.row.claim.value;
    && (p.unknown ==> a in s.db.attempts ==> s.db.attempts[a].invokedAt.Some?)
    && (!p.unknown && p.row.job in s.db.jobs ==>
          !s.workers[a].alive && !s.workers[a].mayArrive && (a in s.db.attempts ==> s.db.attempts[a].invokedAt.None?))
  }

  ghost predicate Rows(s: State, plans: map<PlanId, Plan>) {
    (forall r | r in s.stale :: RowOk(s, r)) && forall i | i in plans :: PlanOk(s, plans[i])
  }

  ghost predicate FineCore(s: State, refused: set<AttemptId>) {
    && Linked(s) && Together(s) && HeldOk(s, refused) && ArrivedOk(s, refused) && ProcessingOk(s) && CallsOk(s, refused)
    && RefusedOk(s, refused) && ConcludedOk(s) && RefusalsCounted(s, refused) && WorkerCounts(s)
    && JobsOk(s) && ArrivalsUnique(s) && DeliveredOk(s) && IssuedOk(s)
  }

  ghost predicate FineInv(f: FineState) {
    FineCore(f.base, f.refused) && Rows(f.base, f.plans)
  }
}
