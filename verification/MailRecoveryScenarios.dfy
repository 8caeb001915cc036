/**
 A concrete run in which a refusal that comes late commits between the statements of recovery: the
 job is claimable beside an attempt that counts as possibly delivered, a second attempt does too,
 and the job is sent while its records can never be deleted.
 */
module MailRecoveryScenarios {
  import opened Base
  import opened MailTables
  import opened ProviderVerdict
  import opened MailTransactions
  import opened Retention
  import opened MailProtocol
  import opened MailInvariant
  import opened MailTheorems
  import opened MailScenarios
  import opened MailRecovery
  import opened MailRecoveryInvariant
  import opened MailRecoveryTheorems

  const REFUSED := SendResult(ProviderKind.Sandbox, false, None, None, false, false, false)
  const ACCEPTED := SendResult(ProviderKind.Sandbox, true, None, None, false, false, false)
  const RETRY_US: Us := 110_000_000

  const ROW := StaleRowOf(1, ClaimedRow(LEGACY_JOB, 1, T))

  function Opened(now: Ms): Attempt { NewAttempt(0, 1).(status := Invoked, invokedAt := Some(now)) }

  function RetriedJob(): Job {
    ClaimedRow(LEGACY_JOB, 1, T).(status := Queued, retryCount := 1, scheduledAt := Some(110_000), error := Some(ProviderFailure))
  }

  lemma Begin() returns (f: FineState)
    ensures FineReachable(f) && f.base == Start().(kind := ProviderKind.Sandbox) && f.plans == map[] && f.refused == {}
  {
    StartIsInit();
    f := FineState(Start().(kind := ProviderKind.Sandbox), map[], {});
    assert FineInit(f) && FineValidRun(f, []) && FineExec(f, []) == f;
  }

  /** The worker of attempt `a`, which has read the row that it claimed. */
  function Claimant(s: State, phase: Phase): Worker
    requires 1 in s.db.jobs
  {
    Worker(1, 0, s.db.jobs[1].retryCount, true, phase, true, phase == Calling)
  }

  function AfterClaimBy(s: State, a: AttemptId, nowUs: Us, phase: Phase, at: Attempt): State
    requires 1 in s.db.jobs
  {
    s.(db := s.db.(jobs := s.db.jobs[1 := ClaimedRow(s.db.jobs[1], a, nowUs)], attempts := s.db.attempts[a := at]),
       workers := s.workers[a := Claimant(s, phase)])
  }

  lemma Claim1(f: FineState, a: AttemptId, nowUs: Us) returns (t: FineState)
    requires FineReachable(f) && a !in f.base.workers && a !in f.base.db.attempts && Claims(f.base.db, 1, 0, true, nowUs)
    ensures FineReachable(t) && t == f.(base := AfterClaimBy(f.base, a, nowUs, Holding, NewAttempt(0, 1)))
  {
    var claim := Other(ClaimStep(a, 1, 0, true, nowUs, true));
    FineReachesThen(f, claim);
    t := FineApply(f, claim);
  }

  lemma ClearedState(s: State, a: AttemptId, nowUs: Us)
    requires 1 in s.db.jobs
    ensures AfterGate(AfterClaimBy(s, a, nowUs, Holding, NewAttempt(0, 1)), a, true, 0) ==
            AfterClaimBy(s, a, nowUs, Cleared, NewAttempt(0, 1))
  {
    var s1 := AfterClaimBy(s, a, nowUs, Holding, NewAttempt(0, 1));
    assert s1.workers[a := Claimant(s, Cleared)] == s.workers[a := Claimant(s, Cleared)];
  }

  lemma ClaimAndClear1(f: FineState, a: AttemptId, nowUs: Us) returns (t: FineState)
    requires FineReachable(f) && a !in f.base.workers && a !in f.base.db.attempts && Claims(f.base.db, 1, 0, true, nowUs)
    ensures FineReachable(t) && t == f.(base := AfterClaimBy(f.base, a, nowUs, Cleared, NewAttempt(0, 1)))
  {
    var f1 := Claim1(f, a, nowUs);
    var gate := Other(GateStep(a, true, 0));
    FineReachesThen(f1, gate);
    ClearedState(f.base, a, nowUs);
    t := FineApply(f1, gate);
  }

  /** A worker claims the job, passes the gate and calls the provider. */
  lemma ClaimAndCall(f: FineState, a: AttemptId, nowUs: Us) returns (t: FineState)
    requires FineReachable(f) && f.base.kind == ProviderKind.Sandbox && a !in f.base.workers && a !in f.base.db.attempts
    requires Claims(f.base.db, 1, 0, true, nowUs)
    ensures FineReachable(t) && t == f.(base := AfterClaimBy(f.base, a, nowUs, Calling, Opened(TruncMs(nowUs))))
  {
    var f1 := ClaimAndClear1(f, a, nowUs);
    var call := Other(SandboxStep(a, TruncMs(nowUs)));
    FineReachesThen(f1, call);
    t := FineApply(f1, call);
    SandboxCallState(f.base, a, nowUs);
  }

  lemma SandboxCallState(s: State, a: AttemptId, nowUs: Us)
    requires 1 in s.db.jobs
    ensures AfterSandboxInvoke(AfterClaimBy(s, a, nowUs, Cleared, NewAttempt(0, 1)), a, TruncMs(nowUs)) ==
            AfterClaimBy(s, a, nowUs, Calling, Opened(TruncMs(nowUs)))
  {
    var s1 := AfterClaimBy(s, a, nowUs, Cleared, NewAttempt(0, 1));
    assert s1.workers[a := Claimant(s, Calling)] == s.workers[a := Claimant(s, Calling)];
    assert s1.db.attempts[a := Opened(TruncMs(nowUs))] == s.db.attempts[a := Opened(TruncMs(nowUs))];
  }

  lemma StartIsClaimable()
    ensures Claims(Start().db, 1, 0, true, T) && Start().db.jobs[1] == LEGACY_JOB
  {
  }

  lemma FirstCallState(s: State)
    requires s.db.jobs == map[1 := LEGACY_JOB] && s.db.attempts == map[] && s.workers == map[]
    ensures var t := AfterClaimBy(s, 1, T, Calling, Opened(20_000));
            && t.db.jobs == map[1 := ClaimedRow(LEGACY_JOB, 1, T)] && t.db.attempts == map[1 := Opened(20_000)]
            && t.workers == map[1 := Worker(1, 0, 0, true, Calling, true, true)]
  {
  }

  lemma FirstCall() returns (f: FineState)
    ensures FineReachable(f) && f.base.kind == ProviderKind.Sandbox && f.plans == map[] && f.refused == {} && f.base.delivered == {}
    ensures f.base.db.jobs == map[1 := ClaimedRow(LEGACY_JOB, 1, T)] && f.base.db.attempts == map[1 := Opened(20_000)]
    ensures f.base.workers == map[1 := Worker(1, 0, 0, true, Calling, true, true)]
  {
    var f0 := Begin();
    StartIsClaimable();
    FirstCallState(f0.base);
    f := ClaimAndCall(f0, 1, T);
  }

  /** Recovery lists the claim and sees its call open. */
  lemma LookedAtOpenCall() returns (f: FineState)
    ensures FineReachable(f) && f.base.kind == ProviderKind.Sandbox && f.plans == map[0 := Plan(ROW, true, false)] && f.refused == {}
    ensures f.base.db.jobs == map[1 := ClaimedRow(LEGACY_JOB, 1, T)] && f.base.db.attempts == map[1 := Opened(20_000)]
    ensures f.base.workers == map[1 := Worker(1, 0, 0, true, Calling, true, true)] && f.base.delivered == {}
  {
    var f1 := FirstCall();
    var list := Other(ListStaleStep({ROW}, 80_000));
    FineReachesThen(f1, list);
    var f2 := FineApply(f1, list);
    LookAlone(f2, ROW);
    FineReachesThen(f2, Look(0, ROW));
    f := FineApply(f2, Look(0, ROW));
  }

  lemma RefusalRows(db: Db)
    requires db.jobs == map[1 := ClaimedRow(LEGACY_JOB, 1, T)] && db.attempts == map[1 := Opened(20_000)]
    ensures var db' := RecordVerdict(db, 1, 1, 0, 0, Retry(ProviderFailure), 80_000);
            && db'.jobs == map[1 := RetriedJob()] && db'.attempts.Keys == {1}
            && RefusedRow(db'.attempts[1]) && db'.attempts[1].job == 1
  {
  }

  /** The refusal commits while recovery is between its statements. */
  lemma RefusalCommits() returns (f: FineState)
    ensures FineReachable(f) && f.base.kind == ProviderKind.Sandbox && f.plans == map[0 := Plan(ROW, true, false)]
    ensures f.base.db.jobs == map[1 := RetriedJob()] && f.base.delivered == {}
    ensures f.base.db.attempts.Keys == {1} && RefusedRow(f.base.db.attempts[1]) && f.base.db.attempts[1].job == 1
    ensures f.base.workers.Keys == {1} && f.base.workers[1].phase == Finished
  {
    var f0 := LookedAtOpenCall();
    var answer := Other(VerdictStep(1, REFUSED, 80_000));
    FineReachesThen(f0, answer);
    f := FineApply(f0, answer);
    assert Judge(ProviderKind.Sandbox, REFUSED) == Retry(ProviderFailure);
    assert f.base == AfterVerdict(f0.base, 1, REFUSED, 80_000);
    RefusalRows(f0.base.db);
  }

  /** Recovery goes on: its update of the job finds nothing to do. */
  lemma JobIsLeftAlone() returns (f: FineState)
    ensures FineReachable(f) && f.base.kind == ProviderKind.Sandbox && f.plans == map[0 := Plan(ROW, true, true)]
    ensures f.base.db.jobs == map[1 := RetriedJob()] && f.base.delivered == {}
    ensures f.base.db.attempts.Keys == {1} && RefusedRow(f.base.db.attempts[1]) && f.base.db.attempts[1].job == 1
    ensures f.base.workers.Keys == {1} && f.base.workers[1].phase == Finished
  {
    var f1 := RefusalCommits();
    WriteJobAlone(f1, Plan(ROW, true, false));
    FineReachesThen(f1, WriteJob(0));
    f := FineApply(f1, WriteJob(0));
  }

  /** Its update of the attempt is not guarded. */
  lemma RefusalIsOverwritten() returns (f: FineState)
    ensures FineReachable(f) && f.base.kind == ProviderKind.Sandbox && f.base.db.jobs == map[1 := RetriedJob()]
    ensures f.base.db.attempts.Keys == {1} && f.base.workers.Keys == {1} && f.base.delivered == {}
    ensures Overwritten(f.base, 1) && MayBeDelivered(f.base.db.attempts[1]) && f.base.db.attempts[1].job == 1
  {
    var f2 := JobIsLeftAlone();
    WriteAttemptAlone(f2, Plan(ROW, true, true), 80_001);
    FineReachesThen(f2, WriteAttempt(0, 80_001));
    f := FineApply(f2, WriteAttempt(0, 80_001));
  }

  /** CallOpenMeansUnclaimable fails: the job is claimable beside an attempt that may have been delivered. */
  lemma ClaimableBesidePossibleDelivery()
    ensures exists f :: FineReachable(f) && 1 in f.base.db.jobs && 1 in f.base.db.attempts && f.base.db.attempts[1].job == 1
                        && MayBeDelivered(f.base.db.attempts[1]) && Claimable(f.base.db.jobs[1], true, RETRY_US)
  {
    var f := RefusalIsOverwritten();
  }

  lemma SecondCall() returns (f: FineState)
    ensures FineReachable(f) && f.base.kind == ProviderKind.Sandbox && Overwritten(f.base, 1) && f.base.db.attempts.Keys == {1, 2}
    ensures MayBeDelivered(f.base.db.attempts[1]) && f.base.db.attempts[1].job == 1 && f.base.db.attempts[2] == Opened(110_000)
    ensures f.base.workers.Keys == {1, 2} && Holds(f.base, 2, Calling) && f.base.workers[2].job == 1 && f.base.workers[2].tenant == 0
    ensures 1 in f.base.db.jobs && f.base.db.jobs[1].tenant == 0 && f.base.delivered == {}
  {
    var f0 := RefusalIsOverwritten();
    f := ClaimAndCall(f0, 2, RETRY_US);
  }

  /** AtMostOnePossibleDelivery fails: two attempts of one job that may have been delivered. */
  lemma TwoPossibleDeliveries()
    ensures exists f :: FineReachable(f) && 1 in f.base.db.attempts && 2 in f.base.db.attempts
                        && f.base.db.attempts[1].job == f.base.db.attempts[2].job
                        && MayBeDelivered(f.base.db.attempts[1]) && MayBeDelivered(f.base.db.attempts[2])
  {
    var f := SecondCall();
  }

  /** The second call is accepted; the job is sent, and its records stay for good: OverwrittenForever. */
  lemma SentJobIsNeverPurged()
    ensures exists f :: FineReachable(f) && 1 in f.base.db.jobs && f.base.db.jobs[1].status == Sent && Overwritten(f.base, 1)
                        && 1 in f.base.db.attempts && f.base.db.attempts[1].job == 1
  {
    var f := SecondCall();
    var answer := Other(VerdictStep(2, ACCEPTED, 110_001));
    FineReachesThen(f, answer);
    var t := FineApply(f, answer);
    assert t.base.db.jobs[1].status == Sent && Overwritten(t.base, 1);
  }
}
