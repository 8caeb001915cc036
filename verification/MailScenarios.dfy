/** A concrete run of eight ordinary steps and one crash that leaves a job stuck for good. */
module MailScenarios {
  import opened Base
  import opened MailTables
  import opened ProviderVerdict
  import opened RateLimiter
  import opened MailTransactions
  import opened ScanIntake
  import opened Retention
  import opened MailProtocol
  import opened MailInvariant
  import opened IntakeInvariant
  import opened MailRuns
  import opened MailTheorems
  import opened MailProgress
  import opened MailFencing

  const T: Us := 20_000_000

  const LEGACY_SCAN := Scan(0, 0, 1, Entry, 0, 0, None)
  const LEGACY_JOB := Job(0, 0, 1, 1, Entry, Queued, 0, None, None, None, None, None, None, None)

  /** One tenant, one place, one job from before the migration. */
  function Start(): State {
    State(Oci, Db(map[1 := LEGACY_JOB], map[], map[1 := LEGACY_SCAN], map[], map[0 := Active]), map[], {}, {}, [], {1})
  }

  lemma StartIsInit()
    ensures Init(Start())
  {
    var db := Start().db;
    assert IsJobOf(db, 1, 1);
    assert Paired(db);
  }

  const REQUEST := ScanRequest(0, 0, 2, Entry, None)

  /** A second person is scanned at time zero; the mail may go out ten seconds later. */
  lemma ScanSecondPerson() returns (s: State)
    ensures Reaches(Start(), s) && s.kind == Oci && s.db.attempts == map[] && s.workers == map[]
    ensures s.db.jobs == map[1 := LEGACY_JOB, 2 := NewJob(REQUEST, 2, 0)]
  {
    var step := ScanStep(REQUEST, 0, 2, 2);
    ReachesSelf(Start());
    ReachesThen(Start(), Start(), step);
    s := Apply(Start(), step);
    assert forall c :: !Duplicates(Start().db, REQUEST, 0, c);
  }

  /** A worker claims a due job and passes the gate. */
  lemma ClaimAndClear(s0: State, s: State, a: AttemptId, job: JobId) returns (t: State)
    requires Reaches(s0, s) && s.kind == Oci && a !in s.workers && a !in s.db.attempts && Claims(s.db, job, 0, true, T)
    ensures Reaches(s0, t) && t.kind == Oci && Holds(t, a, Cleared)
    ensures t.workers == s.workers[a := Worker(job, 0, s.db.jobs[job].retryCount, true, Cleared, true, false)]
    ensures t.db == ClaimJob(s.db, a, job, 0, true, T)
  {
    var claim, gate := ClaimStep(a, job, 0, true, T, true), GateStep(a, true, 0);
    ReachesThen(s0, s, claim);
    var s1 := Apply(s, claim);
    assert Enabled(s1, gate);
    ReachesThen(s0, s1, gate);
    t := Apply(s1, gate);
  }

  /** The first reservation of the second is admitted. */
  lemma FirstReservation(s0: State, s: State) returns (t: State)
    requires Reaches(s0, s) && s.kind == Oci && Holds(s, 1, Cleared) && s.workers[1].tenant == 0
    requires s.db.attempts == map[1 := NewAttempt(0, 1)]
    ensures Reaches(s0, t) && t.kind == Oci && t.db.jobs == s.db.jobs && t.workers.Keys == s.workers.Keys
    ensures t.db.attempts == map[1 := NewAttempt(0, 1).(status := Invoked, invokedAt := Some(20_000), hasRfcId := true)]
  {
    assert Window(s.db.attempts, T) == map[];
    DecisionIs(Snapshot(20_000, None, 0, None), s.db.attempts, T);
    ReachesThen(s0, s, ReserveStep(1, T));
    t := Apply(s, ReserveStep(1, T));
  }

  /** The second one in the same instant is deferred by one pace. */
  lemma SecondReservation(s0: State, s: State) returns (t: State)
    requires Reaches(s0, s) && s.kind == Oci && Holds(s, 2, Cleared) && s.workers[2].tenant == 0 && s.workers[2].job == 2
    requires 2 in s.db.jobs && s.db.jobs[2].tenant == 0
    requires 1 in s.db.attempts && s.db.attempts[1].hasRfcId && s.db.attempts[1].invokedAt == Some(20_000)
    requires s.db.attempts.Keys == {1, 2} && s.db.attempts[2] == NewAttempt(0, 2)
    ensures Reaches(s0, t) && 2 in t.db.jobs && t.db.attempts.Keys == {1, 2} && t.workers.Keys == s.workers.Keys
    ensures t.db.jobs[2] == s.db.jobs[2].(status := Queued, scheduledAt := Some(20_050), claimedAt := None,
                                          claimAttempt := None, error := Some(RateLimited))
  {
    var w := Window(s.db.attempts, T);
    assert w == map[1 := 20_000];
    assert |w| == 1;
    assert IsMax(w, 20_000) && IsMin(w, 20_000) by { assert 1 in w && w[1] == 20_000; }
    DecisionIs(Snapshot(20_000, Some(20_000), 1, Some(20_000)), s.db.attempts, T);
    ReachesThen(s0, s, ReserveStep(2, T));
    t := Apply(s, ReserveStep(2, T));
  }

  /** The state after the first reservation. */
  lemma LegacyJobIsInvoked() returns (s: State)
    ensures Reaches(Start(), s) && s.kind == Oci && s.workers.Keys == {1}
    ensures s.db.jobs == map[1 := ClaimedRow(LEGACY_JOB, 1, T), 2 := NewJob(REQUEST, 2, 0)]
    ensures s.db.attempts == map[1 := NewAttempt(0, 1).(status := Invoked, invokedAt := Some(20_000), hasRfcId := true)]
  {
    var s1 := ScanSecondPerson();
    var s2 := ClaimAndClear(Start(), s1, 1, 1);
    s := FirstReservation(Start(), s2);
  }

  /** The second job is queued again, rate-deferred before its first call. */
  lemma SecondJobIsDeferred() returns (s: State)
    ensures Reaches(Start(), s) && 2 in s.db.jobs && s.db.jobs[2].status == Queued && Deferred0(s.db.jobs[2])
    ensures s.db.jobs[2].tenant == 0 && s.db.jobs[2].scheduledAt == Some(20_050) && 3 !in s.workers && 3 !in s.db.attempts
  {
    var s3 := LegacyJobIsInvoked();
    var s4 := ClaimAndClear(Start(), s3, 2, 2);
    s := SecondReservation(Start(), s4);
  }

  lemma ReachableFromStart(s: State)
    requires Reaches(Start(), s)
    ensures Reachable(s)
  {
    StartIsInit();
    var steps :| ValidRun(Start(), steps) && Exec(Start(), steps) == s;
  }

  lemma PoisonedRecoveryRaises(s: State, job: JobId)
    requires Reachable(s) && Poisoned(s, job)
    ensures forall now :: RecoverRow(s.db, StaleRowOf(job, s.db.jobs[job]), now).Raised?
  {
    ReachableIsGood(s);
    assert AttemptShape(s.db.attempts[s.db.jobs[job].claimAttempt.value]);
    forall now ensures RecoverRow(s.db, StaleRowOf(job, s.db.jobs[job]), now).Raised? {
      RecoveryRaisesExactly(s, job, now);
    }
  }

  lemma StuckJobExists() returns (s: State)
    ensures Reachable(s) && Poisoned(s, 2)
  {
    var s5 := SecondJobIsDeferred();
    ReachableFromStart(s5);
    DeferredClaimThatDiesIsPoisoned(s5, 2, 3, 20_050_000, true);
    var claim := ClaimStep(3, 2, 0, true, 20_050_000, true);
    StepReaches(s5, claim);
    StepReaches(Apply(s5, claim), CrashStep(3));
    s := Apply(Apply(s5, claim), CrashStep(3));
    TwoStepsAreARun(s5, claim, CrashStep(3));
  }

  /**
   The recovery error is reachable: a rate-deferred job whose next claim dies is listed as stale
   and recovery of it raises, at any time; PoisonedForever says that this never ends.
   */
  lemma RecoveryErrorIsReachable()
    ensures exists s :: Reachable(s) && Poisoned(s, 2) && forall now :: RecoverRow(s.db, StaleRowOf(2, s.db.jobs[2]), now).Raised?
  {
    var s := StuckJobExists();
    PoisonedRecoveryRaises(s, 2);
  }

  lemma {:induction false} StepReaches(s: State, x: Step)
    requires Reachable(s) && Enabled(s, x)
    ensures Reachable(Apply(s, x))
  {
    var init, steps :| Init(init) && ValidRun(init, steps) && Exec(init, steps) == s;
    AppendStep(init, steps, x);
  }

  lemma {:induction false} TwoStepsAreARun(s: State, x: Step, y: Step)
    requires Enabled(s, x) && Enabled(Apply(s, x), y)
    ensures ValidRun(s, [x, y]) && Exec(s, [x, y]) == Apply(Apply(s, x), y)
  {
    assert [x, y][1..] == [y] && [y][1..] == [];
    assert ValidRun(Apply(Apply(s, x), y), []);
    assert Exec(Apply(s, x), [y]) == Apply(Apply(s, x), y);
  }
}
