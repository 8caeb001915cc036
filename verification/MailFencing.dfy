/**
 Why recovery must wait for the worker to be dead. A claim that has not reached the provider is
 given back without a fence: `reserve` looks neither at the attempt's status nor at the job's
 current claim. The sixty-second threshold is the only thing that stands for "the worker is dead".
 */
module MailFencing {
  import opened Base
  import opened MailTables
  import opened ProviderVerdict
  import opened RateLimiter
  import opened MailTransactions
  import opened ScanIntake
  import opened Retention
  import opened MailProtocol
  import opened MailInvariant
  import opened IntakeInvariant
  import opened MailRuns

  ghost predicate Reaches(s: State, t: State) {
    exists steps :: ValidRun(s, steps) && Exec(s, steps) == t
  }

  lemma ReachesSelf(s: State)
    ensures Reaches(s, s)
  {
    assert ValidRun(s, []) && Exec(s, []) == s;
  }

  lemma {:induction false} AppendStep(s: State, steps: seq<Step>, x: Step)
    requires ValidRun(s, steps) && Enabled(Exec(s, steps), x)
    ensures ValidRun(s, steps + [x]) && Exec(s, steps + [x]) == Apply(Exec(s, steps), x)
    decreases |steps|
  {
    if steps == [] {
      assert [] + [x] == [x] && [x][1..] == [];
      assert ValidRun(Apply(s, x), []);
    } else {
      assert (steps + [x])[1..] == steps[1..] + [x];
      AppendStep(Apply(s, steps[0]), steps[1..], x);
    }
  }

  lemma ReachesThen(s: State, t: State, x: Step)
    requires Reaches(s, t) && Enabled(t, x)
    ensures Reaches(s, Apply(t, x))
  {
    var steps :| ValidRun(s, steps) && Exec(s, steps) == t;
    AppendStep(s, steps, x);
  }

  /** The provider accepted two messages for one job. */
  ghost predicate SentTwice(t: State, job: JobId) {
    exists a, b :: a in t.delivered && b in t.delivered && a != b && a in t.workers && b in t.workers
                   && t.workers[a].job == job && t.workers[b].job == job
  }

  /** At any late enough time the window is empty, and a reservation is admitted. */
  lemma QuietTimeExists(attempts: map<AttemptId, Attempt>, after: Us) returns (nowUs: Us)
    ensures nowUs >= after && nowUs >= 0 && Decision(attempts, nowUs).Admit?
  {
    var all := Reservations(attempts);
    nowUs := Max(after, 0);
    if all.Keys != {} {
      var m := LatestExists(all.Keys, all);
      nowUs := Max(nowUs, all[m] * 1000 + SECOND_US);
      assert forall a | a in all :: !Recent(all[a], nowUs);
    }
    assert Window(attempts, nowUs) == map[];
    DecisionIs(Snapshot(TruncMs(nowUs), None, 0, None), attempts, nowUs);
  }

  /** A live worker whose gate is passed submits, whatever happened to its job and attempt meanwhile. */
  lemma ClearedWorkerSubmits(s0: State, s: State, a: AttemptId) returns (t: State)
    requires Reaches(s0, s) && s.kind == Oci && Holds(s, a, Cleared)
    ensures Reaches(s0, t) && t.delivered == s.delivered + {a} && t.kind == Oci
    ensures forall b | b in s.workers && b != a :: b in t.workers && t.workers[b] == s.workers[b]
    ensures a in t.workers && t.workers[a].job == s.workers[a].job
  {
    var nowUs := QuietTimeExists(s.db.attempts, 0);
    var s1 := Apply(s, ReserveStep(a, nowUs));
    ReachesThen(s0, s, ReserveStep(a, nowUs));
    t := Apply(s1, ArriveStep(a));
    ReachesThen(s0, s1, ArriveStep(a));
  }

  /** A live worker on its way to the provider gets there. */
  lemma WorkerSubmits(s0: State, s: State, a: AttemptId) returns (t: State)
    requires Reaches(s0, s) && s.kind == Oci
    requires Holds(s, a, Cleared) || (Holds(s, a, Holding) && s.workers[a].resourceActive)
    ensures Reaches(s0, t) && t.delivered == s.delivered + {a} && t.kind == Oci
    ensures forall b | b in s.workers && b != a :: b in t.workers && t.workers[b] == s.workers[b]
    ensures a in t.workers && t.workers[a].job == s.workers[a].job
  {
    if s.workers[a].phase == Holding {
      var s1 := Apply(s, GateStep(a, true, 0));
      ReachesThen(s0, s, GateStep(a, true, 0));
      t := ClearedWorkerSubmits(s0, s1, a);
    } else {
      t := ClearedWorkerSubmits(s0, s, a);
    }
  }

  lemma FreshAttempt(s: State) returns (b: AttemptId)
    ensures b !in s.workers && b !in s.db.attempts
  {
    var used := s.workers.Keys + s.db.attempts.Keys;
    b := FreshNat(used);
  }

  /** The state after recovery gave the claim back, guard or no guard. */
  function GivenBack(s: State, row: StaleRow, now: Ms): State {
    s.(db := AfterRecovery(s.db, RecoverRow(s.db, row, now)))
  }

  /** The worker of the row's claim holds it and has nothing before it but the provider. */
  ghost predicate Heading(s: State, row: StaleRow) {
    && row.claim.Some? && row.claim.value in s.workers
    && var w := s.workers[row.claim.value];
    w.phase == Cleared || (w.phase == Holding && w.resourceActive)
  }

  /** The open, uninvoked claim that recovery is about to give back. */
  ghost predicate GivesBack(s: State, row: StaleRow, now: Ms) {
    && row in s.stale && ClaimRow(s.db, row).Some? && ClaimRow(s.db, row).value.completedAt.None?
    && !RecoversAsUnknown(s.db, row) && RecoverRow(s.db, row, now).Recovered?
  }

  /** A claim that was given back leaves a job that some later claim can take. */
  lemma GivenBackIsClaimable(db: Db, row: StaleRow, now: Ms) returns (due: Us)
    requires row.job in db.jobs && JobOk(db.jobs[row.job]) && db.jobs[row.job].status == Processing
    requires db.jobs[row.job].claimAttempt == row.claim && db.jobs[row.job].tenant == row.tenant
    requires db.jobs[row.job].sendNotBefore == row.sendNotBefore && db.jobs[row.job].retryCount == row.retryCount
    requires ClaimRow(db, row).Some? && ClaimRow(db, row).value.completedAt.None? && !RecoversAsUnknown(db, row)
    requires RecoverRow(db, row, now).Recovered?
    ensures var db' := AfterRecovery(db, RecoverRow(db, row, now));
            row.job in db'.jobs && Claims(db', row.job, row.tenant, true, due)
    ensures AfterRecovery(db, RecoverRow(db, row, now)).jobs[row.job].tenant == row.tenant
  {
    var j := AfterRecovery(db, RecoverRow(db, row, now)).jobs[row.job];
    var from := if j.status == Waiting then j.sendNotBefore.value else if j.scheduledAt.Some? then j.scheduledAt.value else 0;
    due := 1000 * Max(0, from);
  }

  lemma LiveWorkerSendsTwice(s: State, row: StaleRow, now: Ms) returns (t: State)
    requires Reachable(s) && s.kind == Oci && GivesBack(s, row, now) && Heading(s, row) && s.workers[row.claim.value].alive
    ensures Reaches(GivenBack(s, row, now), t) && SentTwice(t, row.job)
  {
    ReachableIsGood(s);
    var a := row.claim.value;
    var s' := GivenBack(s, row, now);
    assert JobOk(s.db.jobs[row.job]);
    var b := FreshAttempt(s');
    var due := GivenBackIsClaimable(s.db, row, now);
    var claim := ClaimStep(b, row.job, row.tenant, true, due, true);
    var s1 := Apply(s', claim);
    ReachesSelf(s');
    ReachesThen(s', s', claim);
    assert Holds(s1, b, Holding) && s1.workers[b].resourceActive && s1.workers[b].job == row.job;
    assert s1.workers[a] == s.workers[a];
    var s2 := WorkerSubmits(s', s1, b);
    assert s2.workers[a] == s.workers[a];
    t := WorkerSubmits(s', s2, a);
    assert a in t.delivered && b in t.delivered && a != b;
    assert t.workers[a].job == row.job && t.workers[b].job == row.job;
  }

  /**
   Giving back the claim of a worker that is on its way to the provider can lead to two messages
   exactly if that worker is alive.
   */
  lemma FencingIsExact(s: State, row: StaleRow, now: Ms)
    requires Reachable(s) && s.kind == Oci && GivesBack(s, row, now) && Heading(s, row)
    ensures s.workers[row.claim.value].alive <==> exists t :: Reaches(GivenBack(s, row, now), t) && SentTwice(t, row.job)
  {
    ReachableIsGood(s);
    var s' := GivenBack(s, row, now);
    if s.workers[row.claim.value].alive {
      var t := LiveWorkerSendsTwice(s, row, now);
    } else {
      assert Enabled(s, RecoverStep(row, now)) && Apply(s, RecoverStep(row, now)) == s';
      StepKeepsGood(s, RecoverStep(row, now));
      forall t | Reaches(s', t) ensures !SentTwice(t, row.job) {
        var steps :| ValidRun(s', steps) && Exec(s', steps) == t;
        RunKeepsGood(s', steps);
      }
    }
  }
}
