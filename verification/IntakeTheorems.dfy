/** What callers of POST /api/scan-events may rely on, over every run of the whole system. */
module IntakeTheorems {
  import opened Base
  import opened MailTables
  import opened MailTransactions
  import opened ScanIntake
  import opened Retention
  import opened MailProtocol
  import opened MailInvariant
  import opened IntakeInvariant
  import opened MailRuns
  import opened MailTheorems

  // ---- spacing --------------------------------------------------------------------------------------

  /** Scans of one person at one place, received in a span of time, whose mail was not canceled. */
  ghost function EffectiveScans(db: Db, tenant: TenantId, location: LocationId, person: PersonId, from: Ms, span: nat): set<ScanId> {
    set s | s in db.scans && db.scans[s].tenant == tenant && db.scans[s].location == location && db.scans[s].person == person
            && Effective(db, s) && from <= db.scans[s].receivedAt <= from + span
  }

  lemma SpacingBound(db: Db, tenant: TenantId, location: LocationId, person: PersonId, from: Ms, span: nat)
    requires ScansSpaced(db)
    ensures |EffectiveScans(db, tenant, location, person, from, span)| <= span / DEDUPLICATION_WINDOW_MS + 1
  {
    var ids := EffectiveScans(db, tenant, location, person, from, span);
    if ids != {} {
      var time := map i | i in ids :: db.scans[i].receivedAt;
      SpacedBound(ids, time, from, span, DEDUPLICATION_WINDOW_MS);
    }
  }

  /** However the transactions' start times were ordered, a span of L ms holds at most L / 10000 + 1 of them. */
  lemma AtMostOneScanPerTenSeconds(s: State, tenant: TenantId, location: LocationId, person: PersonId, from: Ms, span: nat)
    requires Reachable(s)
    ensures |EffectiveScans(s.db, tenant, location, person, from, span)| <= span / 10_000 + 1
  {
    ReachableIsGood(s);
    SpacingBound(s.db, tenant, location, person, from, span);
  }

  // ---- idempotency ----------------------------------------------------------------------------------

  ghost predicate Bound(db: Db, k: IdempotencyKey, record: Idempotency) {
    k in db.idempotency && db.idempotency[k] == record
  }

  /** What every request under the key gets while the record is unexpired. */
  function ReplayOf(r: ScanRequest, record: Idempotency): ScanOutcome {
    if record.fingerprint == FingerprintOf(r) then Replayed(record.scan, record.job) else KeyConflict
  }

  /** An unexpired record always has its result: the two broken-result errors cannot occur. */
  lemma RecordAnswers(s: State, r: ScanRequest, record: Idempotency, now: Ms)
    requires Good(s) && r.keyHash.Some? && Bound(s.db, KeyOf(r), record) && now < record.expiresAt
    ensures FindReplay(s.db, r, now) == Some(ReplayOf(r, record))
  {
    assert RecordOk(s.db, KeyOf(r));
  }

  /** A record answers until its expiry and from then on leaves the key free again. */
  lemma RecordExpires(s: State, r: ScanRequest, record: Idempotency, nowUs: Us, scan: ScanId, job: JobId)
    requires Good(s) && r.keyHash.Some? && Bound(s.db, KeyOf(r), record)
    ensures FindReplay(s.db, r, TruncMs(nowUs)).Some? <==> TruncMs(nowUs) < record.expiresAt
    ensures var outcome := CreateScan(s.db, r, nowUs, scan, job).outcome;
            TruncMs(nowUs) >= record.expiresAt <==> outcome.Created? || outcome.Deduplicated? || outcome.ActionConflict?
  {
    if TruncMs(nowUs) < record.expiresAt { RecordAnswers(s, r, record, TruncMs(nowUs)); }
  }

  lemma BrokenResultsAreUnreachable(s: State, r: ScanRequest, now: Ms)
    requires Reachable(s)
    ensures FindReplay(s.db, r, now) != Some(ResultNotFound) && FindReplay(s.db, r, now) != Some(ResultInvalid)
  {
    ReachableIsGood(s);
    if r.keyHash.Some? && KeyOf(r) in s.db.idempotency && now < s.db.idempotency[KeyOf(r)].expiresAt {
      RecordAnswers(s, r, s.db.idempotency[KeyOf(r)], now);
    }
  }

  /** A request that creates or deduplicates under a key binds the key to its own result for 24 hours. */
  lemma SuccessBindsKey(db: Db, r: ScanRequest, nowUs: Us, scan: ScanId, job: JobId)
    requires r.keyHash.Some?
    ensures var i := CreateScan(db, r, nowUs, scan, job);
            i.outcome.Created? || i.outcome.Deduplicated? ==>
              Bound(i.db, KeyOf(r), Idempotency(FingerprintOf(r), i.outcome.scan, i.outcome.job, TruncMs(nowUs) + 24 * 60 * 60 * 1_000))
  {
  }

  /** The record is unexpired at this step's own clock, and this step does not delete its family. */
  predicate Respects(step: Step, k: IdempotencyKey, record: Idempotency) {
    && (step.ScanStep? && step.request.keyHash.Some? && KeyOf(step.request) == k ==> TruncMs(step.nowUs) < record.expiresAt)
    && (step.PurgeFamilyStep? ==> step.scan != record.scan)
    && (step.PurgeTenantStep? ==> step.tenant != k.tenant)
  }

  lemma IntakeKeepsOtherKeys(db: Db, r: ScanRequest, nowUs: Us, scan: ScanId, job: JobId, k: IdempotencyKey, record: Idempotency)
    requires Bound(db, k, record) && (r.keyHash.None? || KeyOf(r) != k)
    ensures Bound(CreateScan(db, r, nowUs, scan, job).db, k, record)
  {
  }

  lemma FamilyPurgeKeepsKey(s: State, addYear: Calendar, tenant: TenantId, scan: ScanId, nowUs: Us, k: IdempotencyKey, record: Idempotency)
    requires Good(s) && Bound(s.db, k, record) && scan != record.scan
    ensures Bound(PurgeFamily(addYear, s.db, tenant, scan, nowUs).db, k, record)
  {
    assert RecordOk(s.db, k);
  }

  /** Only intake and the purges write idempotency records. */
  lemma RecordsUntouched(s: State, step: Step)
    requires Enabled(s, step) && !step.ScanStep? && !step.PurgeFamilyStep? && !step.PurgeTenantStep?
    ensures Apply(s, step).db.idempotency == s.db.idempotency
  {
    match step
    case RecoverStep(row, now) => RecoverRewrites(s.db, row, now);
    case ReserveStep(_, _) =>
    case VerdictStep(_, _, _) =>
    case _ =>
  }

  /** Intake under the key is answered from the record and writes nothing. */
  lemma IntakeUnderKey(s: State, r: ScanRequest, nowUs: Us, scan: ScanId, job: JobId, record: Idempotency)
    requires Good(s) && r.keyHash.Some? && Bound(s.db, KeyOf(r), record) && TruncMs(nowUs) < record.expiresAt
    ensures CreateScan(s.db, r, nowUs, scan, job) == Intake(s.db, ReplayOf(r, record))
  {
    RecordAnswers(s, r, record, TruncMs(nowUs));
  }

  lemma KeyStep(s: State, step: Step, k: IdempotencyKey, record: Idempotency)
    requires Good(s) && Enabled(s, step) && Bound(s.db, k, record) && Respects(step, k, record)
    ensures Bound(Apply(s, step).db, k, record)
  {
    if step.ScanStep? {
      if step.request.keyHash.Some? && KeyOf(step.request) == k {
        IntakeUnderKey(s, step.request, step.nowUs, step.newScan, step.newJob, record);
      } else {
        IntakeKeepsOtherKeys(s.db, step.request, step.nowUs, step.newScan, step.newJob, k, record);
      }
    } else if step.PurgeFamilyStep? {
      FamilyPurgeKeepsKey(s, step.addYear, step.tenant, step.scan, step.nowUs, k, record);
    } else if !step.PurgeTenantStep? {
      RecordsUntouched(s, step);
    }
  }

  lemma KeyStepAnswer(s: State, step: Step, k: IdempotencyKey, record: Idempotency)
    requires Good(s) && Enabled(s, step) && Bound(s.db, k, record) && Respects(step, k, record)
    requires step.ScanStep? && step.request.keyHash.Some? && KeyOf(step.request) == k
    ensures CreateScan(s.db, step.request, step.nowUs, step.newScan, step.newJob) == Intake(s.db, ReplayOf(step.request, record))
  {
    IntakeUnderKey(s, step.request, step.nowUs, step.newScan, step.newJob, record);
  }

  /** Every intake step of a run that used the key. */
  ghost predicate KeyAnsweredBy(s: State, steps: seq<Step>, k: IdempotencyKey, record: Idempotency)
    requires ValidRun(s, steps)
    decreases |steps|
  {
    steps == [] ||
    ((steps[0].ScanStep? && steps[0].request.keyHash.Some? && KeyOf(steps[0].request) == k ==>
        CreateScan(s.db, steps[0].request, steps[0].nowUs, steps[0].newScan, steps[0].newJob)
        == Intake(s.db, ReplayOf(steps[0].request, record)))
     && KeyAnsweredBy(Apply(s, steps[0]), steps[1..], k, record))
  }

  ghost predicate AllRespect(steps: seq<Step>, k: IdempotencyKey, record: Idempotency)
    decreases |steps|
  {
    steps == [] || (Respects(steps[0], k, record) && AllRespect(steps[1..], k, record))
  }

  lemma {:induction false} KeyOverRuns(s: State, steps: seq<Step>, k: IdempotencyKey, record: Idempotency)
    requires Good(s) && ValidRun(s, steps) && Bound(s.db, k, record) && AllRespect(steps, k, record)
    ensures Good(Exec(s, steps)) && Bound(Exec(s, steps).db, k, record)
    ensures KeyAnsweredBy(s, steps, k, record)
    decreases |steps|
  {
    if steps != [] {
      KeyStep(s, steps[0], k, record);
      if steps[0].ScanStep? && steps[0].request.keyHash.Some? && KeyOf(steps[0].request) == k {
        KeyStepAnswer(s, steps[0], k, record);
      }
      StepKeepsGood(s, steps[0]);
      KeyOverRuns(Apply(s, steps[0]), steps[1..], k, record);
    }
  }

  /**
   While a record is unexpired, and until its family is purged, every request under its key, in
   any later state, is answered from it: the same fingerprint gets the same scan and job, any other
   fingerprint gets a conflict, the database does not change, so no second scan is created for the
   key. The unlocked look before the transaction and the locked one inside it give this one answer.
   */
  lemma {:induction false} SameKeySameAnswer(
    s: State, steps: seq<Step>, r: ScanRequest, record: Idempotency, fastNow: Ms, nowUs: Us, scan: ScanId, job: JobId)
    requires Reachable(s) && ValidRun(s, steps) && r.keyHash.Some?
    requires Bound(s.db, KeyOf(r), record) && AllRespect(steps, KeyOf(r), record)
    requires fastNow < record.expiresAt && TruncMs(nowUs) < record.expiresAt
    ensures KeyAnsweredBy(s, steps, KeyOf(r), record)
    ensures FindReplay(Exec(s, steps).db, r, fastNow) == Some(ReplayOf(r, record))
    ensures CreateScan(Exec(s, steps).db, r, nowUs, scan, job) == Intake(Exec(s, steps).db, ReplayOf(r, record))
  {
    ReachableIsGood(s);
    KeyOverRuns(s, steps, KeyOf(r), record);
    RecordAnswers(Exec(s, steps), r, record, fastNow);
    RecordAnswers(Exec(s, steps), r, record, TruncMs(nowUs));
  }
}
