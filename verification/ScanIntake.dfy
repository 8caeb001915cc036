/**
 The transaction behind POST /api/scan-events: idempotent replay, ten-second deduplication and
 creation of the scan with its mail job.
 */
module ScanIntake {
  import opened Base
  import opened MailTables

  const DEDUPLICATION_WINDOW_MS := 10_000
  const IDEMPOTENCY_RETENTION_MS := 86_400_000
  const CANCEL_WINDOW_US := 10_000_000

  /** A printed action code is E or X, so a request never carries an unknown action. */
  type KnownAction = a: Action | a != UnknownAction witness Entry

  datatype ScanRequest = ScanRequest(
    tenant: TenantId, location: LocationId, person: PersonId, action: KnownAction, keyHash: Option<nat>)

  datatype ScanOutcome =
    | Created(scan: ScanId, job: JobId)
    | Deduplicated(scan: ScanId, job: JobId)
    | Replayed(scan: ScanId, job: JobId)
    | KeyConflict
    | ActionConflict(existing: ScanId)
    | ResultNotFound
    | ResultInvalid

  datatype Intake = Intake(db: Db, outcome: ScanOutcome)

  function FingerprintOf(r: ScanRequest): Fingerprint {
    Fingerprint(r.location, r.person, r.action)
  }

  function KeyOf(r: ScanRequest): IdempotencyKey
    requires r.keyHash.Some?
  {
    IdempotencyKey(r.tenant, r.keyHash.value)
  }

  /** findIdempotentReplay: the answer of an unexpired record, or none. It is read without a lock first. */
  function FindReplay(db: Db, r: ScanRequest, now: Ms): Option<ScanOutcome> {
    if r.keyHash.None? || KeyOf(r) !in db.idempotency || db.idempotency[KeyOf(r)].expiresAt <= now then None
    else
      var record := db.idempotency[KeyOf(r)];
      if record.fingerprint != FingerprintOf(r) then Some(KeyConflict)
      else if record.job !in db.jobs || db.jobs[record.job].tenant != r.tenant
        || db.jobs[record.job].scan !in db.scans then Some(ResultNotFound)
      else
        var job := db.jobs[record.job];
        var scan := db.scans[job.scan];
        if scan.action == UnknownAction || job.action != scan.action then Some(ResultInvalid)
        else Some(Replayed(job.scan, record.job))
  }

  predicate SamePlace(s: Scan, r: ScanRequest) {
    s.tenant == r.tenant && s.location == r.location && s.person == r.person
  }

  /** The scan has a mail job that was not canceled. */
  ghost predicate Effective(db: Db, s: ScanId) {
    exists j :: j in db.jobs && db.jobs[j].scan == s && db.jobs[j].status != Canceled
  }

  /** The WHERE clause of the duplicate lookup. It has no upper bound on receivedAt. */
  ghost predicate Duplicates(db: Db, r: ScanRequest, received: Ms, s: ScanId) {
    && s in db.scans && SamePlace(db.scans[s], r)
    && db.scans[s].receivedAt > received - DEDUPLICATION_WINDOW_MS
    && Effective(db, s)
  }

  /** ORDER BY received_at DESC, id DESC */
  predicate Later(db: Db, s: ScanId, t: ScanId)
    requires s in db.scans && t in db.scans
  {
    db.scans[s].receivedAt > db.scans[t].receivedAt
    || (db.scans[s].receivedAt == db.scans[t].receivedAt && s >= t)
  }

  ghost predicate IsLatestDuplicate(db: Db, r: ScanRequest, received: Ms, s: ScanId) {
    && Duplicates(db, r, received, s)
    && forall t | t in db.scans && Duplicates(db, r, received, t) :: Later(db, s, t)
  }

  ghost predicate IsJobOf(db: Db, s: ScanId, j: JobId) {
    j in db.jobs && db.jobs[j].scan == s
  }

  /** storeIdempotency */
  function StoreKey(db: Db, r: ScanRequest, scan: ScanId, job: JobId, received: Ms): Db {
    if r.keyHash.None? then db
    else db.(idempotency := db.idempotency[KeyOf(r) :=
      Idempotency(FingerprintOf(r), scan, job, received + IDEMPOTENCY_RETENTION_MS)])
  }

  function NewScan(r: ScanRequest, nowUs: Us): Scan {
    Scan(r.tenant, r.location, r.person, r.action, TruncMs(nowUs), RoundMs(nowUs), None)
  }

  /** The column defaults put both deadlines ten seconds after the transaction started. */
  function NewJob(r: ScanRequest, scan: ScanId, nowUs: Us): Job {
    var deadline := Some(RoundMs(nowUs + CANCEL_WINDOW_US));
    Job(r.tenant, r.location, r.person, scan, r.action, Waiting, 0, None, deadline, deadline, None, None, None, None)
  }

  function InsertScan(db: Db, r: ScanRequest, nowUs: Us, scan: ScanId, job: JobId): Db {
    db.(scans := db.scans[scan := NewScan(r, nowUs)], jobs := db.jobs[job := NewJob(r, scan, nowUs)])
  }

  lemma {:induction false} LatestDuplicateExists(db: Db, r: ScanRequest, received: Ms, candidates: set<ScanId>)
    returns (s: ScanId)
    requires candidates != {} && forall t | t in candidates :: t in db.scans
    ensures s in candidates && forall t | t in candidates :: t in db.scans && Later(db, s, t)
    decreases |candidates|
  {
    s :| s in candidates;
    var rest := candidates - {s};
    if rest != {} {
      var t := LatestDuplicateExists(db, r, received, rest);
      if !Later(db, s, t) { s := t; }
    }
  }

  lemma LatestExistsIfAny(db: Db, r: ScanRequest, received: Ms)
    requires exists s :: Duplicates(db, r, received, s)
    ensures exists s :: IsLatestDuplicate(db, r, received, s)
  {
    var candidates := set s | s in db.scans && Duplicates(db, r, received, s);
    var any :| Duplicates(db, r, received, any);
    assert any in candidates;
    var s := LatestDuplicateExists(db, r, received, candidates);
    assert IsLatestDuplicate(db, r, received, s);
  }

  /**
   The locked transaction. `nowUs` is its CURRENT_TIMESTAMP; `scan` and `job` are the fresh
   identifiers that are used if a scan is created.
   */
  ghost function CreateScan(db: Db, r: ScanRequest, nowUs: Us, scan: ScanId, job: JobId): Intake {
    var received := TruncMs(nowUs);
    match FindReplay(db, r, received)
    case Some(outcome) => Intake(db, outcome)
    case None =>
      if exists s :: Duplicates(db, r, received, s) then
        LatestExistsIfAny(db, r, received);
        var s :| IsLatestDuplicate(db, r, received, s);
        if db.scans[s].action != r.action then Intake(db, ActionConflict(s))
        else
          assert exists j :: IsJobOf(db, s, j) by {
            var j :| j in db.jobs && db.jobs[j].scan == s;
            assert IsJobOf(db, s, j);
          }
          var j :| IsJobOf(db, s, j);
          Intake(StoreKey(db, r, s, j, received), Deduplicated(s, j))
      else
        Intake(StoreKey(InsertScan(db, r, nowUs, scan, job), r, scan, job, received), Created(scan, job))
  }
}
