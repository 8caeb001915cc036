/** What a scan request is answered and what it writes, in the fields of the rows that were there before. */
module IntakeOutcomes {
  import opened Base
  import opened MailTables
  import opened ScanIntake
  import opened MailProtocol
  import opened IntakeInvariant

  /** The scan is of the requested person at the requested place, less than ten seconds old, and its mail is not canceled. */
  ghost predicate JustScanned(db: Db, r: ScanRequest, now: Ms, s: ScanId) {
    && s in db.scans && db.scans[s].tenant == r.tenant && db.scans[s].location == r.location && db.scans[s].person == r.person
    && db.scans[s].receivedAt > now - 10_000
    && exists j :: j in db.jobs && db.jobs[j].scan == s && db.jobs[j].status != Canceled
  }

  /** The last such scan; of two in one millisecond the one with the greater identifier. */
  ghost predicate LastScanned(db: Db, r: ScanRequest, now: Ms, s: ScanId) {
    && JustScanned(db, r, now, s)
    && forall t: ScanId | JustScanned(db, r, now, t) ::
         db.scans[t].receivedAt < db.scans[s].receivedAt || (db.scans[t].receivedAt == db.scans[s].receivedAt && t <= s)
  }

  /** No record answers the request: it has no key, or the key is unused, or its record has expired. */
  predicate Unanswered(db: Db, r: ScanRequest, now: Ms) {
    r.keyHash.Some? ==>
      var k := IdempotencyKey(r.tenant, r.keyHash.value);
      k !in db.idempotency || db.idempotency[k].expiresAt <= now
  }

  lemma DuplicatesAreJustScanned(db: Db, r: ScanRequest, now: Ms, s: ScanId)
    ensures Duplicates(db, r, now, s) <==> JustScanned(db, r, now, s)
  {
    if Duplicates(db, r, now, s) {
      var j :| j in db.jobs && db.jobs[j].scan == s && db.jobs[j].status != Canceled;
      assert j in db.jobs;
    }
    if JustScanned(db, r, now, s) {
      var j :| j in db.jobs && db.jobs[j].scan == s && db.jobs[j].status != Canceled;
      assert Effective(db, s);
    }
  }

  lemma LatestIsLastScanned(db: Db, r: ScanRequest, now: Ms, s: ScanId)
    ensures IsLatestDuplicate(db, r, now, s) <==> LastScanned(db, r, now, s)
  {
    forall t ensures Duplicates(db, r, now, t) <==> JustScanned(db, r, now, t) { DuplicatesAreJustScanned(db, r, now, t); }
  }

  lemma OneLastScanned(db: Db, r: ScanRequest, now: Ms, s: ScanId, t: ScanId)
    requires LastScanned(db, r, now, s) && LastScanned(db, r, now, t)
    ensures s == t
  {
  }

  /** The branch with a last scan answers about that scan. */
  lemma {:induction false} DuplicateBranch(db: Db, r: ScanRequest, nowUs: Us, scan: ScanId, job: JobId, s: ScanId)
    requires Paired(db) && Unanswered(db, r, nowUs / 1000) && LastScanned(db, r, nowUs / 1000, s)
    ensures var i := CreateScan(db, r, nowUs, scan, job);
            if db.scans[s].action != r.action then i == Intake(db, ActionConflict(s))
            else i.outcome.Deduplicated? && i.outcome.scan == s && i.outcome.job in db.jobs && db.jobs[i.outcome.job].scan == s
                 && i.db == StoreKey(db, r, s, i.outcome.job, nowUs / 1000)
  {
    var now := nowUs / 1000;
    assert FindReplay(db, r, now).None?;
    LatestIsLastScanned(db, r, now, s);
    assert Duplicates(db, r, now, s);
    forall t | IsLatestDuplicate(db, r, now, t) ensures t == s {
      LatestIsLastScanned(db, r, now, t);
      OneLastScanned(db, r, now, s, t);
    }
  }

  lemma {:induction false} CreationBranch(db: Db, r: ScanRequest, nowUs: Us, scan: ScanId, job: JobId)
    requires Unanswered(db, r, nowUs / 1000) && forall s :: !JustScanned(db, r, nowUs / 1000, s)
    ensures CreateScan(db, r, nowUs, scan, job) ==
            Intake(StoreKey(InsertScan(db, r, nowUs, scan, job), r, scan, job, nowUs / 1000), Created(scan, job))
  {
    var now := nowUs / 1000;
    assert FindReplay(db, r, now).None?;
    forall s ensures !Duplicates(db, r, now, s) { DuplicatesAreJustScanned(db, r, now, s); }
  }

  lemma LastExistsIfAny(db: Db, r: ScanRequest, now: Ms, any: ScanId) returns (s: ScanId)
    requires JustScanned(db, r, now, any)
    ensures LastScanned(db, r, now, s)
  {
    DuplicatesAreJustScanned(db, r, now, any);
    LatestExistsIfAny(db, r, now);
    s :| IsLatestDuplicate(db, r, now, s);
    LatestIsLastScanned(db, r, now, s);
  }

  /**
   The answer of a request that no record answers, over all tables: the last scan of the same person at
   the same place within ten seconds, with its job, if its action is the requested one; a conflict with
   that scan if its action is the other; and a new scan with its job exactly if there is none.
   */
  lemma {:induction false} AnswerIsExact(db: Db, r: ScanRequest, nowUs: Us, scan: ScanId, job: JobId)
    requires Paired(db) && Unanswered(db, r, nowUs / 1000)
    ensures var now, outcome := nowUs / 1000, CreateScan(db, r, nowUs, scan, job).outcome;
            && (forall s, j :: outcome == Deduplicated(s, j) <==>
                  LastScanned(db, r, now, s) && db.scans[s].action == r.action && j in db.jobs && db.jobs[j].scan == s)
            && (forall s :: outcome == ActionConflict(s) <==> LastScanned(db, r, now, s) && db.scans[s].action != r.action)
            && (outcome == Created(scan, job) <==> forall s :: !JustScanned(db, r, now, s))
  {
    var now := nowUs / 1000;
    if any :| JustScanned(db, r, now, any) {
      var s := LastExistsIfAny(db, r, now, any);
      DuplicateBranch(db, r, nowUs, scan, job, s);
      forall t | LastScanned(db, r, now, t) ensures t == s { OneLastScanned(db, r, now, s, t); }
    } else {
      CreationBranch(db, r, nowUs, scan, job);
    }
  }

  /** The new scan: received and created at the transaction's start, each column with its own rounding. */
  predicate IsNewScan(c: Scan, r: ScanRequest, nowUs: Us) {
    && c.tenant == r.tenant && c.location == r.location && c.person == r.person && c.action == r.action
    && c.receivedAt == nowUs / 1000 && c.createdAt == (nowUs + 500) / 1000 && c.canceledAt.None?
  }

  /** Its job waits ten seconds, in which it can be canceled and after which it can be sent. */
  predicate IsNewJob(j: Job, r: ScanRequest, scan: ScanId, nowUs: Us) {
    && j.tenant == r.tenant && j.location == r.location && j.person == r.person && j.action == r.action && j.scan == scan
    && j.status == Waiting && j.retryCount == 0 && j.scheduledAt.None? && j.claimAttempt.None? && j.claimedAt.None?
    && j.error.None? && j.sentAt.None?
    && j.cancelUntil == j.sendNotBefore == Some((nowUs + 10_000_500) / 1000)
  }

  /** The record that binds the request's key to the answer, for a day; all other records stay. */
  predicate BindsKey(db: Db, db': Db, r: ScanRequest, scan: ScanId, job: JobId, nowUs: Us) {
    db'.idempotency ==
      if r.keyHash.None? then db.idempotency
      else db.idempotency[IdempotencyKey(r.tenant, r.keyHash.value) :=
             Idempotency(Fingerprint(r.location, r.person, r.action), scan, job, nowUs / 1000 + 86_400_000)]
  }

  lemma UnansweredExactly(db: Db, r: ScanRequest, now: Ms)
    ensures Unanswered(db, r, now) <==> FindReplay(db, r, now).None?
  {
  }

  lemma CreationWrites(db: Db, r: ScanRequest, nowUs: Us, scan: ScanId, job: JobId)
    ensures var db' := StoreKey(InsertScan(db, r, nowUs, scan, job), r, scan, job, nowUs / 1000);
            && scan in db'.scans && job in db'.jobs && db'.attempts == db.attempts && db'.tenants == db.tenants
            && db'.scans == db.scans[scan := db'.scans[scan]] && db'.jobs == db.jobs[job := db'.jobs[job]]
            && IsNewScan(db'.scans[scan], r, nowUs) && IsNewJob(db'.jobs[job], r, scan, nowUs) && BindsKey(db, db', r, scan, job, nowUs)
  {
  }

  lemma StoreWrites(db: Db, r: ScanRequest, nowUs: Us, s: ScanId, j: JobId)
    ensures var db' := StoreKey(db, r, s, j, nowUs / 1000);
            && db'.scans == db.scans && db'.jobs == db.jobs && db'.attempts == db.attempts && db'.tenants == db.tenants
            && BindsKey(db, db', r, s, j, nowUs)
  {
  }

  /**
   What each answer writes: a new scan adds its two rows and nothing else, a repeated one at most the
   record of its key, and a conflict, a replay or an error nothing.
   */
  lemma {:induction false} AnswersWriteExactly(db: Db, r: ScanRequest, nowUs: Us, scan: ScanId, job: JobId)
    requires Paired(db)
    ensures var i := CreateScan(db, r, nowUs, scan, job);
            && i.db.attempts == db.attempts && i.db.tenants == db.tenants
            && (i.outcome.Created? ==>
                  && scan in i.db.scans && job in i.db.jobs
                  && i.db.scans == db.scans[scan := i.db.scans[scan]] && i.db.jobs == db.jobs[job := i.db.jobs[job]]
                  && IsNewScan(i.db.scans[scan], r, nowUs) && IsNewJob(i.db.jobs[job], r, scan, nowUs)
                  && BindsKey(db, i.db, r, scan, job, nowUs))
            && (i.outcome.Deduplicated? ==>
                  i.db.scans == db.scans && i.db.jobs == db.jobs && BindsKey(db, i.db, r, i.outcome.scan, i.outcome.job, nowUs))
            && (!i.outcome.Created? && !i.outcome.Deduplicated? ==> i.db == db)
            && (i.outcome.Created? || i.outcome.Deduplicated? ==> Unanswered(db, r, nowUs / 1000))
  {
    var now := nowUs / 1000;
    UnansweredExactly(db, r, now);
    if Unanswered(db, r, now) {
      if any :| JustScanned(db, r, now, any) {
        var s := LastExistsIfAny(db, r, now, any);
        DuplicateBranch(db, r, nowUs, scan, job, s);
        if db.scans[s].action == r.action { StoreWrites(db, r, nowUs, s, CreateScan(db, r, nowUs, scan, job).outcome.job); }
      } else {
        CreationBranch(db, r, nowUs, scan, job);
        CreationWrites(db, r, nowUs, scan, job);
      }
    } else {
      AnsweredWritesNothing(db, r, nowUs, scan, job);
    }
  }

  lemma AnsweredWritesNothing(db: Db, r: ScanRequest, nowUs: Us, scan: ScanId, job: JobId)
    requires FindReplay(db, r, nowUs / 1000).Some?
    ensures var i := CreateScan(db, r, nowUs, scan, job); i.db == db && !i.outcome.Created? && !i.outcome.Deduplicated?
  {
  }
}
