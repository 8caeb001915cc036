/**
 Retention: the three queries agree at every instant, a purge removes exactly one family, a run
 accounts for its whole backlog, and in reachable states the safety rechecks reduce to one simple
 condition on the family's job.
 */
module RetentionTheorems {
  import opened Base
  import opened MailTables
  import opened ProviderVerdict
  import opened MailTransactions
  import opened ScanIntake
  import opened Retention
  import opened MailProtocol
  import opened MailInvariant
  import opened IntakeInvariant
  import opened MailRuns
  import opened MailTheorems

  // ---- the three queries ----------------------------------------------------------------------------

  /** On any database, the backlog splits exactly into the selected families and the alarmed ones. */
  lemma BacklogSplits(addYear: Calendar, db: Db, scan: ScanId, nowUs: Us)
    ensures InBacklog(addYear, db, scan, nowUs) <==> Selected(addYear, db, scan, nowUs) || CountedUnsafe(addYear, db, scan, nowUs)
    ensures !(Selected(addYear, db, scan, nowUs) && CountedUnsafe(addYear, db, scan, nowUs))
  {
  }

  /** The two rechecks together are the one condition of the selecting query. */
  lemma RechecksAgree(db: Db, scan: ScanId)
    requires scan in db.scans
    ensures var t := db.scans[scan].tenant;
            HasUnsafeMail(db, scan) <==> JobRowsBlock(db, t, scan) || AttemptRowsBlock(db, t, scan)
    ensures HasForeignKeyRecord(db, scan) <==> ForeignRecordBlocks(db, db.scans[scan].tenant, scan)
  {
    var t := db.scans[scan].tenant;
    if HasUnsafeMail(db, scan) {
      var j :| j in db.jobs && db.jobs[j].scan == scan
        && (|| db.jobs[j].tenant != t || !TerminalStatus(db.jobs[j].status) || (db.jobs[j].status == Failed && db.jobs[j].scheduledAt.Some?)
            || (db.jobs[j].status == DeliveryUnknown && !HasClosedUnknown(db, j))
            || exists a :: a in db.attempts && db.attempts[a].job == j && (db.attempts[a].tenant != t || InFlight(db.attempts[a])));
      if !JobRowsBlock(db, t, scan) { assert AttemptRowsBlock(db, t, scan); }
    }
  }

  /** A purge at the same instant deletes a family exactly if the query selects it. */
  lemma SelectedIffDeleted(addYear: Calendar, db: Db, scan: ScanId, nowUs: Us)
    requires scan in db.scans
    ensures Selected(addYear, db, scan, nowUs) <==>
            PurgeFamily(addYear, db, db.scans[scan].tenant, scan, nowUs).outcome == Deleted
  {
    RechecksAgree(db, scan);
  }

  // ---- one year -------------------------------------------------------------------------------------

  /**
   The deadline itself: a family is deleted only when its scan is a year old, and a family of a tenant
   that is not in deletion is "not due" exactly before that; a family of a tenant in deletion is always
   blocked. What is selected or counted as unsafe is a year old too, and stays so.
   */
  lemma NothingBeforeAYear(addYear: Calendar, db: Db, tenant: TenantId, scan: ScanId, nowUs: Us)
    ensures var outcome := PurgeFamily(addYear, db, tenant, scan, nowUs).outcome;
            && (outcome == Deleted ==>
                  scan in db.scans && db.scans[scan].tenant == tenant && addYear(db.scans[scan].createdAt) * 1000 <= nowUs)
            && (scan in db.scans && db.scans[scan].tenant == tenant && tenant in db.tenants
                && (db.tenants[tenant] == Active || db.tenants[tenant] == Inactive) ==>
                  (outcome == NotDue <==> nowUs < addYear(db.scans[scan].createdAt) * 1000))
            && (tenant in db.tenants && db.tenants[tenant] != Active && db.tenants[tenant] != Inactive ==> outcome == RetentionBlocked)
    ensures Selected(addYear, db, scan, nowUs) || CountedUnsafe(addYear, db, scan, nowUs) <==>
            && scan in db.scans && db.scans[scan].tenant in db.tenants
            && (db.tenants[db.scans[scan].tenant] == Active || db.tenants[db.scans[scan].tenant] == Inactive)
            && addYear(db.scans[scan].createdAt) * 1000 <= nowUs
  {
  }

  /** A family once due stays due: a later selection still selects it, if its rows are as they were. */
  lemma DueStaysDue(addYear: Calendar, db: Db, scan: ScanId, nowUs: Us, laterUs: Us)
    requires nowUs <= laterUs
    ensures Selected(addYear, db, scan, nowUs) ==> Selected(addYear, db, scan, laterUs)
    ensures CountedUnsafe(addYear, db, scan, nowUs) ==> CountedUnsafe(addYear, db, scan, laterUs)
    ensures scan in db.scans && PurgeFamily(addYear, db, db.scans[scan].tenant, scan, nowUs).outcome == Deleted ==>
              PurgeFamily(addYear, db, db.scans[scan].tenant, scan, laterUs).outcome == Deleted
  {
  }

  // ---- what a purge removes -----------------------------------------------------------------------

  /** Exactly the scan, its jobs, their attempts and every record that names the scan or a job of it. */
  ghost predicate ExactlyWithoutFamily(db: Db, db': Db, scan: ScanId) {
    && db'.tenants == db.tenants
    && db'.scans == (map s | s in db.scans && s != scan :: db.scans[s])
    && db'.jobs == (map j | j in db.jobs && db.jobs[j].scan != scan :: db.jobs[j])
    && db'.attempts == (map a | a in db.attempts && !AttemptOfFamily(db, db.attempts[a], scan) :: db.attempts[a])
    && db'.idempotency == (map k | k in db.idempotency && !NamesFamily(db, db.idempotency[k], scan) :: db.idempotency[k])
  }

  /** All rows of the family belong to one tenant. */
  ghost predicate OneTenant(db: Db, tenant: TenantId, scan: ScanId) {
    && scan in db.scans && db.scans[scan].tenant == tenant
    && (forall j | j in db.jobs && db.jobs[j].scan == scan :: db.jobs[j].tenant == tenant)
    && (forall a | a in db.attempts && AttemptOfFamily(db, db.attempts[a], scan) :: db.attempts[a].tenant == tenant)
    && (forall k | k in db.idempotency && NamesFamily(db, db.idempotency[k], scan) :: k.tenant == tenant)
  }

  lemma DeletedFamilyHasOneTenant(addYear: Calendar, db: Db, tenant: TenantId, scan: ScanId, nowUs: Us)
    requires PurgeFamily(addYear, db, tenant, scan, nowUs).outcome == Deleted
    ensures OneTenant(db, tenant, scan) && PurgeFamily(addYear, db, tenant, scan, nowUs).db == DropFamily(db, tenant, scan)
  {
    forall a | a in db.attempts && AttemptOfFamily(db, db.attempts[a], scan) ensures db.attempts[a].tenant == tenant {
      assert db.jobs[db.attempts[a].job].scan == scan;
    }
  }

  lemma DropIsExact(db: Db, tenant: TenantId, scan: ScanId)
    requires OneTenant(db, tenant, scan)
    ensures ExactlyWithoutFamily(db, DropFamily(db, tenant, scan), scan)
  {
    var d1 := WithoutRecords(db, tenant, scan);
    var d2 := WithoutAttempts(d1, tenant, scan);
    assert d1.idempotency == (map k | k in db.idempotency && !NamesFamily(db, db.idempotency[k], scan) :: db.idempotency[k]);
    assert d2.attempts == (map a | a in db.attempts && !AttemptOfFamily(db, db.attempts[a], scan) :: db.attempts[a]);
  }

  lemma RecordsGoFirst(db: Db, tenant: TenantId, scan: ScanId)
    requires ForeignKeys(db) && OneTenant(db, tenant, scan)
    ensures var d := WithoutRecords(db, tenant, scan);
            ForeignKeys(d) && forall k | k in d.idempotency :: !NamesFamily(d, d.idempotency[k], scan)
  {
  }

  lemma AttemptsGoNext(db: Db, tenant: TenantId, scan: ScanId)
    requires ForeignKeys(db) && forall a | a in db.attempts && AttemptOfFamily(db, db.attempts[a], scan) :: db.attempts[a].tenant == tenant
    ensures var d := WithoutAttempts(db, tenant, scan);
            ForeignKeys(d) && forall a | a in d.attempts :: !AttemptOfFamily(d, d.attempts[a], scan)
  {
  }

  lemma JobsGoThen(db: Db, tenant: TenantId, scan: ScanId)
    requires ForeignKeys(db) && forall a | a in db.attempts :: !AttemptOfFamily(db, db.attempts[a], scan)
    requires forall k | k in db.idempotency :: !NamesFamily(db, db.idempotency[k], scan)
    requires forall j | j in db.jobs && db.jobs[j].scan == scan :: db.jobs[j].tenant == tenant
    ensures var d := WithoutJobs(db, tenant, scan);
            && ForeignKeys(d) && (forall j | j in d.jobs :: d.jobs[j].scan != scan)
            && (forall k | k in d.idempotency :: d.idempotency[k].scan != scan)
  {
  }

  lemma ScanGoesLast(db: Db, tenant: TenantId, scan: ScanId)
    requires ForeignKeys(db) && (forall j | j in db.jobs :: db.jobs[j].scan != scan)
    requires forall k | k in db.idempotency :: db.idempotency[k].scan != scan
    ensures ForeignKeys(WithoutScan(db, tenant, scan))
  {
  }

  lemma NothingDangles(db: Db, tenant: TenantId, scan: ScanId)
    requires ForeignKeys(db) && OneTenant(db, tenant, scan)
    ensures var d1 := WithoutRecords(db, tenant, scan);
            var d2 := WithoutAttempts(d1, tenant, scan);
            var d3 := WithoutJobs(d2, tenant, scan);
            ForeignKeys(d1) && ForeignKeys(d2) && ForeignKeys(d3) && ForeignKeys(WithoutScan(d3, tenant, scan))
  {
    var d1 := WithoutRecords(db, tenant, scan);
    RecordsGoFirst(db, tenant, scan);
    AttemptsGoNext(d1, tenant, scan);
    JobsGoThen(WithoutAttempts(d1, tenant, scan), tenant, scan);
    ScanGoesLast(WithoutJobs(WithoutAttempts(d1, tenant, scan), tenant, scan), tenant, scan);
  }

  /**
   A purge that reports "deleted" removed exactly the family's closure, and no row refers to a
   missing row after any of its four deletes. The two count checks inside the transaction
   therefore never fail: every job of the scan belongs to the tenant, and so does the scan.
   */
  lemma PurgeRemovesExactlyTheFamily(addYear: Calendar, db: Db, tenant: TenantId, scan: ScanId, nowUs: Us)
    requires ForeignKeys(db) && PurgeFamily(addYear, db, tenant, scan, nowUs).outcome == Deleted
    ensures ExactlyWithoutFamily(db, PurgeFamily(addYear, db, tenant, scan, nowUs).db, scan)
    ensures OneTenant(db, tenant, scan)
    ensures var d1 := WithoutRecords(db, tenant, scan);
            var d2 := WithoutAttempts(d1, tenant, scan);
            var d3 := WithoutJobs(d2, tenant, scan);
            && ForeignKeys(d1) && ForeignKeys(d2) && ForeignKeys(d3)
            && PurgeFamily(addYear, db, tenant, scan, nowUs).db == WithoutScan(d3, tenant, scan)
            && ForeignKeys(WithoutScan(d3, tenant, scan))
  {
    DeletedFamilyHasOneTenant(addYear, db, tenant, scan, nowUs);
    DropIsExact(db, tenant, scan);
    NothingDangles(db, tenant, scan);
  }

  // ---- a whole run ----------------------------------------------------------------------------------

  ghost function Backlog(addYear: Calendar, db: Db, nowUs: Us): set<ScanId> {
    set s | s in db.scans && InBacklog(addYear, db, s, nowUs)
  }

  /** Purging one family takes it out of the backlog and touches nothing else there. */
  lemma PurgeShrinksBacklog(addYear: Calendar, db: Db, scan: ScanId, nowUs: Us)
    requires ForeignKeys(db) && Selected(addYear, db, scan, nowUs)
    ensures var db' := PurgeFamily(addYear, db, db.scans[scan].tenant, scan, nowUs).db;
            && Backlog(addYear, db', nowUs) == Backlog(addYear, db, nowUs) - {scan}
            && |Backlog(addYear, db, nowUs)| == |Backlog(addYear, db', nowUs)| + 1
            && ForeignKeys(db')
  {
    SelectedIffDeleted(addYear, db, scan, nowUs);
    PurgeRemovesExactlyTheFamily(addYear, db, db.scans[scan].tenant, scan, nowUs);
    var db' := PurgeFamily(addYear, db, db.scans[scan].tenant, scan, nowUs).db;
    assert Backlog(addYear, db', nowUs) == Backlog(addYear, db, nowUs) - {scan};
    assert scan in Backlog(addYear, db, nowUs);
  }

  /** Purging one family leaves every other selected family selected. */
  lemma OthersStaySelected(addYear: Calendar, db: Db, scan: ScanId, other: ScanId, nowUs: Us)
    requires ForeignKeys(db) && Selected(addYear, db, scan, nowUs) && Selected(addYear, db, other, nowUs) && other != scan
    ensures Selected(addYear, PurgeFamily(addYear, db, db.scans[scan].tenant, scan, nowUs).db, other, nowUs)
  {
    SelectedIffDeleted(addYear, db, scan, nowUs);
    var tenant := db.scans[scan].tenant;
    PurgeRemovesExactlyTheFamily(addYear, db, tenant, scan, nowUs);
    StaysSelected(addYear, db, PurgeFamily(addYear, db, tenant, scan, nowUs).db, scan, other, nowUs);
  }

  lemma StaysSelected(addYear: Calendar, db: Db, db': Db, scan: ScanId, other: ScanId, nowUs: Us)
    requires ExactlyWithoutFamily(db, db', scan) && Selected(addYear, db, other, nowUs) && other != scan
    ensures Selected(addYear, db', other, nowUs)
  {
    forall j | j in db'.jobs && db'.jobs[j].scan == other && HasClosedUnknown(db, j) ensures HasClosedUnknown(db', j) {
      var a :| a in db.attempts && ClosedUnknown(db.attempts[a], j);
      assert a in db'.attempts;
    }
    var t := db.scans[other].tenant;
    forall j | j in db'.jobs && db'.jobs[j].scan == other
      ensures db'.jobs[j].tenant == t && TerminalStatus(db'.jobs[j].status)
      ensures !(db'.jobs[j].status == Failed && db'.jobs[j].scheduledAt.Some?)
      ensures db'.jobs[j].status == DeliveryUnknown ==> HasClosedUnknown(db', j)
      ensures forall a | a in db'.attempts && db'.attempts[a].job == j :: db'.attempts[a].tenant == t && !InFlight(db'.attempts[a])
    {
      assert j in db.jobs && db.jobs[j].scan == other;
    }
  }

  /** A batch that dueScanFamilies may return: selected, distinct, with each scan's own tenant. */
  ghost predicate IsBatch(addYear: Calendar, db: Db, scans: seq<(TenantId, ScanId)>, nowUs: Us) {
    && (forall i | 0 <= i < |scans| :: Selected(addYear, db, scans[i].1, nowUs) && db.scans[scans[i].1].tenant == scans[i].0)
    && (forall i, j | 0 <= i < j < |scans| :: scans[i].1 != scans[j].1)
  }

  lemma BatchTail(addYear: Calendar, db: Db, scans: seq<(TenantId, ScanId)>, nowUs: Us)
    requires ForeignKeys(db) && IsBatch(addYear, db, scans, nowUs) && scans != []
    ensures IsBatch(addYear, PurgeFamily(addYear, db, scans[0].0, scans[0].1, nowUs).db, scans[1..], nowUs)
  {
    var db' := PurgeFamily(addYear, db, scans[0].0, scans[0].1, nowUs).db;
    SelectedIffDeleted(addYear, db, scans[0].1, nowUs);
    PurgeRemovesExactlyTheFamily(addYear, db, scans[0].0, scans[0].1, nowUs);
    forall i | 1 <= i < |scans|
      ensures Selected(addYear, db', scans[i].1, nowUs) && db'.scans[scans[i].1].tenant == scans[i].0
    {
      assert scans[0].1 != scans[i].1;
      OthersStaySelected(addYear, db, scans[0].1, scans[i].1, nowUs);
    }
  }

  /**
   An undisturbed run deletes every family it selected, blocks on none, and the backlog before it
   is what it deleted plus the backlog after it, whatever the batch size was.
   */
  lemma {:induction false} RunAccountsForBacklog(addYear: Calendar, db: Db, scans: seq<(TenantId, ScanId)>, nowUs: Us)
    requires ForeignKeys(db) && IsBatch(addYear, db, scans, nowUs)
    ensures var r := PurgeAll(addYear, db, scans, nowUs);
            && r.deleted == |scans| && r.blocked == 0
            && |Backlog(addYear, db, nowUs)| == r.deleted + |Backlog(addYear, r.db, nowUs)|
            && ForeignKeys(r.db)
    decreases |scans|
  {
    if scans != [] {
      assert Selected(addYear, db, scans[0].1, nowUs);
      SelectedIffDeleted(addYear, db, scans[0].1, nowUs);
      PurgeShrinksBacklog(addYear, db, scans[0].1, nowUs);
      BatchTail(addYear, db, scans, nowUs);
      RunAccountsForBacklog(addYear, PurgeFamily(addYear, db, scans[0].0, scans[0].1, nowUs).db, scans[1..], nowUs);
    }
  }

  /** Over any list, what a run counts as deleted is what is gone, and what it counts in all is no more than the list. */
  lemma {:induction false} RunCountsWhatIsGone(addYear: Calendar, db: Db, scans: seq<(TenantId, ScanId)>, nowUs: Us)
    ensures var r := PurgeAll(addYear, db, scans, nowUs);
            r.db.scans.Keys <= db.scans.Keys && |db.scans| == |r.db.scans| + r.deleted && r.deleted + r.blocked <= |scans|
    decreases |scans|
  {
    if scans != [] {
      PurgeTakesAtMostTheScan(addYear, db, scans[0].0, scans[0].1, nowUs);
      RunCountsWhatIsGone(addYear, PurgeFamily(addYear, db, scans[0].0, scans[0].1, nowUs).db, scans[1..], nowUs);
    }
  }

  lemma PurgeTakesAtMostTheScan(addYear: Calendar, db: Db, tenant: TenantId, scan: ScanId, nowUs: Us)
    ensures var p := PurgeFamily(addYear, db, tenant, scan, nowUs);
            if p.outcome == Deleted then scan in db.scans && p.db.scans.Keys == db.scans.Keys - {scan} && |db.scans| == |p.db.scans| + 1
            else p.db == db
  {
    var p := PurgeFamily(addYear, db, tenant, scan, nowUs);
    if p.outcome == Deleted {
      assert p.db.scans.Keys == db.scans.Keys - {scan};
      assert |db.scans.Keys| == |p.db.scans.Keys| + 1;
      assert |db.scans| == |db.scans.Keys| && |p.db.scans| == |p.db.scans.Keys|;
    }
  }

  /** A run over families that the alarm counts blocks on every one of them and deletes nothing. */
  lemma {:induction false} AlarmedAreBlocked(addYear: Calendar, db: Db, scans: seq<(TenantId, ScanId)>, nowUs: Us)
    requires forall x | x in scans :: CountedUnsafe(addYear, db, x.1, nowUs) && db.scans[x.1].tenant == x.0
    ensures PurgeAll(addYear, db, scans, nowUs) == RunResult(db, 0, |scans|)
    decreases |scans|
  {
    if scans != [] {
      assert scans[0] in scans;
      RechecksAgree(db, scans[0].1);
      AlarmedAreBlocked(addYear, db, scans[1..], nowUs);
    }
  }

  // ---- reachable states ---------------------------------------------------------------------------

  /** The outcome of the job is settled and will not change. */
  ghost predicate Settled(s: State, j: Job) {
    || j.status == Sent || j.status == Canceled
    || (j.status == Failed && j.scheduledAt.None?)
    || (j.status == DeliveryUnknown && j.claimAttempt.Some? && j.claimAttempt.value in s.db.attempts
        && s.db.attempts[j.claimAttempt.value].closedAt.Some?)
  }

  lemma QuietAttempts(s: State, job: JobId, a: AttemptId)
    requires Good(s) && job in s.db.jobs && Settled(s, s.db.jobs[job])
    requires a in s.db.attempts && s.db.attempts[a].job == job
    ensures !InFlight(s.db.attempts[a]) && s.db.attempts[a].tenant == s.db.jobs[job].tenant
  {
    if s.db.attempts[a].status == OutcomeUnknown { assert LastCall(s.db.attempts[a]); }
  }

  lemma SettledJobsPass(s: State, scan: ScanId, job: JobId)
    requires Good(s) && scan in s.db.scans && IsJobOf(s.db, scan, job) && Settled(s, s.db.jobs[job])
    ensures !JobRowsBlock(s.db, s.db.scans[scan].tenant, scan)
  {
  }

  lemma QuietFamilyPasses(db: Db, tenant: TenantId, scan: ScanId, job: JobId)
    requires forall j | j in db.jobs && db.jobs[j].scan == scan :: j == job
    requires forall a | a in db.attempts && db.attempts[a].job == job :: !InFlight(db.attempts[a]) && db.attempts[a].tenant == tenant
    requires job in db.jobs && db.jobs[job].status == DeliveryUnknown ==> HasClosedUnknown(db, job)
    ensures !AttemptRowsBlock(db, tenant, scan)
  {
  }

  lemma SettledUnknownIsClosed(s: State, job: JobId)
    requires Good(s) && job in s.db.jobs && Settled(s, s.db.jobs[job]) && s.db.jobs[job].status == DeliveryUnknown
    ensures HasClosedUnknown(s.db, job)
  {
    assert ClosedUnknown(s.db.attempts[s.db.jobs[job].claimAttempt.value], job);
  }

  lemma SettledAttemptsPass(s: State, scan: ScanId, job: JobId)
    requires Good(s) && scan in s.db.scans && IsJobOf(s.db, scan, job) && Settled(s, s.db.jobs[job])
    ensures !AttemptRowsBlock(s.db, s.db.scans[scan].tenant, scan)
  {
    var t := s.db.jobs[job].tenant;
    forall a | a in s.db.attempts && s.db.attempts[a].job == job ensures !InFlight(s.db.attempts[a]) && s.db.attempts[a].tenant == t {
      QuietAttempts(s, job, a);
    }
    if s.db.jobs[job].status == DeliveryUnknown { SettledUnknownIsClosed(s, job); }
    QuietFamilyPasses(s.db, t, scan, job);
  }

  lemma FamilyRecordsPass(db: Db, scan: ScanId)
    requires IntakeInv(db) && scan in db.scans
    ensures !ForeignRecordBlocks(db, db.scans[scan].tenant, scan)
  {
    forall k | k in db.idempotency && NamesFamily(db, db.idempotency[k], scan) ensures k.tenant == db.scans[scan].tenant {
      assert RecordOk(db, k);
    }
  }

  lemma SettledFamilyIsPurged(s: State, scan: ScanId, job: JobId, addYear: Calendar, nowUs: Us)
    requires Good(s) && scan in s.db.scans && IsJobOf(s.db, scan, job) && InBacklog(addYear, s.db, scan, nowUs)
    requires Settled(s, s.db.jobs[job])
    ensures PurgeFamily(addYear, s.db, s.db.scans[scan].tenant, scan, nowUs).outcome == Deleted
  {
    SettledJobsPass(s, scan, job);
    SettledAttemptsPass(s, scan, job);
    FamilyRecordsPass(s.db, scan);
  }

  lemma UnknownIsInFlight(s: State, job: JobId)
    requires Good(s) && job in s.db.jobs && !Settled(s, s.db.jobs[job]) && s.db.jobs[job].status == DeliveryUnknown
    ensures exists a :: a in s.db.attempts && s.db.attempts[a].job == job && InFlight(s.db.attempts[a])
  {
    var c := s.db.jobs[job].claimAttempt.value;
    assert s.db.attempts[c].status == OutcomeUnknown && InFlight(s.db.attempts[c]) && s.db.attempts[c].job == job;
  }

  lemma InFlightBlocks(db: Db, tenant: TenantId, scan: ScanId, job: JobId)
    requires IsJobOf(db, scan, job)
    requires exists a :: a in db.attempts && db.attempts[a].job == job && InFlight(db.attempts[a])
    ensures AttemptRowsBlock(db, tenant, scan)
  {
  }

  lemma UnsettledFamilyStays(s: State, scan: ScanId, job: JobId, addYear: Calendar, nowUs: Us)
    requires Good(s) && scan in s.db.scans && IsJobOf(s.db, scan, job) && !Settled(s, s.db.jobs[job])
    ensures PurgeFamily(addYear, s.db, s.db.scans[scan].tenant, scan, nowUs).outcome != Deleted
  {
    if s.db.jobs[job].status == DeliveryUnknown {
      UnknownIsInFlight(s, job);
      InFlightBlocks(s.db, s.db.scans[scan].tenant, scan, job);
    } else {
      assert JobRowsBlock(s.db, s.db.scans[scan].tenant, scan);
    }
  }

  /**
   In every reachable state a due family of a tenant that is not in deletion is purged exactly if
   its job is settled: the many other clauses of the recheck never decide. The family that stays
   behind has a job still in delivery, a call that never returned, or a retry of a location that left service.
   */
  lemma PurgedExactlyWhenSettled(s: State, scan: ScanId, job: JobId, addYear: Calendar, nowUs: Us)
    requires Reachable(s) && scan in s.db.scans && IsJobOf(s.db, scan, job) && InBacklog(addYear, s.db, scan, nowUs)
    ensures PurgeFamily(addYear, s.db, s.db.scans[scan].tenant, scan, nowUs).outcome == Deleted <==> Settled(s, s.db.jobs[job])
  {
    ReachableIsGood(s);
    if Settled(s, s.db.jobs[job]) {
      SettledFamilyIsPurged(s, scan, job, addYear, nowUs);
    } else {
      UnsettledFamilyStays(s, scan, job, addYear, nowUs);
    }
  }

  /** A call of the tenant may still return. */
  ghost predicate CallOutstanding(db: Db, tenant: TenantId) {
    exists a :: a in db.attempts && db.attempts[a].tenant == tenant
                && (db.attempts[a].completedAt.None? || (db.attempts[a].status == OutcomeUnknown && db.attempts[a].closedAt.None?))
  }

  lemma {:induction false} InFlightMeansOutstanding(s: State, tenant: TenantId)
    requires Reachable(s)
    ensures TenantMailInFlight(s.db, tenant) <==> CallOutstanding(s.db, tenant)
  {
    ReachableIsGood(s);
    if TenantMailInFlight(s.db, tenant) {
      var j :| j in s.db.jobs && s.db.jobs[j].tenant == tenant
        && (|| s.db.jobs[j].status == Processing
            || (s.db.jobs[j].status == DeliveryUnknown && !HasClosedUnknown(s.db, j))
            || exists a :: a in s.db.attempts && s.db.attempts[a].job == j && InFlight(s.db.attempts[a]));
      JobInFlightIsOutstanding(s, j);
    }
    if CallOutstanding(s.db, tenant) {
      var a :| a in s.db.attempts && s.db.attempts[a].tenant == tenant
               && (s.db.attempts[a].completedAt.None? || (s.db.attempts[a].status == OutcomeUnknown && s.db.attempts[a].closedAt.None?));
      assert InFlight(s.db.attempts[a]) && s.db.attempts[a].job in s.db.jobs && s.db.jobs[s.db.attempts[a].job].tenant == tenant;
    }
  }

  lemma JobInFlightIsOutstanding(s: State, j: JobId)
    requires Good(s) && j in s.db.jobs
    requires || s.db.jobs[j].status == Processing
             || (s.db.jobs[j].status == DeliveryUnknown && !HasClosedUnknown(s.db, j))
             || exists a :: a in s.db.attempts && s.db.attempts[a].job == j && InFlight(s.db.attempts[a])
    ensures CallOutstanding(s.db, s.db.jobs[j].tenant)
  {
    if a :| a in s.db.attempts && s.db.attempts[a].job == j && InFlight(s.db.attempts[a]) {
      assert s.db.attempts[a].tenant == s.db.jobs[j].tenant;
    } else {
      var c := s.db.jobs[j].claimAttempt.value;
      assert c in s.db.attempts && s.db.attempts[c].job == j && s.db.attempts[c].tenant == s.db.jobs[j].tenant;
      if s.db.jobs[j].status == DeliveryUnknown { assert !ClosedUnknown(s.db.attempts[c], j); }
    }
  }

  /**
   The purge of a tenant's records, in reachable states: it is carried out exactly if the tenant is
   pending and due and none of its calls may still return. Then no row of the tenant is left in any of
   the four tables, every row of every other tenant is as it was, and otherwise nothing is written.
   */
  lemma {:induction false} TenantPurgeTakesItsOwn(s: State, tenant: TenantId, due: bool)
    requires Reachable(s)
    ensures var db, db' := s.db, Apply(s, PurgeTenantStep(tenant, due)).db;
            if tenant in db.tenants && db.tenants[tenant] == PendingDelete && due && !CallOutstanding(db, tenant) then
              && db'.tenants == db.tenants[tenant := Purged]
              && (forall j :: j in db'.jobs <==> j in db.jobs && db.jobs[j].tenant != tenant)
              && (forall a :: a in db'.attempts <==> a in db.attempts && db.attempts[a].tenant != tenant)
              && (forall c :: c in db'.scans <==> c in db.scans && db.scans[c].tenant != tenant)
              && (forall k :: k in db'.idempotency <==> k in db.idempotency && k.tenant != tenant)
              && (forall j | j in db'.jobs :: db'.jobs[j] == db.jobs[j])
              && (forall a | a in db'.attempts :: db'.attempts[a] == db.attempts[a])
              && (forall c | c in db'.scans :: db'.scans[c] == db.scans[c])
              && (forall k | k in db'.idempotency :: db'.idempotency[k] == db.idempotency[k])
            else db' == db
  {
    InFlightMeansOutstanding(s, tenant);
  }

  /** Failed, and yet with a scheduled time: the one combination that retention takes for unfinished. */
  predicate Stranded(db: Db, job: JobId) {
    job in db.jobs && db.jobs[job].status == Failed && db.jobs[job].scheduledAt.Some?
  }

  lemma BlockStrandsNothing(db: Db, id: JobId, a: AttemptId, tenant: TenantId, reason: Reason, now: Ms, job: JobId)
    requires !Stranded(db, job)
    ensures !Stranded(BlockJob(db, id, a, tenant, reason, now), job)
  {
  }

  lemma VerdictStrandsNothing(db: Db, id: JobId, a: AttemptId, tenant: TenantId, retryCount: nat, v: Verdict, now: Ms, job: JobId)
    requires !Stranded(db, job)
    ensures !Stranded(RecordVerdict(db, id, a, tenant, retryCount, v, now), job)
  {
  }

  lemma ReserveStrandsNothing(db: Db, id: JobId, a: AttemptId, tenant: TenantId, nowUs: Us, job: JobId)
    requires !Stranded(db, job)
    ensures !Stranded(Reserve(db, id, a, tenant, nowUs), job)
  {
  }

  lemma RecoveryStrandsNothing(db: Db, row: StaleRow, now: Ms, job: JobId)
    requires !Stranded(db, job)
    ensures !Stranded(AfterRecovery(db, RecoverRow(db, row, now)), job)
  {
  }

  lemma WorkerStrandsNothing(s: State, step: Step, job: JobId)
    requires Enabled(s, step) && WorkerStep(step) && !Stranded(s.db, job)
    ensures !Stranded(Apply(s, step).db, job)
  {
    var w := s.workers[step.attempt];
    match step
    case GateStep(a, canSend, now) =>
      BlockStrandsNothing(s.db, w.job, a, w.tenant, if canSend then ResourceNotSendable else SubscriptionNotSendable, now, job);
    case ReserveStep(a, nowUs) => ReserveStrandsNothing(s.db, w.job, a, w.tenant, nowUs, job);
    case SandboxStep(_, _) =>
    case VerdictStep(a, result, now) =>
      VerdictStrandsNothing(s.db, w.job, a, w.tenant, w.retryCount, Judge(s.kind, result), now, job);
  }

  /**
   Nothing strands a job but a location's leaving service, by deactivation or by the scheduling of its
   deletion: every other step clears the schedule of a job it fails.
   */
  lemma OnlyLeavingServiceStrands(s: State, step: Step, job: JobId)
    requires Enabled(s, step) && !step.FailQueuedStep? && !Stranded(s.db, job)
    ensures !Stranded(Apply(s, step).db, job)
  {
    if WorkerStep(step) {
      WorkerStrandsNothing(s, step, job);
    } else {
      match step
      case ScanStep(r, nowUs, scan, id) => IntakeWrites(s.db, r, nowUs, scan, id);
      case RecoverStep(row, now) => RecoveryStrandsNothing(s.db, row, now, job);
      case PurgeFamilyStep(tenant, scan, addYear, nowUs) => PurgeFreezes(addYear, s.db, tenant, scan, nowUs, job);
      case CancelStep(_, _, _) =>
      case ClaimStep(_, _, _, _, _, _) =>
      case ArriveStep(_) =>
      case CrashStep(_) =>
      case ListStaleStep(_, _) =>
      case PurgeTenantStep(_, _) =>
      case TenantStep(_, _) =>
    }
  }

  lemma VerdictSettlesRows(db: Db, job: JobId, a: AttemptId, tenant: TenantId, retryCount: nat, v: Verdict, now: Ms)
    requires RowsFound(db, job, a, tenant) && db.jobs[job].claimAttempt == Some(a) && !v.Retry?
    ensures var db' := RecordVerdict(db, job, a, tenant, retryCount, v, now);
            var j := db'.jobs[job];
            && j.scheduledAt.None? && TerminalStatus(j.status)
            && (j.status == Sent <==> v.Delivered?) && (j.status == Failed <==> v.Reject?)
            && (j.status == Sent ==> j.sentAt == Some(now))
            && (j.status == DeliveryUnknown ==> j.claimAttempt == Some(a) && db'.attempts[a].closedAt == Some(now))
  {
  }

  /**
   A verdict other than a retry settles the job, also when it comes late, after recovery has written
   the job off: what was in flight can then be purged.
   */
  lemma VerdictSettles(s: State, a: AttemptId, result: SendResult, now: Ms)
    requires Good(s) && Enabled(s, VerdictStep(a, result, now)) && !Judge(s.kind, result).Retry?
    ensures var s' := Apply(s, VerdictStep(a, result, now));
            s.workers[a].job in s'.db.jobs && Settled(s', s'.db.jobs[s.workers[a].job])
  {
    CallingFacts(s, a);
    var w := s.workers[a];
    VerdictSettlesRows(s.db, w.job, a, w.tenant, w.retryCount, Judge(s.kind, result), now);
  }

  /** A scheduled job that fails because its location is deactivated, or its deletion scheduled, keeps its scheduled time. */
  lemma LeavingServiceKeepsSchedule(db: Db, tenant: TenantId, location: LocationId, reason: Reason, job: JobId)
    requires job in db.jobs && QueuedAt(db, job, tenant, location) && db.jobs[job].scheduledAt.Some?
    ensures var j := FailQueued(db, tenant, location, reason).jobs[job]; j.status == Failed && j.scheduledAt == db.jobs[job].scheduledAt
  {
  }

  /**
   Such a job blocks retention for good: in every run that does not purge its tenant, the row stays
   as it is and no purge of its family, by any calendar and at any time, ever deletes it.
   */
  lemma {:induction false} StrandedRetryBlocksForever(s: State, steps: seq<Step>, job: JobId)
    requires Good(s) && ValidRun(s, steps) && job in s.db.jobs
    requires s.db.jobs[job].status == Failed && s.db.jobs[job].scheduledAt.Some?
    requires forall st | st in steps :: st.PurgeTenantStep? ==> st.tenant != s.db.jobs[job].tenant
    ensures var s' := Exec(s, steps);
            && job in s'.db.jobs && s'.db.jobs[job] == s.db.jobs[job]
            && forall addYear: Calendar, tenant, nowUs ::
                 PurgeFamily(addYear, s'.db, tenant, s.db.jobs[job].scan, nowUs).outcome != Deleted
    decreases |steps|
  {
    if steps != [] {
      assert steps[0] in steps;
      FinalRowIsFrozen(s, steps[0], job);
      BlockedRowStays(s, steps[0], job);
      StepKeepsGood(s, steps[0]);
      StrandedRetryBlocksForever(Apply(s, steps[0]), steps[1..], job);
    }
  }

  lemma FamilyPurgeKeepsBlocked(addYear: Calendar, db: Db, tenant: TenantId, scan: ScanId, nowUs: Us, job: JobId)
    requires job in db.jobs && db.jobs[job].status == Failed && db.jobs[job].scheduledAt.Some?
    ensures job in PurgeFamily(addYear, db, tenant, scan, nowUs).db.jobs
  {
    var p := PurgeFamily(addYear, db, tenant, scan, nowUs);
    if p.outcome == Deleted { assert db.jobs[job].scan != scan; }
  }

  lemma RecoveryKeepsKeys(db: Db, row: StaleRow, now: Ms)
    ensures AfterRecovery(db, RecoverRow(db, row, now)).jobs.Keys == db.jobs.Keys
  {
    RecoveryWritesJob(db, row, now);
  }

  lemma BlockedRowStays(s: State, step: Step, job: JobId)
    requires Enabled(s, step) && job in s.db.jobs
    requires s.db.jobs[job].status == Failed && s.db.jobs[job].scheduledAt.Some?
    requires step.PurgeTenantStep? ==> step.tenant != s.db.jobs[job].tenant
    ensures job in Apply(s, step).db.jobs
  {
    match step
    case ScanStep(r, nowUs, scan, id) => IntakeWrites(s.db, r, nowUs, scan, id);
    case PurgeFamilyStep(tenant, scan, addYear, nowUs) => FamilyPurgeKeepsBlocked(addYear, s.db, tenant, scan, nowUs, job);
    case GateStep(_, _, _) => WorkerWritesOnly(s, step);
    case ReserveStep(_, _) => WorkerWritesOnly(s, step);
    case VerdictStep(_, _, _) => WorkerWritesOnly(s, step);
    case RecoverStep(row, now) => RecoveryKeepsKeys(s.db, row, now);
    case _ =>
  }
}
