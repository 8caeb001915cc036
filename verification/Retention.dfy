/**
 One-year retention of scan families: the query that selects due families, the recheck inside the
 purge transaction, and the alarm query that counts the due families that must not be purged.
 */
module Retention {
  import opened Base
  import opened MailTables
  import opened MailTransactions

  datatype RetentionOutcome = Deleted | NotDue | RetentionBlocked

  datatype FamilyPurge = FamilyPurge(db: Db, outcome: RetentionOutcome)

  predicate IsDue(addYear: Calendar, s: Scan, nowUs: Us) {
    addYear(s.createdAt) * 1000 <= nowUs
  }

  /** A due scan of a tenant that is not in deletion: what the backlog query counts. */
  predicate InBacklog(addYear: Calendar, db: Db, scan: ScanId, nowUs: Us) {
    && scan in db.scans
    && db.scans[scan].tenant in db.tenants && !InDeletion(db.tenants[db.scans[scan].tenant])
    && IsDue(addYear, db.scans[scan], nowUs)
  }

  /** The EXISTS over mail_jobs that dueScanFamilies negates and the alarm query asserts. */
  predicate HasUnsafeMail(db: Db, scan: ScanId)
    requires scan in db.scans
  {
    exists j :: j in db.jobs && db.jobs[j].scan == scan
      && (|| db.jobs[j].tenant != db.scans[scan].tenant
          || !TerminalStatus(db.jobs[j].status)
          || (db.jobs[j].status == Failed && db.jobs[j].scheduledAt.Some?)
          || (db.jobs[j].status == DeliveryUnknown && !HasClosedUnknown(db, j))
          || exists a :: a in db.attempts && db.attempts[a].job == j
               && (db.attempts[a].tenant != db.scans[scan].tenant || InFlight(db.attempts[a])))
  }

  predicate NamesFamily(db: Db, i: Idempotency, scan: ScanId) {
    i.scan == scan || (i.job in db.jobs && db.jobs[i.job].scan == scan)
  }

  predicate HasForeignKeyRecord(db: Db, scan: ScanId)
    requires scan in db.scans
  {
    exists k :: k in db.idempotency && NamesFamily(db, db.idempotency[k], scan) && k.tenant != db.scans[scan].tenant
  }

  /** dueScanFamilies, before its LIMIT */
  predicate Selected(addYear: Calendar, db: Db, scan: ScanId, nowUs: Us) {
    InBacklog(addYear, db, scan, nowUs) && !HasUnsafeMail(db, scan) && !HasForeignKeyRecord(db, scan)
  }

  /** The families the scheduler's "unsafe" query counts. */
  predicate CountedUnsafe(addYear: Calendar, db: Db, scan: ScanId, nowUs: Us) {
    InBacklog(addYear, db, scan, nowUs) && (HasUnsafeMail(db, scan) || HasForeignKeyRecord(db, scan))
  }

  // ---- purgeScanFamily ----------------------------------------------------------------------

  /** The first recheck, in application code over the locked job rows. */
  predicate JobRowsBlock(db: Db, tenant: TenantId, scan: ScanId) {
    exists j :: j in db.jobs && db.jobs[j].scan == scan
      && (db.jobs[j].tenant != tenant || !TerminalStatus(db.jobs[j].status)
          || (db.jobs[j].status == Failed && db.jobs[j].scheduledAt.Some?))
  }

  /** The second recheck, in SQL. */
  predicate AttemptRowsBlock(db: Db, tenant: TenantId, scan: ScanId) {
    exists j :: j in db.jobs && db.jobs[j].scan == scan
      && (|| (db.jobs[j].status == DeliveryUnknown && !HasClosedUnknown(db, j))
          || exists a :: a in db.attempts && db.attempts[a].job == j
               && (db.attempts[a].tenant != tenant || InFlight(db.attempts[a])))
  }

  predicate ForeignRecordBlocks(db: Db, tenant: TenantId, scan: ScanId) {
    exists k :: k in db.idempotency && NamesFamily(db, db.idempotency[k], scan) && k.tenant != tenant
  }

  function WithoutRecords(db: Db, tenant: TenantId, scan: ScanId): Db {
    db.(idempotency := map k | k in db.idempotency
      && !(k.tenant == tenant && NamesFamily(db, db.idempotency[k], scan)) :: db.idempotency[k])
  }

  predicate AttemptOfFamily(db: Db, at: Attempt, scan: ScanId) {
    at.job in db.jobs && db.jobs[at.job].scan == scan
  }

  function WithoutAttempts(db: Db, tenant: TenantId, scan: ScanId): Db {
    db.(attempts := map a | a in db.attempts
      && !(db.attempts[a].tenant == tenant && AttemptOfFamily(db, db.attempts[a], scan)) :: db.attempts[a])
  }

  function WithoutJobs(db: Db, tenant: TenantId, scan: ScanId): Db {
    db.(jobs := map j | j in db.jobs && !(db.jobs[j].tenant == tenant && db.jobs[j].scan == scan) :: db.jobs[j])
  }

  function WithoutScan(db: Db, tenant: TenantId, scan: ScanId): Db {
    db.(scans := map s | s in db.scans && !(s == scan && db.scans[s].tenant == tenant) :: db.scans[s])
  }

  function DropFamily(db: Db, tenant: TenantId, scan: ScanId): Db {
    WithoutScan(WithoutJobs(WithoutAttempts(WithoutRecords(db, tenant, scan), tenant, scan), tenant, scan), tenant, scan)
  }

  function PurgeFamily(addYear: Calendar, db: Db, tenant: TenantId, scan: ScanId, nowUs: Us): FamilyPurge {
    if tenant !in db.tenants || InDeletion(db.tenants[tenant]) then FamilyPurge(db, RetentionBlocked)
    else if scan !in db.scans || db.scans[scan].tenant != tenant || !IsDue(addYear, db.scans[scan], nowUs) then FamilyPurge(db, NotDue)
    else if JobRowsBlock(db, tenant, scan) then FamilyPurge(db, RetentionBlocked)
    else if AttemptRowsBlock(db, tenant, scan) then FamilyPurge(db, RetentionBlocked)
    else if ForeignRecordBlocks(db, tenant, scan) then FamilyPurge(db, RetentionBlocked)
    else FamilyPurge(DropFamily(db, tenant, scan), Deleted)
  }

  datatype RunResult = RunResult(db: Db, deleted: nat, blocked: nat)

  /** The scan loop of RecordRetentionSchedulerService.runOnce over the rows that were selected. */
  function PurgeAll(addYear: Calendar, db: Db, scans: seq<(TenantId, ScanId)>, nowUs: Us): RunResult
    decreases |scans|
  {
    if scans == [] then RunResult(db, 0, 0)
    else
      var p := PurgeFamily(addYear, db, scans[0].0, scans[0].1, nowUs);
      var rest := PurgeAll(addYear, p.db, scans[1..], nowUs);
      rest.(deleted := rest.deleted + (if p.outcome == Deleted then 1 else 0),
            blocked := rest.blocked + (if p.outcome == RetentionBlocked then 1 else 0))
  }
}
