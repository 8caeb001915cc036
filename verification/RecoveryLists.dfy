/** What a whole list of stale rows becomes: recovery recovers each of them, up to the first that raises. */
module RecoveryLists {
  import opened Base
  import opened MailTables
  import opened ProviderVerdict
  import opened MailTransactions
  import opened MailProtocol
  import opened MailInvariant
  import opened IntakeInvariant
  import opened MailRuns
  import opened MailProgress

  /** A stale row as it was just read: its job is in hand, and the attempt that the job names is open. */
  ghost predicate JustListed(db: Db, row: StaleRow) {
    && row.job in db.jobs && row == StaleRowOf(row.job, db.jobs[row.job]) && db.jobs[row.job].status == Processing
    && row.claim.Some? && row.claim.value in db.attempts && db.attempts[row.claim.value].job == row.job
    && db.attempts[row.claim.value].completedAt.None? && JobOk(db.jobs[row.job])
  }

  /** The claim never reached the provider, and the job was deferred by the limiter before its first retry. */
  predicate Stuck(db: Db, row: StaleRow) {
    && row.job in db.jobs && row.claim.Some? && row.claim.value in db.attempts && db.attempts[row.claim.value].invokedAt.None?
    && db.jobs[row.job].retryCount == 0 && db.jobs[row.job].sendNotBefore.Some? && db.jobs[row.job].scheduledAt.Some?
  }

  /** A call that may have been made is written off; a claim that never got there is given back to where it came from. */
  ghost predicate IsRecovered(db: Db, db': Db, row: StaleRow, now: Ms) {
    && row.job in db.jobs && row.claim.Some? && row.claim.value in db.attempts && row.job in db'.jobs && row.claim.value in db'.attempts
    && var j, at, j', at' := db.jobs[row.job], db.attempts[row.claim.value], db'.jobs[row.job], db'.attempts[row.claim.value];
    && at'.completedAt == Some(now) && at'.invokedAt == at.invokedAt && at'.closedAt == at.closedAt
    && if at.invokedAt.Some? then
         && j' == j.(status := DeliveryUnknown, error := Some(ProviderOutcomeUnknown))
         && at'.status == OutcomeUnknown && at'.error == Some(ProviderOutcomeUnknown)
       else
         && j' == j.(status := if j.retryCount == 0 && j.sendNotBefore.Some? then Waiting else Queued,
                     claimedAt := None, claimAttempt := None, error := None)
         && at'.status == Abandoned && at'.error == Some(StaleBeforeProvider)
  }

  /** Nothing but the row's own job and attempt differs. */
  ghost predicate OthersAsBefore(db: Db, db': Db, row: StaleRow) {
    && db'.jobs.Keys == db.jobs.Keys && db'.attempts.Keys == db.attempts.Keys
    && db' == db.(jobs := db'.jobs, attempts := db'.attempts)
    && (forall id | id in db.jobs && id != row.job :: db'.jobs[id] == db.jobs[id])
    && (forall a | a in db.attempts && row.claim != Some(a) :: db'.attempts[a] == db.attempts[a])
  }

  lemma RowIsRecovered(db: Db, row: StaleRow, now: Ms)
    requires JustListed(db, row)
    ensures var r := RecoverRow(db, row, now);
            if Stuck(db, row) then r == Raised(db)
            else r.Recovered? && IsRecovered(db, r.db, row, now) && OthersAsBefore(db, r.db, row)
  {
  }

  ghost predicate DistinctJobs(rows: seq<StaleRow>) {
    forall i, j | 0 <= i < j < |rows| :: rows[i].job != rows[j].job
  }

  /** Another listed row is still as it was listed. */
  lemma OtherStaysListed(db: Db, db': Db, row: StaleRow, other: StaleRow)
    requires JustListed(db, row) && JustListed(db, other) && other.job != row.job && OthersAsBefore(db, db', row)
    ensures JustListed(db', other) && (Stuck(db', other) <==> Stuck(db, other))
    ensures db'.jobs[other.job] == db.jobs[other.job] && db'.attempts[other.claim.value] == db.attempts[other.claim.value]
  {
  }

  /** The row's two rows have not changed since. */
  ghost predicate SameRows(db: Db, db': Db, row: StaleRow) {
    && row.job in db.jobs && row.job in db'.jobs && db'.jobs[row.job] == db.jobs[row.job]
    && row.claim.Some? && row.claim.value in db.attempts && row.claim.value in db'.attempts
    && db'.attempts[row.claim.value] == db.attempts[row.claim.value]
  }

  /** After the row `first` was handled, `r` is listed as before; it is of another job and claim. */
  ghost predicate ListedBehind(db: Db, db': Db, first: StaleRow, r: StaleRow) {
    JustListed(db', r) && (Stuck(db', r) <==> Stuck(db, r)) && SameRows(db, db', r) && r.job != first.job && r.claim != first.claim
  }

  /** Before the first stuck row. */
  ghost predicate Reached(db: Db, rows: seq<StaleRow>, k: nat) {
    k < |rows| && forall i: nat | i <= k :: !Stuck(db, rows[i])
  }

  lemma ReachedShifts(db: Db, db': Db, rows: seq<StaleRow>, k: nat)
    requires rows != [] && (forall r | r in rows :: JustListed(db, r)) && (forall r | r in rows[1..] :: JustListed(db', r))
    requires forall r | r in rows[1..] :: Stuck(db', r) <==> Stuck(db, r)
    requires !Stuck(db, rows[0])
    ensures Reached(db, rows, k + 1) <==> Reached(db', rows[1..], k)
  {
    if Reached(db', rows[1..], k) {
      forall i: nat | i <= k + 1 ensures !Stuck(db, rows[i]) {
        if i > 0 { assert rows[i] == rows[1..][i - 1]; }
      }
    }
    if Reached(db, rows, k + 1) {
      forall i: nat | i <= k ensures !Stuck(db', rows[1..][i]) { assert rows[1..][i] == rows[i + 1]; }
    }
  }

  /** Every row before the first stuck one is recovered; that one and what follows it stay as they are. */
  ghost predicate ListRecovered(db: Db, db': Db, rows: seq<StaleRow>, now: Ms) {
    forall k: nat | k < |rows| :: if Reached(db, rows, k) then IsRecovered(db, db', rows[k], now) else SameRows(db, db', rows[k])
  }

  /** A job that no row names is untouched. */
  ghost predicate UnlistedSame(db: Db, db': Db, rows: seq<StaleRow>) {
    && db'.jobs.Keys == db.jobs.Keys && db'.attempts.Keys == db.attempts.Keys
    && forall id | id in db.jobs && (forall r | r in rows :: r.job != id) :: db'.jobs[id] == db.jobs[id]
  }

  ghost predicate UnclaimedSame(db: Db, db': Db, rows: seq<StaleRow>) {
    forall a | a in db.attempts && (forall r | r in rows :: r.claim != Some(a)) :: a in db'.attempts && db'.attempts[a] == db.attempts[a]
  }

  lemma TailIsListed(db: Db, db': Db, rows: seq<StaleRow>)
    requires rows != [] && DistinctJobs(rows) && (forall r | r in rows :: JustListed(db, r)) && OthersAsBefore(db, db', rows[0])
    ensures DistinctJobs(rows[1..])
    ensures forall r | r in rows[1..] ::
              ListedBehind(db, db', rows[0], r)
  {
    forall r | r in rows[1..]
      ensures ListedBehind(db, db', rows[0], r)
    {
      var i :| 0 <= i < |rows[1..]| && rows[1..][i] == r;
      assert rows[i + 1] == r && rows[0] in rows;
      OtherStaysListed(db, db', rows[0], r);
    }
  }

  lemma {:induction false} ListIsRecovered(db: Db, rows: seq<StaleRow>, now: Ms)
    requires DistinctJobs(rows) && forall r | r in rows :: JustListed(db, r)
    ensures var run := RecoverAll(db, rows, now);
            && (run.raised <==> exists i: nat :: i < |rows| && Stuck(db, rows[i]))
            && ListRecovered(db, run.db, rows, now) && UnlistedSame(db, run.db, rows) && UnclaimedSame(db, run.db, rows)
    decreases |rows|
  {
    if rows != [] {
      assert rows[0] in rows;
      RowIsRecovered(db, rows[0], now);
      if !Stuck(db, rows[0]) {
        var db1 := RecoverRow(db, rows[0], now).db;
        TailIsListed(db, db1, rows);
        ListIsRecovered(db1, rows[1..], now);
        TailIsRecovered(db, db1, RecoverAll(db1, rows[1..], now).db, rows, now);
        RaisesInTail(db, db1, rows);
      } else {
        forall k: nat | k < |rows| ensures SameRows(db, db, rows[k]) && !Reached(db, rows, k) { assert rows[k] in rows; }
      }
    }
  }

  lemma RaisesInTail(db: Db, db1: Db, rows: seq<StaleRow>)
    requires rows != [] && (forall r | r in rows :: JustListed(db, r)) && (forall r | r in rows[1..] :: JustListed(db1, r))
    requires !Stuck(db, rows[0]) && forall r | r in rows[1..] :: Stuck(db1, r) <==> Stuck(db, r)
    ensures (exists i: nat :: i < |rows[1..]| && Stuck(db1, rows[1..][i])) <==> (exists i: nat :: i < |rows| && Stuck(db, rows[i]))
  {
    if i: nat :| i < |rows[1..]| && Stuck(db1, rows[1..][i]) { assert rows[i + 1] == rows[1..][i]; }
    if i: nat :| i < |rows| && Stuck(db, rows[i]) { assert rows[1..][i - 1] == rows[i]; }
  }

  /** What is known of the first row and of the rest when the first is not stuck. */
  ghost predicate FirstDone(db: Db, db1: Db, db': Db, rows: seq<StaleRow>, now: Ms) {
    && rows != [] && (forall r | r in rows :: JustListed(db, r)) && OthersAsBefore(db, db1, rows[0])
    && !Stuck(db, rows[0]) && IsRecovered(db, db1, rows[0], now)
    && (forall r | r in rows[1..] :: ListedBehind(db, db1, rows[0], r))
    && ListRecovered(db1, db', rows[1..], now) && UnlistedSame(db1, db', rows[1..]) && UnclaimedSame(db1, db', rows[1..])
  }

  lemma {:induction false} HeadStaysRecovered(db: Db, db1: Db, db': Db, rows: seq<StaleRow>, now: Ms)
    requires FirstDone(db, db1, db', rows, now)
    ensures IsRecovered(db, db', rows[0], now) && Reached(db, rows, 0)
  {
    assert rows[0] in rows;
  }

  lemma {:induction false} RowsAreRecovered(db: Db, db1: Db, db': Db, rows: seq<StaleRow>, now: Ms)
    requires FirstDone(db, db1, db', rows, now)
    ensures ListRecovered(db, db', rows, now)
  {
    HeadStaysRecovered(db, db1, db', rows, now);
    forall k: nat | k < |rows|
      ensures if Reached(db, rows, k) then IsRecovered(db, db', rows[k], now) else SameRows(db, db', rows[k])
    {
      if k > 0 {
        ReachedShifts(db, db1, rows, k - 1);
        assert rows[1..][k - 1] == rows[k] && rows[k] in rows[1..];
      }
    }
  }

  lemma RestIsUntouched(db: Db, db1: Db, db': Db, rows: seq<StaleRow>)
    requires rows != [] && OthersAsBefore(db, db1, rows[0]) && UnlistedSame(db1, db', rows[1..]) && UnclaimedSame(db1, db', rows[1..])
    ensures UnlistedSame(db, db', rows) && UnclaimedSame(db, db', rows)
  {
    forall r | r in rows[1..] ensures r in rows { assert rows == [rows[0]] + rows[1..]; }
    assert rows[0] in rows;
  }

  lemma {:induction false} TailIsRecovered(db: Db, db1: Db, db': Db, rows: seq<StaleRow>, now: Ms)
    requires FirstDone(db, db1, db', rows, now)
    ensures ListRecovered(db, db', rows, now) && UnlistedSame(db, db', rows) && UnclaimedSame(db, db', rows)
  {
    RowsAreRecovered(db, db1, db', rows, now);
    RestIsUntouched(db, db1, db', rows);
  }

  lemma {:induction false} ReachableRowsAreOpen(s: State, row: StaleRow)
    requires Reachable(s) && row.job in s.db.jobs && s.db.jobs[row.job].status == Processing
    requires row == StaleRowOf(row.job, s.db.jobs[row.job])
    ensures JustListed(s.db, row)
  {
    ReachableIsGood(s);
    assert JobOk(s.db.jobs[row.job]);
  }

  /**
   Recovery of any list of distinct jobs in hand, from any reachable state. It raises exactly if one of
   them is stuck. Every listed job before the first stuck one is no longer processing: it is of unknown
   outcome if its attempt was invoked, and otherwise waits or queues again without a claim, its attempt
   over. The stuck one, those after it and all other jobs are as they were.
   */
  lemma {:induction false} RecoveryRecoversTheList(s: State, rows: seq<StaleRow>, now: Ms)
    requires Reachable(s) && DistinctJobs(rows)
    requires forall r | r in rows :: r.job in s.db.jobs && s.db.jobs[r.job].status == Processing && r == StaleRowOf(r.job, s.db.jobs[r.job])
    ensures forall r | r in rows :: JustListed(s.db, r)
    ensures var run := RecoverAll(s.db, rows, now);
            && (run.raised <==> exists i: nat :: i < |rows| && Stuck(s.db, rows[i]))
            && ListRecovered(s.db, run.db, rows, now) && UnlistedSame(s.db, run.db, rows)
            && (!run.raised ==> forall r | r in rows :: r.job in run.db.jobs && run.db.jobs[r.job].status != Processing)
  {
    forall r | r in rows ensures JustListed(s.db, r) { ReachableRowsAreOpen(s, r); }
    ListIsRecovered(s.db, rows, now);
    var run := RecoverAll(s.db, rows, now);
    if !run.raised {
      forall r | r in rows ensures r.job in run.db.jobs && run.db.jobs[r.job].status != Processing {
        var k: nat :| k < |rows| && rows[k] == r;
        assert Reached(s.db, rows, k);
      }
    }
  }
}
