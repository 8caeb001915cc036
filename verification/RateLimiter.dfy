/**
 The OCI pacing limiter as a function of the attempt rows it reads.

 CURRENT_TIMESTAMP is the start of the reserving transaction, which may be long before the
 advisory lock was obtained, so nothing below orders the clock readings of successive calls.
 */
module RateLimiter {
  import opened Base
  import opened MailTables

  const PACE_MS := 50
  const MAX_PER_SECOND := 20

  datatype Snapshot = Snapshot(dbNow: Ms, latest: Option<Ms>, recentCount: nat, oldest: Option<Ms>)

  datatype RateDecision = Admit | Defer(scheduledAt: Ms)

  /** Attempts that hold an OCI reservation, with the time they were admitted. */
  function Reservations(attempts: map<AttemptId, Attempt>): map<AttemptId, Ms> {
    map a | a in attempts && attempts[a].hasRfcId && attempts[a].invokedAt.Some? :: attempts[a].invokedAt.value
  }

  predicate Recent(t: Ms, nowUs: Us) { t * 1000 > nowUs - SECOND_US }

  /** The rows that the window query aggregates. */
  function Window(attempts: map<AttemptId, Attempt>, nowUs: Us): map<AttemptId, Ms> {
    var all := Reservations(attempts);
    map a | a in all && Recent(all[a], nowUs) :: all[a]
  }

  ghost predicate IsMax(w: map<AttemptId, Ms>, t: Ms) {
    (exists a | a in w :: w[a] == t) && forall a | a in w :: w[a] <= t
  }

  ghost predicate IsMin(w: map<AttemptId, Ms>, t: Ms) {
    (exists a | a in w :: w[a] == t) && forall a | a in w :: w[a] >= t
  }

  /** The single row the window query returns: MAX and MIN are null over no rows. */
  ghost predicate IsSnapshot(s: Snapshot, attempts: map<AttemptId, Attempt>, nowUs: Us) {
    var w := Window(attempts, nowUs);
    && s.dbNow == TruncMs(nowUs)
    && s.recentCount == |w|
    && (if w == map[] then s.latest.None? && s.oldest.None?
        else s.latest.Some? && IsMax(w, s.latest.value) && s.oldest.Some? && IsMin(w, s.oldest.value))
  }

  lemma {:induction false} MinExists(w: map<AttemptId, Ms>) returns (t: Ms)
    requires w != map[]
    ensures IsMin(w, t)
  {
    var negated := map a | a in w :: -w[a];
    assert w.Keys != {} by { var a :| a in w; }
    var m := LatestExists(w.Keys, negated);
    t := w[m];
    forall a | a in w ensures w[a] >= t { assert negated[a] <= negated[m]; }
  }

  lemma SnapshotExists(attempts: map<AttemptId, Attempt>, nowUs: Us) returns (s: Snapshot)
    ensures IsSnapshot(s, attempts, nowUs)
  {
    var w := Window(attempts, nowUs);
    if w == map[] {
      s := Snapshot(TruncMs(nowUs), None, 0, None);
    } else {
      assert w.Keys != {} by { var a :| a in w; }
      var m := LatestExists(w.Keys, w);
      var o := MinExists(w);
      s := Snapshot(TruncMs(nowUs), Some(w[m]), |w|, Some(o));
    }
  }

  /** nextAtMs: the three-way maximum that decides admission. */
  function NextAt(s: Snapshot): Ms {
    Max(s.dbNow, Max(
      if s.latest.Some? then s.latest.value + PACE_MS else 0,
      if s.recentCount >= MAX_PER_SECOND && s.oldest.Some? then s.oldest.value + 1_001 else 0))
  }

  function Decide(s: Snapshot): RateDecision {
    if NextAt(s) > s.dbNow then Defer(NextAt(s)) else Admit
  }

  /** The decision is a function of the rows and the clock, because the snapshot is unique. */
  ghost function Decision(attempts: map<AttemptId, Attempt>, nowUs: Us): RateDecision {
    assert exists s :: IsSnapshot(s, attempts, nowUs) by { var x := SnapshotExists(attempts, nowUs); }
    var s :| IsSnapshot(s, attempts, nowUs);
    Decide(s)
  }

  lemma SnapshotUnique(s: Snapshot, t: Snapshot, attempts: map<AttemptId, Attempt>, nowUs: Us)
    requires IsSnapshot(s, attempts, nowUs) && IsSnapshot(t, attempts, nowUs)
    ensures s == t
  {
  }

  lemma DecisionIs(s: Snapshot, attempts: map<AttemptId, Attempt>, nowUs: Us)
    requires IsSnapshot(s, attempts, nowUs)
    ensures Decision(attempts, nowUs) == Decide(s)
  {
    var t :| IsSnapshot(t, attempts, nowUs) && Decision(attempts, nowUs) == Decide(t);
    SnapshotUnique(s, t, attempts, nowUs);
  }

  /** The decision depends on the reservations only, not on any other attempt. */
  lemma SameReservationsSameDecision(attempts: map<AttemptId, Attempt>, attempts': map<AttemptId, Attempt>, nowUs: Us)
    requires Reservations(attempts) == Reservations(attempts')
    ensures Decision(attempts, nowUs) == Decision(attempts', nowUs)
  {
    var s := SnapshotExists(attempts, nowUs);
    DecisionIs(s, attempts, nowUs);
    DecisionIs(s, attempts', nowUs);
  }

  /** No two recorded reservations are closer than the pace. */
  ghost predicate PacedRows(attempts: map<AttemptId, Attempt>) {
    var all := Reservations(attempts);
    Spaced(all.Keys, all, PACE_MS)
  }

  /** An admitted reservation is at least one pace later than every recorded one, old or recent. */
  lemma AdmittedIsLast(attempts: map<AttemptId, Attempt>, nowUs: Us)
    requires Decision(attempts, nowUs).Admit?
    ensures forall a | a in Reservations(attempts) :: Reservations(attempts)[a] + PACE_MS <= TruncMs(nowUs)
  {
    var s := SnapshotExists(attempts, nowUs);
    DecisionIs(s, attempts, nowUs);
    var all, w := Reservations(attempts), Window(attempts, nowUs);
    forall a | a in all ensures all[a] + PACE_MS <= TruncMs(nowUs) {
      if Recent(all[a], nowUs) {
        assert w[a] <= s.latest.value;
      }
    }
  }

  /** With twenty paced rows in the window, the newest and the oldest are 950 ms apart or more. */
  lemma TwentyRowsSpan(attempts: map<AttemptId, Attempt>, nowUs: Us, s: Snapshot)
    requires PacedRows(attempts) && IsSnapshot(s, attempts, nowUs) && s.recentCount >= MAX_PER_SECOND
    ensures s.latest.Some? && s.oldest.Some? && s.latest.value - s.oldest.value >= (MAX_PER_SECOND - 1) * PACE_MS
  {
    var w := Window(attempts, nowUs);
    assert w.Keys != {} by { assert |w.Keys| == |w|; }
    var a :| a in w;
    SpacedBound(w.Keys, w, s.oldest.value, s.latest.value - s.oldest.value, PACE_MS);
    assert |w.Keys| == |w|;
  }

  /**
   The 20-per-second term never decides admission: a call is deferred exactly when the newest
   recent reservation is less than one pace old. The deferred time is one pace after that
   reservation, or one millisecond more when the window holds twenty rows that are packed tight.
   */
  lemma DeferralIsExact(attempts: map<AttemptId, Attempt>, nowUs: Us, s: Snapshot)
    requires PacedRows(attempts) && nowUs >= 0 && IsSnapshot(s, attempts, nowUs)
    ensures Decision(attempts, nowUs).Defer? <==> s.latest.Some? && s.latest.value + PACE_MS > TruncMs(nowUs)
    ensures Decision(attempts, nowUs).Defer? ==>
              Decision(attempts, nowUs).scheduledAt ==
                s.latest.value + PACE_MS
                + (if s.recentCount >= MAX_PER_SECOND && s.latest.value - s.oldest.value == 950 then 1 else 0)
  {
    DecisionIs(s, attempts, nowUs);
    if s.recentCount >= MAX_PER_SECOND {
      TwentyRowsSpan(attempts, nowUs, s);
      var w := Window(attempts, nowUs);
      var a :| a in w && w[a] == s.oldest.value;
      assert Recent(w[a], nowUs);
    }
  }

  /** In the rows: a call is admitted exactly if every recorded reservation is 50 ms or more before it. */
  lemma AdmittedExactly(attempts: map<AttemptId, Attempt>, nowUs: Us)
    requires PacedRows(attempts) && nowUs >= 0
    ensures Decision(attempts, nowUs) == Admit <==>
            forall a | a in attempts && attempts[a].hasRfcId && attempts[a].invokedAt.Some? ::
              attempts[a].invokedAt.value + 50 <= nowUs / 1000
  {
    var s := SnapshotExists(attempts, nowUs);
    DeferralIsExact(attempts, nowUs, s);
    var all, w := Reservations(attempts), Window(attempts, nowUs);
    if Decision(attempts, nowUs).Admit? {
      AdmittedIsLast(attempts, nowUs);
      forall a | a in attempts && attempts[a].hasRfcId && attempts[a].invokedAt.Some?
        ensures attempts[a].invokedAt.value + 50 <= nowUs / 1000
      {
        assert a in all;
      }
    } else {
      var a :| a in w && w[a] == s.latest.value;
      assert a in all && attempts[a].hasRfcId && attempts[a].invokedAt == Some(s.latest.value);
    }
  }

  /** A deferred call that is repeated at its deferred time, with no admission since, is admitted. */
  lemma ReserveAgain(attempts: map<AttemptId, Attempt>, nowUs: Us, laterUs: Us)
    requires PacedRows(attempts) && nowUs >= 0 && Decision(attempts, nowUs).Defer?
    requires TruncMs(laterUs) >= Decision(attempts, nowUs).scheduledAt
    ensures Decision(attempts, laterUs).Admit?
  {
    var s := SnapshotExists(attempts, nowUs);
    var t := SnapshotExists(attempts, laterUs);
    DeferralIsExact(attempts, nowUs, s);
    DeferralIsExact(attempts, laterUs, t);
    var w, w' := Window(attempts, nowUs), Window(attempts, laterUs);
    if t.latest.Some? {
      var a :| a in w' && w'[a] == t.latest.value;
      assert a in w && w[a] <= s.latest.value;
    }
  }

  /** Admission times in the order the lock was held. */
  ghost predicate PacedLog(log: seq<Ms>) {
    forall i, j | 0 <= i < j < |log| :: log[j] - log[i] >= PACE_MS
  }

  ghost predicate HasReservationAt(attempts: map<AttemptId, Attempt>, t: Ms) {
    exists a | a in Reservations(attempts) :: Reservations(attempts)[a] == t
  }

  /** Every admission of the last second still has its row. */
  ghost predicate RecentRowsKept(log: seq<Ms>, attempts: map<AttemptId, Attempt>, nowUs: Us) {
    forall i | 0 <= i < |log| && Recent(log[i], nowUs) :: HasReservationAt(attempts, log[i])
  }

  /** One more admission keeps the log paced, whatever the clock readings were. */
  lemma AdmissionKeepsPace(log: seq<Ms>, attempts: map<AttemptId, Attempt>, nowUs: Us)
    requires PacedLog(log) && RecentRowsKept(log, attempts, nowUs) && Decision(attempts, nowUs).Admit?
    ensures PacedLog(log + [TruncMs(nowUs)])
  {
    AdmittedIsLast(attempts, nowUs);
    forall i | 0 <= i < |log| ensures TruncMs(nowUs) - log[i] >= PACE_MS {
      if Recent(log[i], nowUs) {
        var a :| a in Reservations(attempts) && Reservations(attempts)[a] == log[i];
      }
    }
  }

  /** Indices of the admissions in the half-open second that starts at `from`. */
  ghost function AdmittedIn(log: seq<Ms>, from: Ms): set<nat> {
    set i: nat | i < |log| && from <= log[i] < from + 1_000
  }

  /** A paced log admits strictly increasing times and at most twenty of them in any second. */
  lemma AtMostTwentyPerSecond(log: seq<Ms>, from: Ms)
    requires PacedLog(log)
    ensures |AdmittedIn(log, from)| <= 20
  {
    var ids := AdmittedIn(log, from);
    var time := map i: nat | i < |log| :: log[i];
    if ids != {} {
      SpacedBound(ids, time, from, 999, PACE_MS);
    }
  }
}
