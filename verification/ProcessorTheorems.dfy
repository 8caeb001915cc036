/** What one pass of the processor does with the list of due jobs. */
module ProcessorTheorems {
  import opened Base
  import opened MailTables
  import opened ProviderVerdict
  import opened RateLimiter
  import opened MailTransactions
  import opened MailProtocol
  import opened MailInvariant
  import opened MailRuns
  import opened MailProgress
  import opened MailDatabase
  import opened RecoveryLists

  /** The job of the delivery is there, with its tenant. */
  predicate Exists(db: Db, d: Delivery) {
    d.job in db.jobs && db.jobs[d.job].tenant == d.tenant
  }

  /** One execution writes at most its own job and its own new attempt. */
  ghost predicate OnlyOwnRows(db: Db, db': Db, d: Delivery) {
    && db'.jobs.Keys == db.jobs.Keys && db' == db.(jobs := db'.jobs, attempts := db'.attempts)
    && (forall id | id in db.jobs && id != d.job :: db'.jobs[id] == db.jobs[id])
    && (d.job in db.jobs ==> db'.jobs[d.job].tenant == db.jobs[d.job].tenant)
    && db'.attempts.Keys == db.attempts.Keys + (if Claims(db, d.job, d.tenant, d.auto, d.claimUs) then {d.attempt} else {})
    && (forall a | a in db.attempts && a != d.attempt :: db'.attempts[a] == db.attempts[a])
  }

  /** The execution has come to its end: nothing is left in hand. */
  predicate IsConcluded(db: Db, d: Delivery) {
    && d.job in db.jobs && d.attempt in db.attempts && db.attempts[d.attempt].job == d.job && db.attempts[d.attempt].completedAt.Some?
    && var status := db.jobs[d.job].status;
    status == Sent || status == Failed || status == DeliveryUnknown || status == Queued
  }

  lemma VerdictConcludes(db: Db, d: Delivery, retryCount: nat, v: Verdict)
    requires RowsFound(db, d.job, d.attempt, d.tenant) && db.attempts[d.attempt].job == d.job
    ensures var db' := RecordVerdict(db, d.job, d.attempt, d.tenant, retryCount, v, d.answerMs);
            && IsConcluded(db', d) && db'.jobs.Keys == db.jobs.Keys && db'.attempts.Keys == db.attempts.Keys
            && db' == db.(jobs := db.jobs[d.job := db'.jobs[d.job]], attempts := db.attempts[d.attempt := db'.attempts[d.attempt]])
            && db'.jobs[d.job].tenant == db.jobs[d.job].tenant
  {
  }

  /** The tables differ in the delivery's two rows only. */
  ghost predicate TwoRows(db: Db, db': Db, d: Delivery) {
    && d.job in db'.jobs && d.attempt in db'.attempts
    && db' == db.(jobs := db.jobs[d.job := db'.jobs[d.job]], attempts := db.attempts[d.attempt := db'.attempts[d.attempt]])
    && db'.jobs[d.job].tenant == d.tenant && db'.attempts[d.attempt].tenant == d.tenant && db'.attempts[d.attempt].job == d.job
  }

  lemma ClaimTwoRows(db: Db, d: Delivery)
    requires Claims(db, d.job, d.tenant, d.auto, d.claimUs)
    ensures TwoRows(db, ClaimJob(db, d.attempt, d.job, d.tenant, d.auto, d.claimUs), d)
  {
  }

  lemma BlockConcludes(db: Db, claimed: Db, d: Delivery, reason: Reason)
    requires TwoRows(db, claimed, d)
    ensures var db' := BlockJob(claimed, d.job, d.attempt, d.tenant, reason, d.gateMs); TwoRows(db, db', d) && IsConcluded(db', d)
  {
  }

  lemma DeferConcludes(db: Db, claimed: Db, d: Delivery, scheduledAt: Ms, now: Ms)
    requires TwoRows(db, claimed, d)
    ensures var db' := DeferJob(claimed, d.job, d.attempt, d.tenant, scheduledAt, now); TwoRows(db, db', d) && IsConcluded(db', d)
  {
  }

  lemma MarkTwoRows(db: Db, claimed: Db, d: Delivery, now: Ms, rfc: bool)
    requires TwoRows(db, claimed, d)
    ensures TwoRows(db, MarkInvoked(claimed, d.attempt, d.tenant, now, rfc), d)
  {
  }

  lemma AnswerConcludes(db: Db, invoked: Db, d: Delivery, retryCount: nat, v: Verdict)
    requires TwoRows(db, invoked, d)
    ensures var db' := RecordVerdict(invoked, d.job, d.attempt, d.tenant, retryCount, v, d.answerMs);
            TwoRows(db, db', d) && IsConcluded(db', d)
  {
    VerdictConcludes(invoked, d, retryCount, v);
  }

  lemma DeliveryConcludes(kind: ProviderKind, db: Db, d: Delivery)
    requires Claims(db, d.job, d.tenant, d.auto, d.claimUs)
    ensures TwoRows(db, DeliverAlone(kind, db, d), d) && IsConcluded(DeliverAlone(kind, db, d), d)
  {
    var claimed := ClaimJob(db, d.attempt, d.job, d.tenant, d.auto, d.claimUs);
    ClaimTwoRows(db, d);
    if !d.canSend || !d.active {
      BlockConcludes(db, claimed, d, if d.canSend then ResourceNotSendable else SubscriptionNotSendable);
    } else if kind == Oci {
      match Decision(claimed.attempts, d.reserveUs) {
        case Defer(scheduledAt) => DeferConcludes(db, claimed, d, scheduledAt, TruncMs(d.reserveUs));
        case Admit =>
          MarkTwoRows(db, claimed, d, TruncMs(d.reserveUs), true);
          var invoked := MarkInvoked(claimed, d.attempt, d.tenant, TruncMs(d.reserveUs), true);
          AnswerConcludes(db, invoked, d, db.jobs[d.job].retryCount, Judge(kind, d.result));
      }
    } else {
      MarkTwoRows(db, claimed, d, d.gateMs, false);
      AnswerConcludes(db, MarkInvoked(claimed, d.attempt, d.tenant, d.gateMs, false), d, db.jobs[d.job].retryCount, Judge(kind, d.result));
    }
  }

  lemma DeliveryWritesOwnRows(kind: ProviderKind, db: Db, d: Delivery)
    ensures OnlyOwnRows(db, DeliverAlone(kind, db, d), d)
  {
    if Claims(db, d.job, d.tenant, d.auto, d.claimUs) { DeliveryConcludes(kind, db, d); }
  }

  /** The due jobs are listed once each, and their attempts get identifiers that nothing has. */
  ghost predicate FreshList(db: Db, due: seq<Delivery>) {
    && (forall i, j | 0 <= i < j < |due| :: due[i].job != due[j].job && due[i].attempt != due[j].attempt)
    && (forall d | d in due :: d.attempt !in db.attempts)
  }

  /** No listed job up to and including this one is missing. */
  ghost predicate GetsTo(db: Db, due: seq<Delivery>, i: nat) {
    i < |due| && forall k: nat | k <= i :: Exists(db, due[k])
  }

  /** Exactly the reached jobs that were claimable have an attempt afterwards, and each of those is concluded. */
  ghost predicate ListHandled(db: Db, db': Db, due: seq<Delivery>) {
    forall i: nat | i < |due| ::
      var d := due[i];
      && (d.attempt in db'.attempts <==> GetsTo(db, due, i) && Claims(db, d.job, d.tenant, d.auto, d.claimUs))
      && (d.attempt in db'.attempts ==> IsConcluded(db', d))
      && (d.attempt !in db'.attempts && d.job in db.jobs ==> d.job in db'.jobs && db'.jobs[d.job] == db.jobs[d.job])
  }

  ghost predicate RestAsBefore(db: Db, db': Db, due: seq<Delivery>) {
    && (forall id | id in db.jobs && (forall d | d in due :: d.job != id) :: id in db'.jobs && db'.jobs[id] == db.jobs[id])
    && (forall a | a in db.attempts && (forall d | d in due :: d.attempt != a) :: a in db'.attempts && db'.attempts[a] == db.attempts[a])
    && (forall a | a in db'.attempts && a !in db.attempts :: exists d :: d in due && d.attempt == a)
  }

  lemma ClaimsAreOwn(db: Db, db1: Db, d: Delivery, e: Delivery)
    requires OnlyOwnRows(db, db1, d) && d.job != e.job
    ensures Claims(db1, e.job, e.tenant, e.auto, e.claimUs) <==> Claims(db, e.job, e.tenant, e.auto, e.claimUs)
  {
  }

  lemma ExistenceStays(db: Db, db1: Db, d: Delivery, e: Delivery)
    requires OnlyOwnRows(db, db1, d)
    ensures Exists(db1, e) <==> Exists(db, e)
  {
  }

  lemma GetsToShifts(db: Db, db1: Db, due: seq<Delivery>, i: nat)
    requires due != [] && Exists(db, due[0]) && OnlyOwnRows(db, db1, due[0])
    ensures GetsTo(db, due, i + 1) <==> GetsTo(db1, due[1..], i)
  {
    if GetsTo(db1, due[1..], i) {
      forall k: nat | k <= i + 1 ensures Exists(db, due[k]) {
        if k > 0 {
          assert due[k] == due[1..][k - 1] && Exists(db1, due[1..][k - 1]);
          ExistenceStays(db, db1, due[0], due[k]);
        }
      }
    }
    if GetsTo(db, due, i + 1) {
      forall k: nat | k <= i ensures Exists(db1, due[1..][k]) {
        assert due[1..][k] == due[k + 1] && Exists(db, due[k + 1]);
        ExistenceStays(db, db1, due[0], due[k + 1]);
      }
    }
  }

  lemma TailIsFresh(db: Db, db1: Db, due: seq<Delivery>)
    requires due != [] && FreshList(db, due) && OnlyOwnRows(db, db1, due[0])
    ensures FreshList(db1, due[1..])
  {
    forall d | d in due[1..] ensures d.attempt !in db1.attempts {
      var i :| 0 <= i < |due[1..]| && due[1..][i] == d;
      assert due[i + 1] == d && d in due;
    }
  }

  ghost predicate HandledAt(db: Db, db': Db, due: seq<Delivery>, i: nat)
    requires i < |due|
  {
    var d := due[i];
    && (d.attempt in db'.attempts <==> GetsTo(db, due, i) && Claims(db, d.job, d.tenant, d.auto, d.claimUs))
    && (d.attempt in db'.attempts ==> IsConcluded(db', d))
    && (d.attempt !in db'.attempts && d.job in db.jobs ==> d.job in db'.jobs && db'.jobs[d.job] == db.jobs[d.job])
  }

  lemma OthersAreElsewhere(due: seq<Delivery>, db: Db)
    requires due != [] && FreshList(db, due)
    ensures forall d | d in due[1..] :: d.job != due[0].job && d.attempt != due[0].attempt
  {
    forall d | d in due[1..] ensures d.job != due[0].job && d.attempt != due[0].attempt {
      var i :| 0 <= i < |due[1..]| && due[1..][i] == d;
      assert due[i + 1] == d;
    }
  }

  lemma HeadIsHandled(db: Db, db1: Db, db': Db, due: seq<Delivery>)
    requires due != [] && FreshList(db, due) && Exists(db, due[0]) && OnlyOwnRows(db, db1, due[0])
    requires Claims(db, due[0].job, due[0].tenant, due[0].auto, due[0].claimUs) ==> IsConcluded(db1, due[0])
    requires !Claims(db, due[0].job, due[0].tenant, due[0].auto, due[0].claimUs) ==> db1 == db
    requires RestAsBefore(db1, db', due[1..])
    ensures HandledAt(db, db', due, 0)
  {
    OthersAreElsewhere(due, db);
    assert due[0] in due;
    assert GetsTo(db, due, 0);
  }

  lemma TailIsHandled(db: Db, db1: Db, db': Db, due: seq<Delivery>)
    requires due != [] && FreshList(db, due) && Exists(db, due[0]) && OnlyOwnRows(db, db1, due[0])
    requires ListHandled(db1, db', due[1..]) && HandledAt(db, db', due, 0)
    ensures ListHandled(db, db', due)
  {
    forall i: nat | i < |due| ensures HandledAt(db, db', due, i) {
      if i > 0 {
        GetsToShifts(db, db1, due, i - 1);
        assert due[1..][i - 1] == due[i];
        ClaimsAreOwn(db, db1, due[0], due[i]);
      }
    }
  }

  lemma RestIsAsBefore(db: Db, db1: Db, db': Db, due: seq<Delivery>)
    requires due != [] && OnlyOwnRows(db, db1, due[0]) && RestAsBefore(db1, db', due[1..])
    requires forall d :: d in due <==> d == due[0] || d in due[1..]
    ensures RestAsBefore(db, db', due)
  {
    forall a | a in db'.attempts && a !in db.attempts ensures exists d :: d in due && d.attempt == a {
      if a in db1.attempts { assert due[0] in due && due[0].attempt == a; }
    }
  }

  lemma MissingHeadEndsThePass(db: Db, due: seq<Delivery>)
    requires due != [] && FreshList(db, due) && !Exists(db, due[0])
    ensures ListHandled(db, db, due) && RestAsBefore(db, db, due) && exists d :: d in due && !Exists(db, d)
  {
    assert due[0] in due;
    forall i: nat | i < |due| ensures !GetsTo(db, due, i) && due[i].attempt !in db.attempts { assert due[i] in due; }
  }

  lemma MissingInTail(db: Db, db1: Db, due: seq<Delivery>)
    requires due != [] && Exists(db, due[0]) && OnlyOwnRows(db, db1, due[0])
    requires forall d :: d in due <==> d == due[0] || d in due[1..]
    ensures (exists d :: d in due[1..] && !Exists(db1, d)) <==> (exists d :: d in due && !Exists(db, d))
  {
    forall d | d in due[1..] ensures Exists(db1, d) <==> Exists(db, d) { ExistenceStays(db, db1, due[0], d); }
    if d :| d in due && !Exists(db, d) { assert d in due[1..] && !Exists(db1, d); }
  }

  lemma ListFromTail(db: Db, db1: Db, db': Db, due: seq<Delivery>)
    requires due != [] && FreshList(db, due) && Exists(db, due[0]) && OnlyOwnRows(db, db1, due[0])
    requires Claims(db, due[0].job, due[0].tenant, due[0].auto, due[0].claimUs) ==> IsConcluded(db1, due[0])
    requires !Claims(db, due[0].job, due[0].tenant, due[0].auto, due[0].claimUs) ==> db1 == db
    requires ListHandled(db1, db', due[1..]) && RestAsBefore(db1, db', due[1..])
    requires forall d :: d in due <==> d == due[0] || d in due[1..]
    ensures ListHandled(db, db', due) && RestAsBefore(db, db', due)
  {
    HeadIsHandled(db, db1, db', due);
    TailIsHandled(db, db1, db', due);
    RestIsAsBefore(db, db1, db', due);
  }

  /** What a run of the loop over the list has done. */
  ghost predicate Handles(db: Db, run: PassRun, due: seq<Delivery>) {
    && (run.raised <==> exists d :: d in due && !Exists(db, d))
    && ListHandled(db, run.db, due) && RestAsBefore(db, run.db, due)
  }

  lemma HandlesFromTail(db: Db, db1: Db, run: PassRun, due: seq<Delivery>)
    requires due != [] && FreshList(db, due) && Exists(db, due[0]) && OnlyOwnRows(db, db1, due[0])
    requires Claims(db, due[0].job, due[0].tenant, due[0].auto, due[0].claimUs) ==> IsConcluded(db1, due[0])
    requires !Claims(db, due[0].job, due[0].tenant, due[0].auto, due[0].claimUs) ==> db1 == db
    requires Handles(db1, run, due[1..])
    ensures Handles(db, run, due)
  {
    forall d ensures d in due <==> d == due[0] || d in due[1..] { assert due == [due[0]] + due[1..]; }
    MissingInTail(db, db1, due);
    ListFromTail(db, db1, run.db, due);
  }

  lemma {:induction false} HeadFirst(kind: ProviderKind, db: Db, due: seq<Delivery>)
    requires due != []
    ensures DeliverAll(kind, db, due) ==
            if Exists(db, due[0]) then DeliverAll(kind, DeliverAlone(kind, db, due[0]), due[1..]) else PassRun(db, true)
  {
  }

  lemma {:induction false} DueJobsAreHandled(kind: ProviderKind, db: Db, due: seq<Delivery>)
    requires FreshList(db, due)
    ensures Handles(db, DeliverAll(kind, db, due), due)
    decreases |due|
  {
    if due != [] {
      HeadFirst(kind, db, due);
      if Exists(db, due[0]) {
        var db1 := DeliverAlone(kind, db, due[0]);
        HeadDelivery(kind, db, due[0]);
        TailIsFresh(db, db1, due);
        DueJobsAreHandled(kind, db1, due[1..]);
        HandlesFromTail(db, db1, DeliverAll(kind, db1, due[1..]), due);
      } else {
        MissingHeadEndsThePass(db, due);
      }
    }
  }

  lemma HeadDelivery(kind: ProviderKind, db: Db, d: Delivery)
    ensures OnlyOwnRows(db, DeliverAlone(kind, db, d), d)
    ensures Claims(db, d.job, d.tenant, d.auto, d.claimUs) ==> IsConcluded(DeliverAlone(kind, db, d), d)
    ensures !Claims(db, d.job, d.tenant, d.auto, d.claimUs) ==> DeliverAlone(kind, db, d) == db
  {
    DeliveryWritesOwnRows(kind, db, d);
    if Claims(db, d.job, d.tenant, d.auto, d.claimUs) { DeliveryConcludes(kind, db, d); }
  }

  /**
   One pass, over any list of distinct due jobs with fresh attempt identifiers: it raises exactly if
   recovery raises or a listed job is missing. If recovery does not raise, a listed job gets its attempt
   exactly if no job before it in the list was missing, nor itself, and it was claimable in the tables
   that recovery left; a job that was lost to another claim is passed over and the next one is tried.
   Every job that got its attempt is concluded, and all other rows are as recovery left them.
   */
  lemma {:induction false} PassHandlesTheList(kind: ProviderKind, db: Db, stale: seq<StaleRow>, now: Ms, due: seq<Delivery>)
    requires FreshList(db, due)
    ensures var recovered, pass := RecoverAll(db, stale, now), ProcessorPass(kind, db, stale, now, due);
            && (pass.raised <==> recovered.raised || exists d :: d in due && !Exists(recovered.db, d))
            && (recovered.raised ==> pass.db == recovered.db)
            && (!recovered.raised ==> ListHandled(recovered.db, pass.db, due) && RestAsBefore(recovered.db, pass.db, due))
  {
    RecoveryAddsNoAttempt(db, stale, now);
    if !RecoverAll(db, stale, now).raised { DueJobsAreHandled(kind, RecoverAll(db, stale, now).db, due); }
  }

  /** If nothing is listed that is missing, no lost claim keeps the pass from any job in the list. */
  lemma {:induction false} LostClaimsArePassedOver(kind: ProviderKind, db: Db, stale: seq<StaleRow>, now: Ms, due: seq<Delivery>)
    requires FreshList(db, due) && !RecoverAll(db, stale, now).raised
    requires forall d | d in due :: Exists(RecoverAll(db, stale, now).db, d)
    ensures var recovered, pass := RecoverAll(db, stale, now).db, ProcessorPass(kind, db, stale, now, due);
            && !pass.raised
            && forall d | d in due :: d.attempt in pass.db.attempts <==> Claims(recovered, d.job, d.tenant, d.auto, d.claimUs)
  {
    PassHandlesTheList(kind, db, stale, now, due);
    var recovered, pass := RecoverAll(db, stale, now).db, ProcessorPass(kind, db, stale, now, due);
    forall d | d in due ensures d.attempt in pass.db.attempts <==> Claims(recovered, d.job, d.tenant, d.auto, d.claimUs) {
      var i: nat :| i < |due| && due[i] == d;
      assert HandledAt(recovered, pass.db, due, i) && GetsTo(recovered, due, i) by {
        forall k: nat | k <= i ensures Exists(recovered, due[k]) { assert due[k] in due; }
      }
    }
  }

  /** The verdict of an answer and the row it ends in. */
  predicate EndsAs(v: Verdict, retryCount: nat, j: Job) {
    match v
    case Delivered => j.status == Sent && j.sentAt.Some?
    case Reject(reason) => j.status == Failed && j.error == Some(reason)
    case Doubtful => j.status == DeliveryUnknown
    case Retry(reason) => j.retryCount == retryCount + 1 && j.error == Some(reason) && j.status == if retryCount < 3 then Queued else Failed
  }

  /**
   What one undisturbed execution makes of what it meets: without a licence, or at an inactive place,
   the job fails with that reason, the licence first, and is not called; a deferral queues it for its
   time uncalled; and otherwise it is called and ends as its answer says, counted from its own retries.
   */
  lemma DeliveryFollowsWhatItMeets(kind: ProviderKind, db: Db, d: Delivery)
    requires Claims(db, d.job, d.tenant, d.auto, d.claimUs) && d.attempt !in db.attempts
    ensures var db' := DeliverAlone(kind, db, d);
            && d.job in db'.jobs && d.attempt in db'.attempts
            && var j, at := db'.jobs[d.job], db'.attempts[d.attempt];
            if !d.canSend || !d.active then
              && j.status == Failed && at.status == Blocked && at.invokedAt.None?
              && j.error == at.error == Some(if !d.canSend then SubscriptionNotSendable else ResourceNotSendable)
            else if kind == Oci && Decision(db.attempts, d.reserveUs).Defer? then
              && j.status == Queued && j.scheduledAt == Some(Decision(db.attempts, d.reserveUs).scheduledAt)
              && at.status == Deferred && at.invokedAt.None?
            else
              && at.invokedAt == Some(if kind == Oci then d.reserveUs / 1000 else d.gateMs) && at.completedAt == Some(d.answerMs)
              && EndsAs(Judge(kind, d.result), db.jobs[d.job].retryCount, j)
  {
    var claimed := ClaimJob(db, d.attempt, d.job, d.tenant, d.auto, d.claimUs);
    ClaimReservesNothing(db, d.attempt, d.job, d.tenant, d.auto, d.claimUs);
    SameReservationsSameDecision(claimed.attempts, db.attempts, d.reserveUs);
    ClaimTwoRows(db, d);
    if d.canSend && d.active && !(kind == Oci && Decision(db.attempts, d.reserveUs).Defer?) {
      var at := if kind == Oci then TruncMs(d.reserveUs) else d.gateMs;
      CalledAndAnswered(db, claimed, d, at, kind == Oci, Judge(kind, d.result));
    }
  }

  lemma CalledAndAnswered(db: Db, claimed: Db, d: Delivery, at: Ms, rfc: bool, v: Verdict)
    requires TwoRows(db, claimed, d) && d.job in db.jobs
    ensures var invoked := MarkInvoked(claimed, d.attempt, d.tenant, at, rfc);
            var db' := RecordVerdict(invoked, d.job, d.attempt, d.tenant, db.jobs[d.job].retryCount, v, d.answerMs);
            && d.job in db'.jobs && d.attempt in db'.attempts
            && db'.attempts[d.attempt].invokedAt == Some(at) && db'.attempts[d.attempt].completedAt == Some(d.answerMs)
            && EndsAs(v, db.jobs[d.job].retryCount, db'.jobs[d.job])
  {
  }
}
