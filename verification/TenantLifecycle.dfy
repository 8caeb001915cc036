/**
 Delete, restore and purge of a tenant together with its subscription, in the production
 environment. One tenant row and its one subscription row; every operation is one transaction that
 locks them. "+ 1 year" stays a parameter.
 */
module TenantLifecycle {
  import opened Base
  import opened MailTables

  datatype SubscriptionStatus = Trial | Paid | Expired | Suspended

  datatype Tenant = Tenant(
    status: TenantStatus, deletedAt: Option<Ms>, purgeAfter: Option<Ms>,
    fromStatus: Option<TenantStatus>, fromSubscription: Option<SubscriptionStatus>,
    locationLimit: nat, version: nat)

  datatype Subscription = Subscription(status: SubscriptionStatus, startAt: Ms, endAt: Ms, version: nat)

  datatype Rows = Rows(tenant: Tenant, subscription: Subscription)

  datatype Outcome =
    | Done
    | Started(deletedAt: Ms, purgeAfter: Ms)
    | AlreadyPending(deletedAt: Ms, purgeAfter: Ms)
    | NotDue
    | AlreadyPurged
    | InvalidInterval
    | ExpiredEndInFuture
    | DeletionConflict
    | IntervalMustBePreserved
    | VersionConflict
    | LimitBelowUsage
    | SessionInvalid
    | PasswordInvalid
    | ActiveSubscription
    | NotPendingDelete
    | RestoreStateInvalid
    | RestoreExpired
    | MailInFlight
    | PurgeSubscriptionInvalid
    | PurgeStateChanged

  datatype Result = Result(rows: Rows, outcome: Outcome)

  /** The CHECK constraint tenants_deletion_lifecycle_check. */
  predicate LifecycleCheck(addYear: Calendar, t: Tenant) {
    || (t.deletedAt.None? && t.purgeAfter.None? && t.fromStatus.None? && t.fromSubscription.None?
        && t.status != PendingDelete && t.status != Purged)
    || (t.deletedAt.Some? && t.purgeAfter == Some(addYear(t.deletedAt.value)) && t.fromStatus.Some? && t.fromSubscription.Some?
        && (t.status == PendingDelete || t.status == Purged))
  }

  // ---- the operations -------------------------------------------------------------------------------

  datatype SubscriptionChange = SubscriptionChange(status: SubscriptionStatus, startAt: Ms, endAt: Ms, version: nat)

  function UpdateSubscription(r: Rows, c: SubscriptionChange, now: Ms): Result {
    var s := r.subscription;
    if c.endAt <= c.startAt then Result(r, InvalidInterval)
    else if (c.status == Trial || c.status == Paid) && c.endAt <= now then Result(r, InvalidInterval)
    else if c.status == Expired && c.endAt > now then Result(r, ExpiredEndInFuture)
    else if InDeletion(r.tenant.status) then Result(r, DeletionConflict)
    else if c.status == Suspended && (c.startAt != s.startAt || c.endAt != s.endAt) then Result(r, IntervalMustBePreserved)
    else if s.version != c.version then Result(r, VersionConflict)
    else Result(r.(subscription := Subscription(c.status, c.startAt, c.endAt, s.version + 1)), Done)
  }

  function DeleteTenant(addYear: Calendar, r: Rows, sessionValid: bool, passwordOk: bool, nowUs: Us): Result {
    var t, s := r.tenant, r.subscription;
    if !sessionValid then Result(r, SessionInvalid)
    else if !passwordOk then Result(r, PasswordInvalid)
    else if t.status == PendingDelete && t.deletedAt.Some? && t.purgeAfter.Some? then
      Result(r, AlreadyPending(t.deletedAt.value, t.purgeAfter.value))
    else if t.status == PendingDelete || t.status == Purged then Result(r, DeletionConflict)
    else if s.status == Paid then Result(r, ActiveSubscription)
    else
      var stamp := TruncMs(nowUs);
      Result(Rows(t.(status := PendingDelete, deletedAt := Some(stamp), purgeAfter := Some(addYear(stamp)),
                     fromStatus := Some(t.status), fromSubscription := Some(s.status), version := t.version + 1),
                  s.(status := Suspended, version := s.version + 1)),
             Started(stamp, addYear(stamp)))
  }

  /** The snapshots that restoreTenant is willing to use. */
  predicate SnapshotValid(t: Tenant) {
    t.fromStatus.Some? && t.fromSubscription.Some? && t.fromStatus.value != PendingDelete && t.fromStatus.value != Purged
  }

  function RestoreTenant(r: Rows, sessionValid: bool, nowUs: Us): Result {
    var t, s := r.tenant, r.subscription;
    if !sessionValid then Result(r, SessionInvalid)
    else if t.status != PendingDelete then Result(r, NotPendingDelete)
    else if !SnapshotValid(t) then Result(r, RestoreStateInvalid)
    else if !(t.purgeAfter.Some? && t.purgeAfter.value * 1000 > nowUs) then Result(r, RestoreExpired)
    else if s.status != Suspended then Result(r, RestoreStateInvalid)
    else Result(Rows(t.(status := t.fromStatus.value, deletedAt := None, purgeAfter := None, fromStatus := None,
                        fromSubscription := None, version := t.version + 1),
                     s.(status := t.fromSubscription.value, version := s.version + 1)), Done)
  }

  /** `usage` is the count of locations that are not purged, taken under the tenant's lock. */
  function UpdateLocationLimit(r: Rows, limit: nat, version: nat, usage: nat): Result {
    if r.tenant.version != version then Result(r, VersionConflict)
    else if limit < usage then Result(r, LimitBelowUsage)
    else Result(r.(tenant := r.tenant.(locationLimit := limit, version := version + 1)), Done)
  }

  predicate Due(t: Tenant, nowUs: Us) {
    t.purgeAfter.Some? && t.purgeAfter.value * 1000 <= nowUs
  }

  /** purgeDueTenant reads the clock at its start and again in its last statement. */
  function PurgeTenant(r: Rows, mailInFlight: bool, firstUs: Us, lastUs: Us): Result {
    var t, s := r.tenant, r.subscription;
    if t.status != PendingDelete || !Due(t, firstUs) then Result(r, if t.status == Purged then AlreadyPurged else NotDue)
    else if mailInFlight then Result(r, MailInFlight)
    else if s.status != Suspended then Result(r, PurgeSubscriptionInvalid)
    else if !Due(t, lastUs) then Result(r, PurgeStateChanged)
    else Result(Rows(t.(status := Purged, version := t.version + 1), s.(version := s.version + 1)), Done)
  }

  // ---- the service, statement by statement ----------------------------------------------------------

  /** The two rows as the transactions update them; a transaction that fails rolls back. */
  class TenantRecord {
    const addYear: Calendar
    var tenant: Tenant
    var subscription: Subscription

    constructor (addYear: Calendar, rows: Rows)
      ensures Contents() == rows && this.addYear == addYear
    {
      this.addYear := addYear;
      tenant, subscription := rows.tenant, rows.subscription;
    }

    function Contents(): Rows
      reads this
    {
      Rows(tenant, subscription)
    }

    method Update(c: SubscriptionChange, now: Ms) returns (outcome: Outcome)
      modifies this
      ensures Result(Contents(), outcome) == UpdateSubscription(old(Contents()), c, now)
      ensures tenant == old(tenant)
      ensures outcome == Done ==>
                && subscription.version == c.version + 1 && subscription.status == c.status && subscription.startAt < subscription.endAt
                && !InDeletion(tenant.status) && (c.status == Trial || c.status == Paid ==> now < subscription.endAt)
                && (c.status == Suspended ==>
                      subscription.startAt == old(subscription.startAt) && subscription.endAt == old(subscription.endAt))
      ensures outcome != Done ==> subscription == old(subscription)
    {
      if c.endAt <= c.startAt { return InvalidInterval; }
      if (c.status == Trial || c.status == Paid) && c.endAt <= now { return InvalidInterval; }
      if c.status == Expired && c.endAt > now { return ExpiredEndInFuture; }
      if InDeletion(tenant.status) { return DeletionConflict; }
      if c.status == Suspended && (c.startAt != subscription.startAt || c.endAt != subscription.endAt) {
        return IntervalMustBePreserved;
      }
      if subscription.version != c.version { return VersionConflict; }
      subscription := Subscription(c.status, c.startAt, c.endAt, subscription.version + 1);
      outcome := Done;
    }

    method Delete(sessionValid: bool, passwordOk: bool, nowUs: Us) returns (outcome: Outcome)
      requires LifecycleCheck(addYear, tenant)
      modifies this
      ensures Result(Contents(), outcome) == DeleteTenant(addYear, old(Contents()), sessionValid, passwordOk, nowUs)
      ensures LifecycleCheck(addYear, tenant)
    {
      if !sessionValid { return SessionInvalid; }
      if !passwordOk { return PasswordInvalid; }
      if tenant.status == PendingDelete { return AlreadyPending(tenant.deletedAt.value, tenant.purgeAfter.value); }
      if tenant.status == Purged { return DeletionConflict; }
      if subscription.status == Paid { return ActiveSubscription; }
      var stamp := TruncMs(nowUs);
      tenant := tenant.(status := PendingDelete, deletedAt := Some(stamp), purgeAfter := Some(addYear(stamp)),
                        fromStatus := Some(tenant.status), fromSubscription := Some(subscription.status),
                        version := tenant.version + 1);
      subscription := subscription.(status := Suspended, version := subscription.version + 1);
      outcome := Started(stamp, addYear(stamp));
    }

    method Restore(sessionValid: bool, nowUs: Us) returns (outcome: Outcome)
      requires LifecycleCheck(addYear, tenant)
      modifies this
      ensures Result(Contents(), outcome) == RestoreTenant(old(Contents()), sessionValid, nowUs)
    {
      if !sessionValid { return SessionInvalid; }
      var locked := tenant;
      if locked.status != PendingDelete { return NotPendingDelete; }
      if !SnapshotValid(locked) { return RestoreStateInvalid; }
      if tenant.purgeAfter.value * 1000 > nowUs {
        tenant := tenant.(status := locked.fromStatus.value, deletedAt := None, purgeAfter := None, fromStatus := None,
                          fromSubscription := None, version := tenant.version + 1);
      } else {
        return RestoreExpired;
      }
      if subscription.status != Suspended {
        tenant := locked;
        return RestoreStateInvalid;
      }
      subscription := subscription.(status := locked.fromSubscription.value, version := subscription.version + 1);
      outcome := Done;
    }

    method SetLocationLimit(limit: nat, version: nat, usage: nat) returns (outcome: Outcome)
      modifies this
      ensures Result(Contents(), outcome) == UpdateLocationLimit(old(Contents()), limit, version, usage)
      ensures subscription == old(subscription)
      ensures outcome == Done ==> usage <= tenant.locationLimit && tenant.version == old(tenant.version) + 1
                                  && tenant == old(tenant).(locationLimit := limit, version := tenant.version)
      ensures outcome != Done ==> tenant == old(tenant) && (old(tenant.version) != version || limit < usage)
    {
      if tenant.version != version { return VersionConflict; }
      if limit < usage { return LimitBelowUsage; }
      tenant := tenant.(locationLimit := limit, version := tenant.version + 1);
      outcome := Done;
    }

    method Purge(mailInFlight: bool, firstUs: Us, lastUs: Us) returns (outcome: Outcome)
      modifies this
      ensures Result(Contents(), outcome) == PurgeTenant(old(Contents()), mailInFlight, firstUs, lastUs)
    {
      if tenant.status != PendingDelete || !Due(tenant, firstUs) {
        return if tenant.status == Purged then AlreadyPurged else NotDue;
      }
      if mailInFlight { return MailInFlight; }
      var before := subscription;
      if subscription.status != Suspended { return PurgeSubscriptionInvalid; }
      subscription := subscription.(version := subscription.version + 1);
      if tenant.status == PendingDelete && Due(tenant, lastUs) {
        tenant := tenant.(status := Purged, version := tenant.version + 1);
        outcome := Done;
      } else {
        subscription := before;
        outcome := PurgeStateChanged;
      }
    }
  }

  // ---- runs -----------------------------------------------------------------------------------------

  datatype Step =
    | SubscriptionStep(change: SubscriptionChange, now: Ms)
    | DeleteStep(sessionValid: bool, passwordOk: bool, nowUs: Us)
    | RestoreStep(sessionValid: bool, nowUs: Us)
    | LimitStep(limit: nat, version: nat, usage: nat)
    | PurgeStep(mailInFlight: bool, firstUs: Us, lastUs: Us)

  function Apply(addYear: Calendar, r: Rows, step: Step): Result {
    match step
    case SubscriptionStep(c, now) => UpdateSubscription(r, c, now)
    case DeleteStep(sessionValid, passwordOk, nowUs) => DeleteTenant(addYear, r, sessionValid, passwordOk, nowUs)
    case RestoreStep(sessionValid, nowUs) => RestoreTenant(r, sessionValid, nowUs)
    case LimitStep(limit, version, usage) => UpdateLocationLimit(r, limit, version, usage)
    case PurgeStep(mailInFlight, firstUs, lastUs) => PurgeTenant(r, mailInFlight, firstUs, lastUs)
  }

  function Exec(addYear: Calendar, r: Rows, steps: seq<Step>): Rows
    decreases |steps|
  {
    if steps == [] then r else Exec(addYear, Apply(addYear, r, steps[0]).rows, steps[1..])
  }

  /** A tenant as createTenant inserts it, or as an earlier release left it. */
  predicate Init(r: Rows) {
    && !InDeletion(r.tenant.status)
    && r.tenant.deletedAt.None? && r.tenant.purgeAfter.None? && r.tenant.fromStatus.None? && r.tenant.fromSubscription.None?
    && r.subscription.startAt < r.subscription.endAt
  }

  ghost predicate Reachable(addYear: Calendar, r: Rows) {
    exists init, steps :: Init(init) && Exec(addYear, init, steps) == r
  }

  /** What every reachable pair of rows satisfies. */
  predicate Inv(addYear: Calendar, r: Rows) {
    && LifecycleCheck(addYear, r.tenant)
    && r.tenant.status != StagingDeleting
    && r.subscription.startAt < r.subscription.endAt
    && (r.tenant.status == PendingDelete || r.tenant.status == Purged ==>
          && r.subscription.status == Suspended
          && SnapshotValid(r.tenant) && r.tenant.fromStatus.value != StagingDeleting
          && r.tenant.fromSubscription.value != Paid)
  }

  lemma StepKeepsInv(addYear: Calendar, r: Rows, step: Step)
    requires Inv(addYear, r)
    ensures Inv(addYear, Apply(addYear, r, step).rows)
  {
  }

  lemma {:induction false} RunKeepsInv(addYear: Calendar, r: Rows, steps: seq<Step>)
    requires Inv(addYear, r)
    ensures Inv(addYear, Exec(addYear, r, steps))
    decreases |steps|
  {
    if steps != [] {
      StepKeepsInv(addYear, r, steps[0]);
      RunKeepsInv(addYear, Apply(addYear, r, steps[0]).rows, steps[1..]);
    }
  }

  /**
   In every reachable state a tenant in deletion has a suspended subscription and both snapshots
   valid, no write breaks the CHECK constraint, and so neither RESTORE_STATE_INVALID nor
   TENANT_PURGE_SUBSCRIPTION_INVALID is ever returned.
   */
  lemma {:induction false} InvalidStateIsUnreachable(addYear: Calendar, r: Rows, step: Step)
    requires Reachable(addYear, r)
    ensures Inv(addYear, r) && LifecycleCheck(addYear, Apply(addYear, r, step).rows.tenant)
    ensures Apply(addYear, r, step).outcome != RestoreStateInvalid
    ensures Apply(addYear, r, step).outcome != PurgeSubscriptionInvalid
  {
    var init, steps :| Init(init) && Exec(addYear, init, steps) == r;
    RunKeepsInv(addYear, init, steps);
    StepKeepsInv(addYear, r, step);
  }

  /** The purge fails in its last statement exactly if the clock went back over the deadline meanwhile. */
  lemma StateChangedMeansClockWentBack(addYear: Calendar, r: Rows, firstUs: Us, lastUs: Us)
    requires Inv(addYear, r)
    ensures PurgeTenant(r, false, firstUs, lastUs).outcome == PurgeStateChanged <==>
            r.tenant.status == PendingDelete && lastUs < r.tenant.purgeAfter.value * 1000 <= firstUs
  {
  }

  // ---- deadlines ------------------------------------------------------------------------------------

  /**
   At each instant exactly one of restore and purge is open to a tenant in deletion. Restore is
   open from the moment of the deletion on, as the year is not empty.
   */
  lemma DeadlinesAreComplements(addYear: Calendar, r: Rows, nowUs: Us)
    requires Inv(addYear, r) && r.tenant.status == PendingDelete
    ensures RestoreTenant(r, true, nowUs).outcome == Done <==> PurgeTenant(r, false, nowUs, nowUs).outcome == NotDue
    ensures RestoreTenant(r, true, nowUs).outcome == RestoreExpired <==> PurgeTenant(r, false, nowUs, nowUs).outcome == Done
    ensures RestoreTenant(r, true, nowUs).outcome == Done || RestoreTenant(r, true, nowUs).outcome == RestoreExpired
    ensures nowUs < (r.tenant.deletedAt.value + 1) * 1000 && (forall t :: addYear(t) > t) ==> RestoreTenant(r, true, nowUs).outcome == Done
  {
    assert addYear(r.tenant.deletedAt.value) == r.tenant.purgeAfter.value;
  }

  // ---- delete, then restore -------------------------------------------------------------------------

  /** The tenant is pending after every step. */
  predicate StaysPending(addYear: Calendar, r: Rows, steps: seq<Step>)
    decreases |steps|
  {
    steps == [] ||
    var r' := Apply(addYear, r, steps[0]).rows;
    r'.tenant.status == PendingDelete && StaysPending(addYear, r', steps[1..])
  }

  /** Successful changes of the location limit, which are the only writes a pending tenant accepts. */
  function LimitChanges(addYear: Calendar, r: Rows, steps: seq<Step>): nat
    decreases |steps|
  {
    if steps == [] then 0
    else
      var a := Apply(addYear, r, steps[0]);
      (if steps[0].LimitStep? && a.outcome == Done then 1 else 0) + LimitChanges(addYear, a.rows, steps[1..])
  }

  predicate SameBut(t: Tenant, t': Tenant, extra: nat) {
    t' == t.(locationLimit := t'.locationLimit, version := t.version + extra)
  }

  lemma {:induction false} PendingKeepsRecord(addYear: Calendar, r: Rows, steps: seq<Step>)
    requires r.tenant.status == PendingDelete && StaysPending(addYear, r, steps)
    ensures Exec(addYear, r, steps).subscription == r.subscription
    ensures SameBut(r.tenant, Exec(addYear, r, steps).tenant, LimitChanges(addYear, r, steps))
    decreases |steps|
  {
    if steps != [] {
      PendingStepKeepsRecord(addYear, r, steps[0]);
      PendingKeepsRecord(addYear, Apply(addYear, r, steps[0]).rows, steps[1..]);
    }
  }

  lemma PendingStepKeepsRecord(addYear: Calendar, r: Rows, step: Step)
    requires r.tenant.status == PendingDelete && Apply(addYear, r, step).rows.tenant.status == PendingDelete
    ensures var a := Apply(addYear, r, step);
            && a.rows.subscription == r.subscription
            && SameBut(r.tenant, a.rows.tenant, if step.LimitStep? && a.outcome == Done then 1 else 0)
  {
  }

  /**
   Delete, then anything that leaves the tenant pending, then restore: both statuses and the
   subscription interval are back, the deletion record is gone, the subscription's version is up
   by two, and the tenant's by two plus the location-limit changes made meanwhile.
   */
  lemma {:induction false} DeleteThenRestore(addYear: Calendar, r: Rows, deleteUs: Us, steps: seq<Step>, restoreUs: Us)
    requires Reachable(addYear, r) && DeleteTenant(addYear, r, true, true, deleteUs).outcome.Started?
    requires StaysPending(addYear, DeleteTenant(addYear, r, true, true, deleteUs).rows, steps)
    requires restoreUs < addYear(TruncMs(deleteUs)) * 1000
    ensures var deleted := DeleteTenant(addYear, r, true, true, deleteUs).rows;
            var restored := RestoreTenant(Exec(addYear, deleted, steps), true, restoreUs);
            && restored.outcome == Done
            && restored.rows.subscription == r.subscription.(version := r.subscription.version + 2)
            && SameBut(r.tenant, restored.rows.tenant, 2 + LimitChanges(addYear, deleted, steps))
  {
    InvalidStateIsUnreachable(addYear, r, DeleteStep(true, true, deleteUs));
    PendingKeepsRecord(addYear, DeleteTenant(addYear, r, true, true, deleteUs).rows, steps);
  }

  /** Repeating the deletion while it is pending reports the first one's dates and writes nothing. */
  lemma {:induction false} RepeatedDeleteIsReplay(addYear: Calendar, r: Rows, deleteUs: Us, steps: seq<Step>, againUs: Us)
    requires Reachable(addYear, r) && DeleteTenant(addYear, r, true, true, deleteUs).outcome.Started?
    requires StaysPending(addYear, DeleteTenant(addYear, r, true, true, deleteUs).rows, steps)
    ensures var later := Exec(addYear, DeleteTenant(addYear, r, true, true, deleteUs).rows, steps);
            DeleteTenant(addYear, later, true, true, againUs) ==
            Result(later, AlreadyPending(TruncMs(deleteUs), addYear(TruncMs(deleteUs))))
  {
    PendingKeepsRecord(addYear, DeleteTenant(addYear, r, true, true, deleteUs).rows, steps);
  }

  /** With a valid session and password, a deletion starts exactly if the tenant is not in deletion and has no active subscription. */
  lemma DeletionStartsExactly(addYear: Calendar, r: Rows, nowUs: Us)
    requires Inv(addYear, r)
    ensures DeleteTenant(addYear, r, true, true, nowUs).outcome.Started? <==>
            !InDeletion(r.tenant.status) && r.subscription.status != Paid
    ensures r.subscription.status == Paid ==> DeleteTenant(addYear, r, true, true, nowUs) == Result(r, ActiveSubscription)
  {
  }

  /** A dead session or a wrong password writes nothing and says so; nothing that is not accepted writes anything. */
  lemma RefusalsWriteNothing(addYear: Calendar, r: Rows, sessionValid: bool, passwordOk: bool, nowUs: Us)
    ensures var deletion := Apply(addYear, r, DeleteStep(sessionValid, passwordOk, nowUs));
            && (deletion.outcome == SessionInvalid <==> !sessionValid)
            && (deletion.outcome == PasswordInvalid <==> sessionValid && !passwordOk)
            && (!deletion.outcome.Started? ==> deletion.rows == r)
    ensures var restore := Apply(addYear, r, RestoreStep(sessionValid, nowUs));
            (restore.outcome == SessionInvalid <==> !sessionValid) && (restore.outcome != Done ==> restore.rows == r)
  {
  }

  /** A new limit is taken exactly if the version is the one that was read and the limit is not below the usage. */
  lemma LimitTakenExactly(addYear: Calendar, r: Rows, limit: nat, version: nat, usage: nat)
    ensures var a := Apply(addYear, r, LimitStep(limit, version, usage));
            && (a.outcome == Done <==> version == r.tenant.version && usage <= limit)
            && a.rows == if a.outcome == Done then r.(tenant := r.tenant.(locationLimit := limit, version := version + 1)) else r
  {
  }

  /** What an accepted deletion writes: the dates a year apart, both snapshots, and the suspension. */
  lemma DeletionInRows(addYear: Calendar, r: Rows, nowUs: Us)
    ensures var a := Apply(addYear, r, DeleteStep(true, true, nowUs));
            a.outcome.Started? ==>
              && a.outcome == Started(nowUs / 1000, addYear(nowUs / 1000))
              && a.rows.tenant == r.tenant.(status := PendingDelete, deletedAt := Some(nowUs / 1000),
                                            purgeAfter := Some(addYear(nowUs / 1000)), fromStatus := Some(r.tenant.status),
                                            fromSubscription := Some(r.subscription.status), version := r.tenant.version + 1)
              && a.rows.subscription == r.subscription.(status := Suspended, version := r.subscription.version + 1)
  {
  }

  /**
   The deadline itself: in a reachable state a purge is carried out exactly if the tenant is pending, no
   mail is in flight, and a year has passed since its deletion at both clock readings; and a restore
   exactly if the year has not passed.
   */
  lemma {:induction false} PurgedAfterAYearExactly(addYear: Calendar, r: Rows, mailInFlight: bool, firstUs: Us, lastUs: Us)
    requires Reachable(addYear, r)
    ensures var a := Apply(addYear, r, PurgeStep(mailInFlight, firstUs, lastUs));
            && (a.outcome == Done <==>
                  && r.tenant.status == PendingDelete && r.tenant.deletedAt.Some? && !mailInFlight
                  && addYear(r.tenant.deletedAt.value) * 1000 <= firstUs && addYear(r.tenant.deletedAt.value) * 1000 <= lastUs)
            && (a.outcome == Done ==> a.rows.tenant == r.tenant.(status := Purged, version := r.tenant.version + 1)
                                      && a.rows.subscription == r.subscription.(version := r.subscription.version + 1))
            && (a.outcome != Done ==> a.rows == r)
    ensures Apply(addYear, r, RestoreStep(true, firstUs)).outcome == Done <==>
              r.tenant.status == PendingDelete && r.tenant.deletedAt.Some? && firstUs < addYear(r.tenant.deletedAt.value) * 1000
  {
    InvalidStateIsUnreachable(addYear, r, PurgeStep(mailInFlight, firstUs, lastUs));
  }

  /**
   An accepted subscription change leaves a state that agrees with the clock: a trial or active
   subscription still runs, an expired one has ended, a suspended one keeps its interval. With the
   right version nothing else is refused to a tenant outside the deletion flow.
   */
  lemma SubscriptionChangesAreSound(r: Rows, c: SubscriptionChange, now: Ms)
    ensures var a := UpdateSubscription(r, c, now);
            var s := a.rows.subscription;
            && (a.outcome == Done ==>
                  && (s.status == Trial || s.status == Paid ==> now < s.endAt) && (s.status == Expired ==> s.endAt <= now)
                  && (s.status == Suspended ==> s.startAt == r.subscription.startAt && s.endAt == r.subscription.endAt)
                  && s.startAt < s.endAt && a.rows.tenant == r.tenant)
            && (a.outcome != Done ==> a.rows == r)
            && (!InDeletion(r.tenant.status) && c.version == r.subscription.version && c.startAt < c.endAt
                && (c.status == Suspended ==> c.startAt == r.subscription.startAt && c.endAt == r.subscription.endAt)
                && (c.status == Expired ==> c.endAt <= now) && (c.status == Trial || c.status == Paid ==> now < c.endAt)
                ==> a.outcome == Done)
  {
  }

  // ---- purged ---------------------------------------------------------------------------------------

  /** Purged is for good: only the location limit and its version can still change. */
  lemma {:induction false} PurgedIsForever(addYear: Calendar, r: Rows, steps: seq<Step>)
    requires Inv(addYear, r) && r.tenant.status == Purged
    ensures var r' := Exec(addYear, r, steps);
            && r'.subscription == r.subscription
            && r'.tenant == r.tenant.(locationLimit := r'.tenant.locationLimit, version := r'.tenant.version)
    decreases |steps|
  {
    if steps != [] {
      StepKeepsInv(addYear, r, steps[0]);
      PurgedIsForever(addYear, Apply(addYear, r, steps[0]).rows, steps[1..]);
    }
  }

  // ---- optimistic versions --------------------------------------------------------------------------

  /** Either row is unchanged or its version went up. */
  predicate VersionsMove(r: Rows, r': Rows) {
    && (r'.subscription == r.subscription || r'.subscription.version > r.subscription.version)
    && (r'.tenant == r.tenant || r'.tenant.version > r.tenant.version)
  }

  lemma {:induction false} VersionsMoveOverRuns(addYear: Calendar, r: Rows, steps: seq<Step>)
    ensures VersionsMove(r, Exec(addYear, r, steps))
    decreases |steps|
  {
    if steps != [] {
      assert VersionsMove(r, Apply(addYear, r, steps[0]).rows);
      VersionsMoveOverRuns(addYear, Apply(addYear, r, steps[0]).rows, steps[1..]);
    }
  }

  /**
   No update is lost: a change that carries the version an administrator read is applied, however
   much later, only to the very row that was read.
   */
  lemma {:induction false} NoLostUpdate(
    addYear: Calendar, read: Rows, steps: seq<Step>, c: SubscriptionChange, now: Ms, limit: nat, usage: nat)
    requires c.version == read.subscription.version
    ensures var later := Exec(addYear, read, steps);
            && (UpdateSubscription(later, c, now).outcome == Done ==> later.subscription == read.subscription)
            && (UpdateLocationLimit(later, limit, read.tenant.version, usage).outcome == Done ==> later.tenant == read.tenant)
  {
    VersionsMoveOverRuns(addYear, read, steps);
  }
}
