/**
 What happens to a location or person between the scheduling of its deletion and the restore: which
 requests that are still open when the scheduling is written can disturb it, and what a restore
 gives back.
 */
module ScheduledDeletion {
  import opened Base
  import opened Locations

  // ---- locations: which open requests disturb a scheduled row ------------------------------------------

  /** Writing the request leaves the row as it is. */
  predicate Harmless(row: Location, r: Request) {
    WriteLocation(row, r) == row
  }

  predicate On(r: Request, l: LocationId) { OfLocation(r) && r.location == l }

  /** No open request on the location would change its row. */
  predicate Undisturbed(w: World, l: LocationId)
    requires l in w.locations
  {
    forall id | id in w.open && On(w.open[id], l) :: Harmless(w.locations[l], w.open[id])
  }

  /** A scheduled row is changed by exactly these requests, if they were open when it was scheduled. */
  lemma DisturbsExactly(row: Location, r: Request)
    requires LocationOk(row) && row.status == PendingDelete && OfLocation(r) && SaneValues(r)
    ensures !Harmless(row, r) <==>
            || r.SettingStatus?
            || (r.Renaming? && r.name != row.name)
            || (r.SchedulingLocation? && (Some(r.seen) != row.from || Some(r.now) != row.deletedAt))
            || (r.RestoringLocation? && row.purgeAfter.value > r.now)
  {
  }

  /** The step neither begins a restore of the location nor purges it. */
  predicate Spares(step: Step, l: LocationId, t: TenantId) {
    && !(step.Begin? && step.request.RestoringLocation? && step.request.location == l)
    && !(step.PurgeLocationStep? && step.location == l)
    && !(step.PurgeTenantStep? && step.tenant == t)
  }

  predicate AllSpare(steps: seq<Step>, l: LocationId, t: TenantId) {
    forall st | st in steps :: Spares(st, l, t)
  }

  lemma UndisturbedStep(w: World, step: Step, l: LocationId)
    requires Enabled(w, step) && l in w.locations && w.locations[l].status == PendingDelete
    requires Undisturbed(w, l) && Spares(step, l, w.locations[l].tenant)
    ensures var w' := Apply(w, step); l in w'.locations && w'.locations[l] == w.locations[l] && Undisturbed(w', l)
  {
    match step
    case Begin(_, _) =>
    case Commit(id, _) => assert On(w.open[id], l) ==> Harmless(w.locations[l], w.open[id]);
    case Abandon(_) =>
    case Create(_, _, _, _) =>
    case SetLimit(_, _) =>
    case PurgeLocationStep(_, _) =>
    case PurgePersonStep(_, _) =>
    case PurgeTenantStep(_) =>
  }

  lemma {:induction false} UndisturbedRun(w: World, steps: seq<Step>, l: LocationId)
    requires ValidRun(w, steps) && l in w.locations && w.locations[l].status == PendingDelete
    requires Undisturbed(w, l) && AllSpare(steps, l, w.locations[l].tenant)
    ensures var w' := Exec(w, steps); l in w'.locations && w'.locations[l] == w.locations[l]
    decreases |steps|
  {
    if steps != [] {
      assert steps[0] in steps;
      UndisturbedStep(w, steps[0], l);
      UndisturbedRun(Apply(w, steps[0]), steps[1..], l);
    }
  }

  lemma {:induction false} SingleStep(w: World, step: Step)
    requires Enabled(w, step)
    ensures ValidRun(w, [step]) && Exec(w, [step]) == Apply(w, step)
  {
    assert [step][1..] == [];
    assert ValidRun(Apply(w, step), []) && Exec(Apply(w, step), []) == Apply(w, step);
  }

  lemma {:induction false} DisturbingCommit(w: World, l: LocationId, id: RequestId, newId: PersonId)
    requires Inv(w) && l in w.locations && w.locations[l].status == PendingDelete && newId !in w.people
    requires id in w.open && On(w.open[id], l) && !Harmless(w.locations[l], w.open[id])
    ensures ValidRun(w, [Commit(id, newId)]) && AllSpare([Commit(id, newId)], l, w.locations[l].tenant)
    ensures var w' := Exec(w, [Commit(id, newId)]); l in w'.locations && w'.locations[l] != w.locations[l]
  {
    SingleStep(w, Commit(id, newId));
    assert !OfPurgedTenant(w, l);
  }

  /** In every run that begins no restore of the location and does not purge it, the row stays as it is. */
  ghost predicate Frozen(w: World, l: LocationId)
    requires l in w.locations
  {
    forall steps: seq<Step> | ValidRun(w, steps) && AllSpare(steps, l, w.locations[l].tenant) ::
      l in Exec(w, steps).locations && Exec(w, steps).locations[l] == w.locations[l]
  }

  /**
   A scheduled row is frozen exactly if none of the requests that are open on it would change it:
   no status change, no rename to another name, no scheduling from another read, and no restore
   left from an earlier scheduling whose deadline test still passes.
   */
  lemma FrozenExactly(w: World, l: LocationId)
    requires Reachable(w) && l in w.locations && w.locations[l].status == PendingDelete
    ensures Frozen(w, l) <==> Undisturbed(w, l)
  {
    ReachableIsOk(w);
    if Undisturbed(w, l) {
      forall steps: seq<Step> | ValidRun(w, steps) && AllSpare(steps, l, w.locations[l].tenant)
        ensures l in Exec(w, steps).locations && Exec(w, steps).locations[l] == w.locations[l]
      {
        UndisturbedRun(w, steps, l);
      }
    } else {
      var id :| id in w.open && On(w.open[id], l) && !Harmless(w.locations[l], w.open[id]);
      var newId := FreshNat(w.people.Keys);
      DisturbingCommit(w, l, id, newId);
    }
  }

  // ---- locations: schedule, then restore ---------------------------------------------------------------

  /** Every open request on the location is harmless, or restores what is scheduled now. */
  predicate OnlyRestores(w: World, l: LocationId)
    requires l in w.locations
  {
    forall id | id in w.open && On(w.open[id], l) ::
      || Harmless(w.locations[l], w.open[id])
      || (w.open[id].RestoringLocation? && w.open[id].to == RestoredStatus(w.locations[l].from))
  }

  function RestoredLocation(row: Location): Location {
    row.(status := RestoredStatus(row.from), deletedAt := None, purgeAfter := None, from := None)
  }

  /** Such a location stays as it is until it is restored or purged. */
  lemma ScheduledStep(w: World, step: Step, l: LocationId)
    requires Enabled(w, step) && l in w.locations && w.locations[l].status == PendingDelete && OnlyRestores(w, l)
    ensures l in Apply(w, step).locations
    ensures var row' := Apply(w, step).locations[l];
            || (row' == w.locations[l] && OnlyRestores(Apply(w, step), l))
            || (row' == RestoredLocation(w.locations[l]) && step.Commit?)
            || (row' == PurgedLocation(w.locations[l]) && (step.PurgeLocationStep? || step.PurgeTenantStep?))
  {
    match step
    case Begin(_, _) =>
    case Commit(id, _) =>
      assert On(w.open[id], l) ==> Harmless(w.locations[l], w.open[id]) || w.open[id].RestoringLocation?;
    case Abandon(_) =>
    case Create(_, _, _, _) =>
    case SetLimit(_, _) =>
    case PurgeLocationStep(_, _) =>
    case PurgePersonStep(_, _) =>
    case PurgeTenantStep(_) =>
  }

  /** The location is scheduled after every step. */
  predicate StaysScheduled(w: World, steps: seq<Step>, l: LocationId)
    decreases |steps|
  {
    l in w.locations && w.locations[l].status == PendingDelete
    && (steps == [] || StaysScheduled(Apply(w, steps[0]), steps[1..], l))
  }

  lemma {:induction false} ScheduledRun(w: World, steps: seq<Step>, l: LocationId)
    requires ValidRun(w, steps) && StaysScheduled(w, steps, l) && OnlyRestores(w, l)
    ensures var w' := Exec(w, steps); l in w'.locations && w'.locations[l] == w.locations[l] && OnlyRestores(w', l)
    decreases |steps|
  {
    if steps != [] {
      ScheduledStep(w, steps[0], l);
      assert StaysScheduled(Apply(w, steps[0]), steps[1..], l);
      ScheduledRun(Apply(w, steps[0]), steps[1..], l);
    }
  }

  /**
   Schedule, with nothing open that disturbs it (FrozenExactly); then any run in which the location
   stays scheduled, restores that are begun included; then the step that ends it. The row is purged,
   or it is the row from before with the status that the scheduling request had read and no deletion
   record. So a restore undoes the scheduling exactly if the status did not change between the
   request's read and its write.
   */
  lemma {:induction false} ScheduleThenRestore(w: World, id: RequestId, newId: PersonId, steps: seq<Step>, last: Step)
    requires Reachable(w) && Enabled(w, Commit(id, newId)) && w.open[id].SchedulingLocation?
    requires var w1 := Apply(w, Commit(id, newId));
             && w.open[id].location in w1.locations && Undisturbed(w1, w.open[id].location) && ValidRun(w1, steps)
             && StaysScheduled(w1, steps, w.open[id].location) && Enabled(Exec(w1, steps), last)
    ensures var l := w.open[id].location;
            var w2 := Exec(Apply(w, Commit(id, newId)), steps);
            var w3 := Apply(w2, last);
            && l in w.locations && l in w2.locations && l in w3.locations
            && (w3.locations[l].status != PendingDelete && w3.locations[l].status != Purged ==>
                  && w3.locations[l] == w.locations[l].(status := w.open[id].seen, deletedAt := None, purgeAfter := None, from := None)
                  && (w3.locations[l].status == w.locations[l].status <==> w.open[id].seen == w.locations[l].status))
            && (w3.locations[l].status == Purged ==> w3.locations[l] == PurgedLocation(w2.locations[l]))
  {
    ReachableIsOk(w);
    var l := w.open[id].location;
    assert RequestOk(w, w.open[id]);
    var w1 := Apply(w, Commit(id, newId));
    if Rejected(w, w.open[id]) {
      assert OfPurgedTenant(w, l) && StaysScheduled(w1, steps, l);
    } else {
      assert w1.locations[l] == WriteLocation(w.locations[l], w.open[id]);
    }
    ScheduledRun(w1, steps, l);
    ScheduledStep(Exec(w1, steps), last, l);
  }

  // ---- people ----------------------------------------------------------------------------------------

  predicate HarmlessTo(row: Person, r: Request) {
    WritePerson(row, r) == row
  }

  predicate OnPerson(r: Request, p: PersonId) { OfPerson(r) && r.person == p }

  predicate PersonUndisturbed(w: World, p: PersonId)
    requires p in w.people
  {
    forall id | id in w.open && OnPerson(w.open[id], p) :: HarmlessTo(w.people[p], w.open[id])
  }

  lemma DisturbsPersonExactly(w: World, row: Person, r: Request)
    requires PersonOk(w, row) && row.status == PendingDelete && OfPerson(r) && SaneValues(r)
    ensures !HarmlessTo(row, r) <==>
            || r.SettingPerson?
            || (r.UpdatingPerson?
                && ((r.newName.Some? && r.newName.value != row.name) || (r.newEmail.Some? && r.newEmail.value != row.email)))
            || (r.SchedulingPerson? && (Some(r.seen) != row.from || Some(r.now) != row.deletedAt))
            || (r.RestoringPerson? && row.purgeAfter.value > r.now)
  {
  }

  /** The step neither begins a restore of the person nor purges them, alone, with the location or with the tenant. */
  predicate SparesPerson(step: Step, p: PersonId, row: Person) {
    && !(step.Begin? && step.request.RestoringPerson? && step.request.person == p)
    && !(step.PurgePersonStep? && step.person == p)
    && !(step.PurgeLocationStep? && step.location == row.location)
    && !(step.PurgeTenantStep? && step.tenant == row.tenant)
  }

  predicate AllSparePerson(steps: seq<Step>, p: PersonId, row: Person) {
    forall st | st in steps :: SparesPerson(st, p, row)
  }

  lemma PersonUndisturbedStep(w: World, step: Step, p: PersonId)
    requires Enabled(w, step) && p in w.people && w.people[p].status == PendingDelete
    requires PersonUndisturbed(w, p) && SparesPerson(step, p, w.people[p])
    ensures var w' := Apply(w, step); p in w'.people && w'.people[p] == w.people[p] && PersonUndisturbed(w', p)
  {
    match step
    case Begin(_, _) =>
    case Commit(id, _) => assert OnPerson(w.open[id], p) ==> HarmlessTo(w.people[p], w.open[id]);
    case Abandon(_) =>
    case Create(_, _, _, _) =>
    case SetLimit(_, _) =>
    case PurgeLocationStep(_, _) =>
    case PurgePersonStep(_, _) =>
    case PurgeTenantStep(_) =>
  }

  lemma {:induction false} PersonUndisturbedRun(w: World, steps: seq<Step>, p: PersonId)
    requires ValidRun(w, steps) && p in w.people && w.people[p].status == PendingDelete
    requires PersonUndisturbed(w, p) && AllSparePerson(steps, p, w.people[p])
    ensures var w' := Exec(w, steps); p in w'.people && w'.people[p] == w.people[p]
    decreases |steps|
  {
    if steps != [] {
      assert steps[0] in steps;
      PersonUndisturbedStep(w, steps[0], p);
      PersonUndisturbedRun(Apply(w, steps[0]), steps[1..], p);
    }
  }

  lemma {:induction false} DisturbingPersonCommit(w: World, p: PersonId, id: RequestId, newId: PersonId)
    requires Inv(w) && p in w.people && w.people[p].status == PendingDelete && newId !in w.people
    requires id in w.open && OnPerson(w.open[id], p) && !HarmlessTo(w.people[p], w.open[id])
    ensures ValidRun(w, [Commit(id, newId)]) && AllSparePerson([Commit(id, newId)], p, w.people[p])
    ensures var w' := Exec(w, [Commit(id, newId)]); p in w'.people && w'.people[p] != w.people[p]
  {
    SingleStep(w, Commit(id, newId));
    assert PersonOk(w, w.people[p]);
    assert !OfPurgedTenant(w, w.people[p].location);
  }

  ghost predicate PersonFrozen(w: World, p: PersonId)
    requires p in w.people
  {
    forall steps: seq<Step> | ValidRun(w, steps) && AllSparePerson(steps, p, w.people[p]) ::
      p in Exec(w, steps).people && Exec(w, steps).people[p] == w.people[p]
  }

  /** A scheduled person's row is frozen exactly if none of the requests open on it would change it. */
  lemma PersonFrozenExactly(w: World, p: PersonId)
    requires Reachable(w) && p in w.people && w.people[p].status == PendingDelete
    ensures PersonFrozen(w, p) <==> PersonUndisturbed(w, p)
  {
    ReachableIsOk(w);
    if PersonUndisturbed(w, p) {
      forall steps: seq<Step> | ValidRun(w, steps) && AllSparePerson(steps, p, w.people[p])
        ensures p in Exec(w, steps).people && Exec(w, steps).people[p] == w.people[p]
      {
        PersonUndisturbedRun(w, steps, p);
      }
    } else {
      var id :| id in w.open && OnPerson(w.open[id], p) && !HarmlessTo(w.people[p], w.open[id]);
      var newId := FreshNat(w.people.Keys);
      DisturbingPersonCommit(w, p, id, newId);
    }
  }

  predicate OnlyPersonRestores(w: World, p: PersonId)
    requires p in w.people
  {
    forall id | id in w.open && OnPerson(w.open[id], p) ::
      || HarmlessTo(w.people[p], w.open[id])
      || (w.open[id].RestoringPerson? && w.open[id].to == RestoredStatus(w.people[p].from))
  }

  function RestoredPerson(row: Person): Person {
    row.(status := RestoredStatus(row.from), deletedAt := None, purgeAfter := None, from := None)
  }

  lemma ScheduledPersonStep(w: World, step: Step, p: PersonId)
    requires Enabled(w, step) && p in w.people && w.people[p].status == PendingDelete && OnlyPersonRestores(w, p)
    ensures p in Apply(w, step).people
    ensures var row' := Apply(w, step).people[p];
            || (row' == w.people[p] && OnlyPersonRestores(Apply(w, step), p))
            || (row' == RestoredPerson(w.people[p]) && step.Commit?)
            || (row' == PurgedPerson(w.people[p]) && (step.PurgeLocationStep? || step.PurgePersonStep? || step.PurgeTenantStep?))
  {
    match step
    case Begin(_, _) =>
    case Commit(id, _) =>
      assert OnPerson(w.open[id], p) ==> HarmlessTo(w.people[p], w.open[id]) || w.open[id].RestoringPerson?;
    case Abandon(_) =>
    case Create(_, _, _, _) =>
    case SetLimit(_, _) =>
    case PurgeLocationStep(_, _) =>
    case PurgePersonStep(_, _) =>
    case PurgeTenantStep(_) =>
  }

  predicate PersonStaysScheduled(w: World, steps: seq<Step>, p: PersonId)
    decreases |steps|
  {
    p in w.people && w.people[p].status == PendingDelete
    && (steps == [] || PersonStaysScheduled(Apply(w, steps[0]), steps[1..], p))
  }

  lemma {:induction false} ScheduledPersonRun(w: World, steps: seq<Step>, p: PersonId)
    requires ValidRun(w, steps) && PersonStaysScheduled(w, steps, p) && OnlyPersonRestores(w, p)
    ensures var w' := Exec(w, steps); p in w'.people && w'.people[p] == w.people[p] && OnlyPersonRestores(w', p)
    decreases |steps|
  {
    if steps != [] {
      ScheduledPersonStep(w, steps[0], p);
      assert PersonStaysScheduled(Apply(w, steps[0]), steps[1..], p);
      ScheduledPersonRun(Apply(w, steps[0]), steps[1..], p);
    }
  }

  /** The same for a person. */
  lemma {:induction false} SchedulePersonThenRestore(w: World, id: RequestId, newId: PersonId, steps: seq<Step>, last: Step)
    requires Reachable(w) && Enabled(w, Commit(id, newId)) && w.open[id].SchedulingPerson?
    requires var w1 := Apply(w, Commit(id, newId));
             && w.open[id].person in w1.people && PersonUndisturbed(w1, w.open[id].person) && ValidRun(w1, steps)
             && PersonStaysScheduled(w1, steps, w.open[id].person) && Enabled(Exec(w1, steps), last)
    ensures var p := w.open[id].person;
            var w2 := Exec(Apply(w, Commit(id, newId)), steps);
            var w3 := Apply(w2, last);
            && p in w.people && p in w2.people && p in w3.people
            && (w3.people[p].status != PendingDelete && w3.people[p].status != Purged ==>
                  && w3.people[p] == w.people[p].(status := w.open[id].seen, deletedAt := None, purgeAfter := None, from := None)
                  && (w3.people[p].status == w.people[p].status <==> w.open[id].seen == w.people[p].status))
            && (w3.people[p].status == Purged ==> w3.people[p] == PurgedPerson(w2.people[p]))
  {
    ReachableIsOk(w);
    var p := w.open[id].person;
    assert RequestOk(w, w.open[id]);
    var w1 := Apply(w, Commit(id, newId));
    if Rejected(w, w.open[id]) {
      assert PersonOk(w, w.people[p]) && OfPurgedTenant(w, w.people[p].location) && PersonStaysScheduled(w1, steps, p);
    } else {
      assert w1.people[p] == WritePerson(w.people[p], w.open[id]);
    }
    ScheduledPersonRun(w1, steps, p);
    ScheduledPersonStep(Exec(w1, steps), last, p);
  }

  // ---- who can still be open at a purge -------------------------------------------------------------

  lemma OldRequestsStep(w: World, step: Step, l: LocationId, id: RequestId)
    requires Inv(w) && Enabled(w, step) && l in w.locations && w.locations[l].status == PendingDelete
    requires var w' := Apply(w, step); id in w'.open && !Guarded(w'.open[id]) && Concerns(w', w'.open[id], l)
    ensures id in w.open && w.open[id] == Apply(w, step).open[id] && Concerns(w, w.open[id], l)
  {
    match step
    case Begin(i, r) => if i == id { PendingAdmitsNoRequest(w, r, l); }
    case Commit(i, newId) => assert RequestOk(w, w.open[id]);
    case Abandon(_) =>
    case Create(_, _, _, _) =>
    case SetLimit(_, _) =>
    case PurgeLocationStep(_, _) =>
    case PurgePersonStep(_, _) =>
    case PurgeTenantStep(_) =>
  }

  /**
   An unguarded request that is open at the purge of a location was open, with the same reads, all
   the time the location was scheduled: for the fourteen days, unless the clock jumped.
   */
  lemma {:induction false} OpenAtPurgeWasOpenAtScheduling(w: World, steps: seq<Step>, l: LocationId, id: RequestId)
    requires Inv(w) && ValidRun(w, steps) && StaysScheduled(w, steps, l)
    requires var w' := Exec(w, steps); id in w'.open && !Guarded(w'.open[id]) && Concerns(w', w'.open[id], l)
    ensures id in w.open && w.open[id] == Exec(w, steps).open[id] && Concerns(w, w.open[id], l)
    decreases |steps|
  {
    if steps != [] {
      var w1 := Apply(w, steps[0]);
      StepKeeps(w, steps[0]);
      OpenAtPurgeWasOpenAtScheduling(w1, steps[1..], l, id);
      OldRequestsStep(w, steps[0], l, id);
    }
  }
}
