/**
 Concrete runs in which a request that was open when a deletion was scheduled undoes or alters it,
 for a location and for a person. Two requests are open; both commit in their turn.
 */
module DeletionScenarios {
  import opened Base
  import opened Locations
  import opened ScheduledDeletion

  // ---- one location ------------------------------------------------------------------------------------

  function Row(status: Life): Location {
    Location(0, "CODE", "Hall", status, None, None, None)
  }

  /** One tenant with one location, and the requests that are open. */
  function Scene(row: Location, open: map<RequestId, Request>): World {
    World(map[0 := 1], map[0 := row], map[], {}, {}, {}, open)
  }

  lemma {:induction false} AppendStep(w: World, steps: seq<Step>, x: Step)
    requires ValidRun(w, steps) && Enabled(Exec(w, steps), x)
    ensures ValidRun(w, steps + [x]) && Exec(w, steps + [x]) == Apply(Exec(w, steps), x)
    decreases |steps|
  {
    if steps == [] {
      assert [] + [x] == [x];
      SingleStep(w, x);
    } else {
      assert (steps + [x])[1..] == steps[1..] + [x];
      AppendStep(Apply(w, steps[0]), steps[1..], x);
    }
  }

  lemma {:induction false} ReachableThen(w: World, x: Step)
    requires Reachable(w) && Enabled(w, x)
    ensures Reachable(Apply(w, x))
  {
    var init, steps :| Init(init) && ValidRun(init, steps) && Exec(init, steps) == w;
    AppendStep(init, steps, x);
  }

  lemma InitIsReachable(w: World)
    requires Init(w)
    ensures Reachable(w)
  {
    assert ValidRun(w, []) && Exec(w, []) == w;
  }

  lemma SceneStart(status: Life)
    requires InUse(status)
    ensures Reachable(Scene(Row(status), map[]))
  {
    var w := Scene(Row(status), map[]);
    assert Counted(w, 0) == {0};
    InitIsReachable(w);
  }

  lemma SceneBegins(row: Location, open: map<RequestId, Request>, id: RequestId, r: Request)
    requires Reachable(Scene(row, open)) && id !in open && On(r, 0) && Begins(Scene(row, open), r)
    ensures Reachable(Scene(row, open[id := r]))
  {
    ReachableThen(Scene(row, open), Begin(id, r));
  }

  /** A request that reads and writes with nothing in between. */
  lemma SceneDoes(row: Location, open: map<RequestId, Request>, id: RequestId, r: Request)
    requires Reachable(Scene(row, open)) && id !in open && On(r, 0) && Begins(Scene(row, open), r)
    ensures Reachable(Scene(WriteLocation(row, r), open))
  {
    SceneBegins(row, open, id, r);
    var w := Scene(row, open[id := r]);
    ReachableThen(w, Commit(id, 0));
    assert Apply(w, Commit(id, 0)).open == open;
    assert Apply(w, Commit(id, 0)) == Scene(WriteLocation(row, r), open);
  }

  /** First one open request is written, then the other. */
  ghost predicate CommitsTo(w: World, first: RequestId, second: RequestId, row1: Location, row2: Location) {
    && Enabled(w, Commit(first, 0))
    && var w1 := Apply(w, Commit(first, 0));
    && 0 in w1.locations && w1.locations[0] == row1 && Enabled(w1, Commit(second, 0))
    && var w2 := Apply(w1, Commit(second, 0));
    && 0 in w2.locations && w2.locations[0] == row2 && w2.open == map[]
  }

  lemma TwoCommits(row: Location, i: RequestId, r: Request, j: RequestId, q: Request, row1: Location, row2: Location)
    requires i != j && On(r, 0) && On(q, 0) && row1 == WriteLocation(row, q) && row2 == WriteLocation(row1, r)
    ensures CommitsTo(Scene(row, map[i := r][j := q]), j, i, row1, row2)
  {
    var w := Scene(row, map[i := r][j := q]);
    assert Apply(w, Commit(j, 0)).open == map[i := r];
    assert Apply(w, Commit(j, 0)) == Scene(WriteLocation(row, q), map[i := r]);
  }

  function Pending(from: Life, now: Ms): Location {
    Row(from).(status := PendingDelete, deletedAt := Some(now), purgeAfter := Some(now + DELETION_RETENTION_MS), from := Some(from))
  }

  /** An inactive location was activated while a scheduling that read "inactive" is still open. */
  lemma OlderReadRemains()
    ensures Reachable(Scene(Row(Active), map[1 := SchedulingLocation(0, Inactive, 0)]))
  {
    var a := SchedulingLocation(0, Inactive, 0);
    SceneStart(Inactive);
    SceneBegins(Row(Inactive), map[], 1, a);
    SceneDoes(Row(Inactive), map[1 := a], 2, SettingStatus(0, Active));
    assert WriteLocation(Row(Inactive), SettingStatus(0, Active)) == Row(Active);
  }

  lemma BothSchedulingsAreOpen()
    ensures Reachable(Scene(Row(Active), map[1 := SchedulingLocation(0, Inactive, 0)][3 := SchedulingLocation(0, Active, 1)]))
  {
    OlderReadRemains();
    SceneBegins(Row(Active), map[1 := SchedulingLocation(0, Inactive, 0)], 3, SchedulingLocation(0, Active, 1));
  }

  /**
   An older scheduling wins. The location is active, and a scheduling that read "active" is written;
   then one is written that had read "inactive". The location is scheduled throughout, and every
   restore begun after that gives "inactive".
   */
  lemma OlderSchedulingWins()
    ensures var w := Scene(Row(Active), map[1 := SchedulingLocation(0, Inactive, 0)][3 := SchedulingLocation(0, Active, 1)]);
            Reachable(w) && CommitsTo(w, 3, 1, Pending(Active, 1), Pending(Inactive, 0))
    ensures RestoredStatus(Pending(Active, 1).from) == Active && RestoredStatus(Pending(Inactive, 0).from) == Inactive
  {
    BothSchedulingsAreOpen();
    TwoCommits(Row(Active), 1, SchedulingLocation(0, Inactive, 0), 3, SchedulingLocation(0, Active, 1), Pending(Active, 1),
               Pending(Inactive, 0));
  }

  lemma StatusChangeIsOpen()
    ensures Reachable(Scene(Row(Active), map[1 := SettingStatus(0, Inactive)][2 := SchedulingLocation(0, Active, 0)]))
  {
    var a, b := SettingStatus(0, Inactive), SchedulingLocation(0, Active, 0);
    SceneStart(Active);
    SceneBegins(Row(Active), map[], 1, a);
    SceneBegins(Row(Active), map[1 := a], 2, b);
  }

  /**
   A late status change loses the deletion. It is written after the scheduling has been
   acknowledged; the location is in use again, keeps its deletion dates and snapshot, and is never
   due for the purge, while no restore was ever requested.
   */
  lemma LateStatusChangeLosesDeletion()
    ensures var w := Scene(Row(Active), map[1 := SettingStatus(0, Inactive)][2 := SchedulingLocation(0, Active, 0)]);
            Reachable(w) && CommitsTo(w, 2, 1, Pending(Active, 0), Pending(Active, 0).(status := Inactive))
    ensures forall now :: !LocationDue(Pending(Active, 0).(status := Inactive), now)
  {
    StatusChangeIsOpen();
    TwoCommits(Row(Active), 1, SettingStatus(0, Inactive), 2, SchedulingLocation(0, Active, 0),
               Pending(Active, 0), Pending(Active, 0).(status := Inactive));
  }

  /** An inactive location was scheduled and restored, and a second restore of that time is still open. */
  lemma LocationIsScheduled()
    ensures Reachable(Scene(Pending(Inactive, 0), map[]))
  {
    SceneStart(Inactive);
    SceneDoes(Row(Inactive), map[], 1, SchedulingLocation(0, Inactive, 0));
  }

  lemma StaleRestoreRemains()
    ensures Reachable(Scene(Row(Inactive), map[2 := RestoringLocation(0, Inactive, 0)]))
  {
    var stale := RestoringLocation(0, Inactive, 0);
    LocationIsScheduled();
    SceneBegins(Pending(Inactive, 0), map[], 2, stale);
    SceneDoes(Pending(Inactive, 0), map[2 := stale], 3, RestoringLocation(0, Inactive, 0));
    assert WriteLocation(Pending(Inactive, 0), stale) == Row(Inactive);
  }

  lemma StaleRestoreStillRemains()
    ensures Reachable(Scene(Row(Active), map[2 := RestoringLocation(0, Inactive, 0)]))
  {
    StaleRestoreRemains();
    SceneDoes(Row(Inactive), map[2 := RestoringLocation(0, Inactive, 0)], 4, SettingStatus(0, Active));
    assert WriteLocation(Row(Inactive), SettingStatus(0, Active)) == Row(Active);
  }

  lemma RestoreAndSchedulingAreOpen()
    ensures Reachable(Scene(Row(Active), map[2 := RestoringLocation(0, Inactive, 0)][5 := SchedulingLocation(0, Active, 1)]))
  {
    StaleRestoreStillRemains();
    SceneBegins(Row(Active), map[2 := RestoringLocation(0, Inactive, 0)], 5, SchedulingLocation(0, Active, 1));
  }

  /**
   A restore left from an earlier scheduling undoes a later one. The location is active when it is
   scheduled again; the old restore, whose deadline test passes, makes it inactive.
   */
  lemma StaleRestoreUndoesScheduling()
    ensures var w := Scene(Row(Active), map[2 := RestoringLocation(0, Inactive, 0)][5 := SchedulingLocation(0, Active, 1)]);
            Reachable(w) && CommitsTo(w, 5, 2, Pending(Active, 1), Row(Inactive))
  {
    RestoreAndSchedulingAreOpen();
    TwoCommits(Row(Active), 2, RestoringLocation(0, Inactive, 0), 5, SchedulingLocation(0, Active, 1), Pending(Active, 1), Row(Inactive));
  }

  // ---- one person --------------------------------------------------------------------------------------

  function Member(status: Life): Person {
    Person(0, 0, "Name", "name@example.org", status, None, None, None)
  }

  /** The same tenant with one active location and one person there. */
  function Gathering(row: Person, open: map<RequestId, Request>): World {
    World(map[0 := 1], map[0 := Row(Active)], map[0 := row], {}, {}, {}, open)
  }

  lemma GatheringStart()
    ensures Reachable(Gathering(Member(Active), map[]))
  {
    var r := CreatingPerson(0, "Name", "name@example.org");
    SceneStart(Active);
    var w := Scene(Row(Active), map[]);
    ReachableThen(w, Begin(1, r));
    var w1 := Apply(w, Begin(1, r));
    ReachableThen(w1, Commit(1, 0));
    assert Apply(w1, Commit(1, 0)) == Gathering(Member(Active), map[]);
  }

  lemma GatheringBegins(row: Person, open: map<RequestId, Request>, id: RequestId, r: Request)
    requires Reachable(Gathering(row, open)) && id !in open && OnPerson(r, 0) && Begins(Gathering(row, open), r)
    ensures Reachable(Gathering(row, open[id := r]))
  {
    ReachableThen(Gathering(row, open), Begin(id, r));
  }

  lemma GatheringCommit(row: Person, open: map<RequestId, Request>, id: RequestId, r: Request)
    requires id !in open && OnPerson(r, 0)
    ensures var w := Gathering(row, open[id := r]);
            Enabled(w, Commit(id, 1)) && Apply(w, Commit(id, 1)) == Gathering(WritePerson(row, r), open)
  {
    var w := Gathering(row, open[id := r]);
    assert Effect(w, r, 1) == Gathering(WritePerson(row, r), open[id := r]);
    assert Closed(Effect(w, r, 1), id).open == open;
  }

  lemma GatheringDoes(row: Person, open: map<RequestId, Request>, id: RequestId, r: Request)
    requires Reachable(Gathering(row, open)) && id !in open && OnPerson(r, 0) && Begins(Gathering(row, open), r)
    ensures Reachable(Gathering(WritePerson(row, r), open))
  {
    GatheringBegins(row, open, id, r);
    GatheringCommit(row, open, id, r);
    ReachableThen(Gathering(row, open[id := r]), Commit(id, 1));
  }

  ghost predicate PersonCommitsTo(w: World, first: RequestId, second: RequestId, row1: Person, row2: Person) {
    && Enabled(w, Commit(first, 1))
    && var w1 := Apply(w, Commit(first, 1));
    && 0 in w1.people && w1.people[0] == row1 && Enabled(w1, Commit(second, 1))
    && var w2 := Apply(w1, Commit(second, 1));
    && 0 in w2.people && w2.people[0] == row2 && w2.open == map[]
  }

  lemma TwoPersonCommits(row: Person, i: RequestId, r: Request, j: RequestId, q: Request, row1: Person, row2: Person)
    requires i != j && OnPerson(r, 0) && OnPerson(q, 0) && row1 == WritePerson(row, q) && row2 == WritePerson(row1, r)
    ensures PersonCommitsTo(Gathering(row, map[i := r][j := q]), j, i, row1, row2)
  {
    var w := Gathering(row, map[i := r][j := q]);
    assert Apply(w, Commit(j, 1)).open == map[i := r];
    assert Apply(w, Commit(j, 1)) == Gathering(WritePerson(row, q), map[i := r]);
  }

  function PendingMember(from: Life, now: Ms): Person {
    Member(from).(status := PendingDelete, deletedAt := Some(now), purgeAfter := Some(now + DELETION_RETENTION_MS), from := Some(from))
  }

  lemma InactiveMember()
    ensures Reachable(Gathering(Member(Inactive), map[]))
  {
    GatheringStart();
    GatheringDoes(Member(Active), map[], 1, SettingPerson(0, Inactive));
  }

  lemma OlderPersonReadRemains()
    ensures Reachable(Gathering(Member(Active), map[1 := SchedulingPerson(0, Inactive, 0)]))
  {
    var a := SchedulingPerson(0, Inactive, 0);
    InactiveMember();
    GatheringBegins(Member(Inactive), map[], 1, a);
    GatheringDoes(Member(Inactive), map[1 := a], 2, SettingPerson(0, Active));
    assert WritePerson(Member(Inactive), SettingPerson(0, Active)) == Member(Active);
  }

  lemma BothPersonSchedulingsAreOpen()
    ensures Reachable(Gathering(Member(Active), map[1 := SchedulingPerson(0, Inactive, 0)][3 := SchedulingPerson(0, Active, 1)]))
  {
    OlderPersonReadRemains();
    GatheringBegins(Member(Active), map[1 := SchedulingPerson(0, Inactive, 0)], 3, SchedulingPerson(0, Active, 1));
  }

  lemma OlderPersonSchedulingWins()
    ensures var w := Gathering(Member(Active), map[1 := SchedulingPerson(0, Inactive, 0)][3 := SchedulingPerson(0, Active, 1)]);
            Reachable(w) && PersonCommitsTo(w, 3, 1, PendingMember(Active, 1), PendingMember(Inactive, 0))
  {
    BothPersonSchedulingsAreOpen();
    TwoPersonCommits(Member(Active), 1, SchedulingPerson(0, Inactive, 0), 3, SchedulingPerson(0, Active, 1),
                     PendingMember(Active, 1), PendingMember(Inactive, 0));
  }

  lemma PersonChangeIsOpen()
    ensures Reachable(Gathering(Member(Active), map[1 := SettingPerson(0, Inactive)][2 := SchedulingPerson(0, Active, 0)]))
  {
    var a, b := SettingPerson(0, Inactive), SchedulingPerson(0, Active, 0);
    GatheringStart();
    GatheringBegins(Member(Active), map[], 1, a);
    GatheringBegins(Member(Active), map[1 := a], 2, b);
  }

  lemma LateStatusChangeLosesPersonDeletion()
    ensures var w := Gathering(Member(Active), map[1 := SettingPerson(0, Inactive)][2 := SchedulingPerson(0, Active, 0)]);
            Reachable(w) && PersonCommitsTo(w, 2, 1, PendingMember(Active, 0), PendingMember(Active, 0).(status := Inactive))
    ensures forall now :: !PersonDue(PendingMember(Active, 0).(status := Inactive), now)
  {
    PersonChangeIsOpen();
    TwoPersonCommits(Member(Active), 1, SettingPerson(0, Inactive), 2, SchedulingPerson(0, Active, 0),
                     PendingMember(Active, 0), PendingMember(Active, 0).(status := Inactive));
  }

  lemma PersonIsScheduled()
    ensures Reachable(Gathering(PendingMember(Inactive, 0), map[]))
  {
    InactiveMember();
    GatheringDoes(Member(Inactive), map[], 1, SchedulingPerson(0, Inactive, 0));
  }

  lemma StalePersonRestoreRemains()
    ensures Reachable(Gathering(Member(Inactive), map[2 := RestoringPerson(0, Inactive, 0)]))
  {
    var stale := RestoringPerson(0, Inactive, 0);
    PersonIsScheduled();
    GatheringBegins(PendingMember(Inactive, 0), map[], 2, stale);
    GatheringDoes(PendingMember(Inactive, 0), map[2 := stale], 3, RestoringPerson(0, Inactive, 0));
    assert WritePerson(PendingMember(Inactive, 0), stale) == Member(Inactive);
  }

  lemma StalePersonRestoreStillRemains()
    ensures Reachable(Gathering(Member(Active), map[2 := RestoringPerson(0, Inactive, 0)]))
  {
    StalePersonRestoreRemains();
    GatheringDoes(Member(Inactive), map[2 := RestoringPerson(0, Inactive, 0)], 4, SettingPerson(0, Active));
    assert WritePerson(Member(Inactive), SettingPerson(0, Active)) == Member(Active);
  }

  lemma PersonRestoreAndSchedulingAreOpen()
    ensures Reachable(Gathering(Member(Active), map[2 := RestoringPerson(0, Inactive, 0)][5 := SchedulingPerson(0, Active, 1)]))
  {
    StalePersonRestoreStillRemains();
    GatheringBegins(Member(Active), map[2 := RestoringPerson(0, Inactive, 0)], 5, SchedulingPerson(0, Active, 1));
  }

  lemma StaleRestoreUndoesPersonScheduling()
    ensures var w := Gathering(Member(Active), map[2 := RestoringPerson(0, Inactive, 0)][5 := SchedulingPerson(0, Active, 1)]);
            Reachable(w) && PersonCommitsTo(w, 5, 2, PendingMember(Active, 1), Member(Inactive))
  {
    PersonRestoreAndSchedulingAreOpen();
    TwoPersonCommits(Member(Active), 2, RestoringPerson(0, Inactive, 0), 5, SchedulingPerson(0, Active, 1),
                     PendingMember(Active, 1), Member(Inactive));
  }
}
