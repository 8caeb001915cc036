/**
 The timer that purges what was scheduled for deletion: one pass over at most twenty due locations,
 each with its cascade, and then over at most twenty due people. And createLocation, which retries
 with up to five generated codes.
 */
module DeletionPurge {
  import opened Base
  import opened Locations

  const PURGE_BATCH_SIZE := 20
  const LOCATION_CODE_CREATE_ATTEMPTS := 5

  datatype Pass = Pass(world: World, locations: nat, people: nat)

  /** Purging the listed locations in turn; one that is no longer due is skipped. */
  function LocationsPass(w: World, ls: seq<LocationId>, now: Ms): Pass
    decreases |ls|
  {
    if ls == [] then Pass(w, 0, 0)
    else
      var claimed := ls[0] in w.locations && LocationDue(w.locations[ls[0]], now);
      var rest := LocationsPass(PurgeLocation(w, ls[0], now), ls[1..], now);
      if claimed then Pass(rest.world, rest.locations + 1, rest.people + |Remaining(w, ls[0])|) else rest
  }

  function PeoplePass(w: World, ps: seq<PersonId>, now: Ms): (r: Pass)
    ensures r.locations == 0
    decreases |ps|
  {
    if ps == [] then Pass(w, 0, 0)
    else
      var claimed := ps[0] in w.people && PersonDue(w.people[ps[0]], now);
      var rest := PeoplePass(PurgePerson(w, ps[0], now), ps[1..], now);
      if claimed then rest.(people := rest.people + 1) else rest
  }

  class DeletionPurgeService {
    var world: World
    var running: bool

    constructor (world: World)
      ensures this.world == world && !running
    {
      this.world := world;
      running := false;
    }

    /** The transaction of one location: its row, then people, assignments and legacy identifiers. */
    method PurgeOne(l: LocationId, now: Ms) returns (claimed: bool, people: nat)
      modifies `world
      ensures world == PurgeLocation(old(world), l, now)
      ensures claimed == (l in old(world).locations && LocationDue(old(world).locations[l], now))
      ensures people == if claimed then |Remaining(old(world), l)| else 0
    {
      if l !in world.locations || !LocationDue(world.locations[l], now) {
        return false, 0;
      }
      var remaining := Remaining(world, l);
      world := world.(locations := world.locations[l := PurgedLocation(world.locations[l])]);
      world := world.(people := (map p | p in world.people :: if p in remaining then PurgedPerson(world.people[p]) else world.people[p]));
      world := world.(assignments := (set a | a in world.assignments && a.1 != l));
      world := world.(legacy := (set x | x in world.legacy && x.1 != l));
      return true, |remaining|;
    }

    method PurgeListedLocations(ls: seq<LocationId>, now: Ms) returns (purged: nat, people: nat)
      modifies `world
      ensures Pass(world, purged, people) == LocationsPass(old(world), ls, now)
    {
      purged, people := 0, 0;
      for i := 0 to |ls|
        invariant var rest := LocationsPass(world, ls[i..], now);
                  LocationsPass(old(world), ls, now) == Pass(rest.world, purged + rest.locations, people + rest.people)
      {
        assert ls[i..][1..] == ls[i + 1..];
        var claimed, count := PurgeOne(ls[i], now);
        if !claimed { continue; }
        purged := purged + 1;
        people := people + count;
      }
    }

    method PurgeListedPeople(ps: seq<PersonId>, now: Ms) returns (purged: nat)
      modifies `world
      ensures Pass(world, 0, purged) == PeoplePass(old(world), ps, now)
    {
      purged := 0;
      for i := 0 to |ps|
        invariant var rest := PeoplePass(world, ps[i..], now);
                  PeoplePass(old(world), ps, now) == rest.(people := purged + rest.people)
      {
        assert ps[i..][1..] == ps[i + 1..];
        if ps[i] in world.people && PersonDue(world.people[ps[i]], now) {
          world := world.(people := world.people[ps[i] := PurgedPerson(world.people[ps[i]])]);
          purged := purged + 1;
        }
      }
    }

    /** `ls` and `ps` are the rows the two queries return; a pass that finds another one running does nothing. */
    method ProcessDueDeletions(now: Ms, ls: seq<LocationId>, ps: seq<PersonId>) returns (locations: nat, people: nat)
      modifies this
      ensures running == old(running)
      ensures old(running) ==> world == old(world) && locations == 0 && people == 0
      ensures !old(running) ==>
                var first := LocationsPass(old(world), ls, now);
                var second := PeoplePass(first.world, ps, now);
                world == second.world && locations == first.locations && people == first.people + second.people
    {
      if running { return 0, 0; }
      running := true;
      var withLocations, alone: nat;
      locations, withLocations := PurgeListedLocations(ls, now);
      alone := PurgeListedPeople(ps, now);
      people := withLocations + alone;
      running := false;
    }
  }

  // ---- what a pass reports --------------------------------------------------------------------------

  function LiveLocations(w: World): set<LocationId> {
    set l | l in w.locations && w.locations[l].status != Purged
  }

  function LivePeople(w: World): set<PersonId> {
    set p | p in w.people && w.people[p].status != Purged
  }

  lemma CascadeAccounts(w: World, l: LocationId, now: Ms)
    requires l in w.locations && LocationDue(w.locations[l], now)
    ensures var w' := PurgeLocation(w, l, now);
            && LiveLocations(w') == LiveLocations(w) - {l} && LivePeople(w') == LivePeople(w) - Remaining(w, l)
            && |LiveLocations(w)| == |LiveLocations(w')| + 1
            && |LivePeople(w)| == |LivePeople(w')| + |Remaining(w, l)|
  {
    var w' := PurgeLocation(w, l, now);
    assert LiveLocations(w') == LiveLocations(w) - {l} && l in LiveLocations(w);
    assert LivePeople(w') == LivePeople(w) - Remaining(w, l);
    assert LivePeople(w) == LivePeople(w') + Remaining(w, l);
  }

  /** Whatever list it is given, a pass reports exactly the locations and the people that it purged. */
  lemma {:induction false} LocationsPassAccounts(w: World, ls: seq<LocationId>, now: Ms)
    ensures var r := LocationsPass(w, ls, now);
            && |LiveLocations(w)| == |LiveLocations(r.world)| + r.locations
            && |LivePeople(w)| == |LivePeople(r.world)| + r.people
    decreases |ls|
  {
    if ls != [] {
      if ls[0] in w.locations && LocationDue(w.locations[ls[0]], now) { CascadeAccounts(w, ls[0], now); }
      LocationsPassAccounts(PurgeLocation(w, ls[0], now), ls[1..], now);
    }
  }

  lemma {:induction false} PeoplePassAccounts(w: World, ps: seq<PersonId>, now: Ms)
    ensures var r := PeoplePass(w, ps, now);
            && LiveLocations(r.world) == LiveLocations(w) && |LivePeople(w)| == |LivePeople(r.world)| + r.people
    decreases |ps|
  {
    if ps != [] {
      var w' := PurgePerson(w, ps[0], now);
      if ps[0] in w.people && PersonDue(w.people[ps[0]], now) {
        assert LivePeople(w') == LivePeople(w) - {ps[0]} && ps[0] in LivePeople(w);
      }
      PeoplePassAccounts(w', ps[1..], now);
    }
  }

  // ---- an undisturbed pass --------------------------------------------------------------------------

  function DueLocations(w: World, now: Ms): set<LocationId> {
    set l | l in w.locations && LocationDue(w.locations[l], now)
  }

  /** The query: due rows, each once, twenty at most, and all of them if there are fewer than twenty. */
  predicate IsBatch(w: World, ls: seq<LocationId>, now: Ms) {
    && (forall i, j | 0 <= i < j < |ls| :: ls[i] != ls[j])
    && (forall l | l in ls :: l in DueLocations(w, now))
    && |ls| <= PURGE_BATCH_SIZE
    && (|ls| < PURGE_BATCH_SIZE ==> forall l | l in DueLocations(w, now) :: l in ls)
  }

  predicate DistinctAndDue(w: World, ls: seq<LocationId>, now: Ms) {
    (forall i, j | 0 <= i < j < |ls| :: ls[i] != ls[j]) && forall l | l in ls :: l in DueLocations(w, now)
  }

  lemma {:induction false} ListedAreCleared(w: World, ls: seq<LocationId>, now: Ms)
    requires DistinctAndDue(w, ls, now)
    ensures var r := LocationsPass(w, ls, now);
            && r.locations == |ls|
            && (forall l :: l in DueLocations(r.world, now) <==> l in DueLocations(w, now) && l !in ls)
    decreases |ls|
  {
    if ls != [] {
      assert ls[0] in ls;
      var w' := PurgeLocation(w, ls[0], now);
      forall l | l in ls[1..] ensures l in DueLocations(w', now) && l != ls[0] {
        var i :| 0 <= i < |ls[1..]| && ls[1..][i] == l;
        assert ls[i + 1] == l && l in ls;
      }
      ListedAreCleared(w', ls[1..], now);
      forall l ensures l in ls <==> l == ls[0] || l in ls[1..] {
        assert ls == [ls[0]] + ls[1..];
      }
    }
  }

  /**
   An undisturbed pass purges every location it selected, so twenty at a time the backlog shrinks,
   and a pass that reports fewer than twenty has left no due location behind.
   */
  lemma {:induction false} PassClearsBatch(w: World, ls: seq<LocationId>, now: Ms)
    requires IsBatch(w, ls, now)
    ensures var r := LocationsPass(w, ls, now);
            && r.locations == |ls|
            && (forall l | l in ls :: l !in DueLocations(r.world, now))
            && (r.locations < PURGE_BATCH_SIZE ==> DueLocations(r.world, now) == {})
  {
    ListedAreCleared(w, ls, now);
  }

  // ---- people on their own ----------------------------------------------------------------------------

  function DuePeople(w: World, now: Ms): set<PersonId> {
    set p | p in w.people && PersonDue(w.people[p], now)
  }

  /** What the people query returns, as for locations. */
  predicate IsPeopleBatch(w: World, ps: seq<PersonId>, now: Ms) {
    && (forall i, j | 0 <= i < j < |ps| :: ps[i] != ps[j])
    && (forall p | p in ps :: p in DuePeople(w, now))
    && |ps| <= PURGE_BATCH_SIZE
    && (|ps| < PURGE_BATCH_SIZE ==> forall p | p in DuePeople(w, now) :: p in ps)
  }

  lemma {:induction false} ListedPeopleAreCleared(w: World, ps: seq<PersonId>, now: Ms)
    requires (forall i, j | 0 <= i < j < |ps| :: ps[i] != ps[j]) && forall p | p in ps :: p in DuePeople(w, now)
    ensures var r := PeoplePass(w, ps, now);
            && r.people == |ps| && r.world.people.Keys == w.people.Keys
            && (forall p :: p in DuePeople(r.world, now) <==> p in DuePeople(w, now) && p !in ps)
            && (forall p | p in ps ::
                  && p in r.world.people && r.world.people[p].status == Purged
                  && r.world.people[p].name == "[deleted person]" && r.world.people[p].email == "deleted@invalid.local")
            && (forall p | p in w.people && p !in ps :: r.world.people[p] == w.people[p])
    decreases |ps|
  {
    if ps != [] {
      assert ps[0] in ps;
      var w' := PurgePerson(w, ps[0], now);
      forall p | p in ps[1..] ensures p in DuePeople(w', now) && p != ps[0] {
        var i :| 0 <= i < |ps[1..]| && ps[1..][i] == p;
        assert ps[i + 1] == p && p in ps;
      }
      ListedPeopleAreCleared(w', ps[1..], now);
      forall p ensures p in ps <==> p == ps[0] || p in ps[1..] { assert ps == [ps[0]] + ps[1..]; }
    }
  }

  /** An undisturbed pass over people purges every person it selected; one that reports fewer than twenty leaves none due. */
  lemma {:induction false} PeoplePassClearsBatch(w: World, ps: seq<PersonId>, now: Ms)
    requires IsPeopleBatch(w, ps, now)
    ensures var r := PeoplePass(w, ps, now);
            && r.people == |ps| && r.world.people.Keys == w.people.Keys
            && (forall p | p in ps :: p in w.people && r.world.people[p].status == Purged)
            && (forall p | p in w.people && p !in ps :: r.world.people[p] == w.people[p])
            && (r.people < PURGE_BATCH_SIZE ==> DuePeople(r.world, now) == {})
  {
    ListedPeopleAreCleared(w, ps, now);
  }

  /** A pass is a run of the state machine, so over quiet rows it keeps every invariant. */
  function StepsOf(ls: seq<LocationId>, now: Ms): seq<Step>
    decreases |ls|
  {
    if ls == [] then [] else [PurgeLocationStep(ls[0], now)] + StepsOf(ls[1..], now)
  }

  lemma {:induction false} PassIsRun(w: World, ls: seq<LocationId>, now: Ms)
    requires Inv(w) && forall l | l in ls :: LocationQuiet(w, l)
    ensures ValidRun(w, StepsOf(ls, now)) && LocationsPass(w, ls, now).world == Exec(w, StepsOf(ls, now))
    ensures Inv(LocationsPass(w, ls, now).world)
    decreases |ls|
  {
    if ls != [] {
      assert ls[0] in ls;
      var w' := PurgeLocation(w, ls[0], now);
      assert StepsOf(ls, now)[1..] == StepsOf(ls[1..], now);
      StepKeeps(w, PurgeLocationStep(ls[0], now));
      forall l | l in ls[1..] ensures LocationQuiet(w', l) {
        assert l in ls && LocationQuiet(w, l);
        forall id | id in w'.open ensures Guarded(w'.open[id]) || !Concerns(w', w'.open[id], l) {
          assert Concerns(w', w'.open[id], l) ==> Concerns(w, w.open[id], l);
        }
      }
      PassIsRun(w', ls[1..], now);
    }
  }

  // ---- createLocation -------------------------------------------------------------------------------

  datatype CreateResult = Ok(code: string) | Failed(reason: Creation) | Exhausted

  /** A generated code, and whether inserting it would break a unique index after all the checks have passed. */
  datatype Draw = Draw(code: string, loses: bool)

  /** The draw is taken: no row shows the code, and the insert goes through. */
  predicate Fits(w: World, t: TenantId, d: Draw) {
    !CodeTaken(w, t, d.code) && !d.loses
  }

  function CreateWithCodes(w: World, t: TenantId, name: string, draws: seq<Draw>): CreateResult
    decreases |draws|
  {
    if draws == [] then Exhausted
    else match TryCreate(w, t, name, draws[0].code)
      case Created => if draws[0].loses then CreateWithCodes(w, t, name, draws[1..]) else Ok(draws[0].code)
      case CodeCollision => CreateWithCodes(w, t, name, draws[1..])
      case reason => Failed(reason)
  }

  class LocationService {
    var world: World

    constructor (world: World)
      ensures this.world == world
    {
      this.world := world;
    }

    /** The loop ends at the first draw that neither collides nor breaks a unique index, or at any other error. */
    method CreateLocation(t: TenantId, name: string, draws: seq<Draw>, newId: LocationId) returns (r: CreateResult)
      requires |draws| == LOCATION_CODE_CREATE_ATTEMPTS
      modifies this
      ensures r == CreateWithCodes(old(world), t, name, draws)
      ensures world == if r.Ok? then WithLocation(old(world), t, name, r.code, newId) else old(world)
    {
      var attempt := 0;
      while attempt < LOCATION_CODE_CREATE_ATTEMPTS
        invariant 0 <= attempt <= LOCATION_CODE_CREATE_ATTEMPTS && world == old(world)
        invariant CreateWithCodes(world, t, name, draws) == CreateWithCodes(world, t, name, draws[attempt..])
      {
        assert draws[attempt..][1..] == draws[attempt + 1..];
        match TryCreate(world, t, name, draws[attempt].code) {
          case Created =>
            if !draws[attempt].loses {
              world := WithLocation(world, t, name, draws[attempt].code, newId);
              return Ok(draws[attempt].code);
            }
          case CodeCollision =>
          case reason =>
            return Failed(reason);
        }
        attempt := attempt + 1;
      }
      r := Exhausted;
    }
  }

  /** What every draw must find: the tenant, room under its limit, a free name, and no purge. */
  predicate MayCreate(w: World, t: TenantId, name: string) {
    t in w.limits && |Counted(w, t)| < w.limits[t] && !NameTaken(w, t, name) && t !in w.purged
  }

  /** The first fitting draw, if there is one. */
  ghost predicate FirstFit(w: World, t: TenantId, draws: seq<Draw>, i: nat) {
    i < |draws| && Fits(w, t, draws[i]) && forall k | 0 <= k < i :: !Fits(w, t, draws[k])
  }

  lemma FirstFitShifts(w: World, t: TenantId, draws: seq<Draw>, i: nat)
    requires draws != [] && !Fits(w, t, draws[0]) && FirstFit(w, t, draws[1..], i)
    ensures FirstFit(w, t, draws, i + 1)
  {
    forall k | 0 <= k < i + 1 ensures !Fits(w, t, draws[k]) {
      if k > 0 { assert draws[k] == draws[1..][k - 1]; }
    }
  }

  /**
   Creation succeeds exactly if there is room, the name is free, the tenant is not purged and one of
   the draws fits; and it uses the first one that does.
   */
  lemma {:induction false} CreationIsExact(w: World, t: TenantId, name: string, draws: seq<Draw>)
    ensures CreateWithCodes(w, t, name, draws).Ok? <==> MayCreate(w, t, name) && exists d | d in draws :: Fits(w, t, d)
    ensures CreateWithCodes(w, t, name, draws).Ok? ==>
              exists i: nat :: FirstFit(w, t, draws, i) && CreateWithCodes(w, t, name, draws) == Ok(draws[i].code)
    decreases |draws|
  {
    if draws != [] {
      CreationIsExact(w, t, name, draws[1..]);
      forall d ensures d in draws <==> d == draws[0] || d in draws[1..] { assert draws == [draws[0]] + draws[1..]; }
      if !Fits(w, t, draws[0]) {
        if CreateWithCodes(w, t, name, draws).Ok? {
          var i: nat :| FirstFit(w, t, draws[1..], i) && CreateWithCodes(w, t, name, draws[1..]) == Ok(draws[1..][i].code);
          FirstFitShifts(w, t, draws, i);
        }
      } else {
        assert FirstFit(w, t, draws, 0) && draws[0] in draws;
      }
    }
  }
}
