/**
 Locations and people: creation under a quota, status changes, scheduled deletion with fourteen
 days to restore, and the purges. Requests of the locations service read first and write later, in
 separate transactions; a request between the two is kept in `open` with what it read, and other
 steps may happen meanwhile.
 */
module Locations {
  import opened Base
  import MailTables

  type TenantId = MailTables.TenantId
  type LocationId = MailTables.LocationId
  type PersonId = MailTables.PersonId
  type Ms = MailTables.Ms

  const DELETION_RETENTION_MS: Ms := 1_209_600_000

  datatype Life = Active | Inactive | PendingDelete | Purged

  datatype Location = Location(
    tenant: TenantId, code: string, name: string, status: Life,
    deletedAt: Option<Ms>, purgeAfter: Option<Ms>, from: Option<Life>)

  datatype Person = Person(
    tenant: TenantId, location: LocationId, name: string, email: string, status: Life,
    deletedAt: Option<Ms>, purgeAfter: Option<Ms>, from: Option<Life>)

  /** A request that has read and not yet written. */
  datatype Request =
    | SettingStatus(location: LocationId, status: Life)
    | Renaming(location: LocationId, name: string)
    | SchedulingLocation(location: LocationId, seen: Life, now: Ms)
    | RestoringLocation(location: LocationId, to: Life, now: Ms)
    | CreatingPerson(location: LocationId, name: string, email: string)
    | UpdatingPerson(person: PersonId, newName: Option<string>, newEmail: Option<string>)
    | SettingPerson(person: PersonId, status: Life)
    | SchedulingPerson(person: PersonId, seen: Life, now: Ms)
    | RestoringPerson(person: PersonId, to: Life, now: Ms)
    | Assigning(operator: nat, locations: set<LocationId>)

  type RequestId = nat

  datatype World = World(
    limits: map<TenantId, nat>,
    locations: map<LocationId, Location>,
    people: map<PersonId, Person>,
    assignments: set<(nat, LocationId)>,
    legacy: set<(string, LocationId)>,
    purged: set<TenantId>,
    open: map<RequestId, Request>)

  const NO_NAME := "[deleted person]"
  const NO_EMAIL := "deleted@invalid.local"

  function PurgedName(code: string): string { "[deleted location " + code + "]" }

  predicate InUse(s: Life) { s == Active || s == Inactive }

  function RestoredStatus(from: Option<Life>): Life { if from == Some(Inactive) then Inactive else Active }

  // ---- the read half of a request -------------------------------------------------------------------

  /** assertLocation: a location in deletion is not found. */
  predicate Found(w: World, l: LocationId) {
    l in w.locations && InUse(w.locations[l].status)
  }

  predicate FoundActive(w: World, l: LocationId) {
    l in w.locations && w.locations[l].status == Active
  }

  predicate PersonFound(w: World, p: PersonId) {
    p in w.people && InUse(w.people[p].status)
  }

  /** The request gets past its reads and checks and is about to write. */
  predicate Begins(w: World, r: Request) {
    match r
    case SettingStatus(l, status) => Found(w, l) && InUse(status) && w.locations[l].status != status
    case Renaming(l, _) => Found(w, l)
    case SchedulingLocation(l, seen, _) =>
      l in w.locations && InUse(w.locations[l].status) && seen == w.locations[l].status
    case RestoringLocation(l, to, now) =>
      && l in w.locations && w.locations[l].status == PendingDelete
      && w.locations[l].purgeAfter.Some? && w.locations[l].purgeAfter.value > now
      && to == RestoredStatus(w.locations[l].from)
    case CreatingPerson(l, _, _) => FoundActive(w, l)
    case UpdatingPerson(p, _, _) => PersonFound(w, p) && FoundActive(w, w.people[p].location)
    case SettingPerson(p, status) =>
      && PersonFound(w, p) && InUse(status) && w.people[p].status != status
      && (if status == Active then FoundActive(w, w.people[p].location) else Found(w, w.people[p].location))
    case SchedulingPerson(p, seen, _) =>
      PersonFound(w, p) && FoundActive(w, w.people[p].location) && seen == w.people[p].status
    case RestoringPerson(p, to, now) =>
      && p in w.people && w.people[p].status == PendingDelete && FoundActive(w, w.people[p].location)
      && w.people[p].purgeAfter.Some? && w.people[p].purgeAfter.value > now
      && to == RestoredStatus(w.people[p].from)
    case Assigning(_, ls) => forall l | l in ls :: FoundActive(w, l)
  }

  // ---- the write half -------------------------------------------------------------------------------

  function WriteLocation(row: Location, r: Request): Location {
    match r
    case SettingStatus(_, status) => row.(status := status)
    case Renaming(_, name) => row.(name := name)
    case SchedulingLocation(_, seen, now) =>
      row.(status := PendingDelete, deletedAt := Some(now), purgeAfter := Some(now + DELETION_RETENTION_MS), from := Some(seen))
    case RestoringLocation(_, to, now) =>
      if row.status == PendingDelete && row.purgeAfter.Some? && row.purgeAfter.value > now
      then row.(status := to, deletedAt := None, purgeAfter := None, from := None) else row
    case _ => row
  }

  function WritePerson(row: Person, r: Request): Person {
    match r
    case UpdatingPerson(_, name, email) =>
      row.(name := if name.Some? then name.value else row.name, email := if email.Some? then email.value else row.email)
    case SettingPerson(_, status) => row.(status := status)
    case SchedulingPerson(_, seen, now) =>
      row.(status := PendingDelete, deletedAt := Some(now), purgeAfter := Some(now + DELETION_RETENTION_MS), from := Some(seen))
    case RestoringPerson(_, to, now) =>
      if row.status == PendingDelete && row.purgeAfter.Some? && row.purgeAfter.value > now
      then row.(status := to, deletedAt := None, purgeAfter := None, from := None) else row
    case _ => row
  }

  predicate OfLocation(r: Request) {
    r.SettingStatus? || r.Renaming? || r.SchedulingLocation? || r.RestoringLocation?
  }

  predicate OfPerson(r: Request) {
    r.UpdatingPerson? || r.SettingPerson? || r.SchedulingPerson? || r.RestoringPerson?
  }

  /** The restores check status and deadline again in their UPDATE; every other write names only the row. */
  predicate Guarded(r: Request) { r.RestoringLocation? || r.RestoringPerson? }

  /** The write of a request that nothing stops. `newId` is the new person's identifier. */
  function Written(w: World, r: Request, newId: PersonId): World {
    if OfLocation(r) then
      if r.location in w.locations then w.(locations := w.locations[r.location := WriteLocation(w.locations[r.location], r)]) else w
    else if OfPerson(r) then
      if r.person in w.people then w.(people := w.people[r.person := WritePerson(w.people[r.person], r)]) else w
    else if r.CreatingPerson? then
      if r.location in w.locations then
        w.(people := w.people[newId := Person(w.locations[r.location].tenant, r.location, r.name, r.email, Active, None, None, None)])
      else w
    else
      w.(assignments := (set a | a in w.assignments && (a.0 != r.operator || a.1 in r.locations))
                        + (set l | l in r.locations :: (r.operator, l)))
  }

  predicate OfPurgedTenant(w: World, l: LocationId) {
    l in w.locations && w.locations[l].tenant in w.purged
  }

  /** The row triggers reject every insert and update for a purged tenant, and the transaction rolls back. */
  predicate Rejected(w: World, r: Request) {
    || ((OfLocation(r) || r.CreatingPerson?) && OfPurgedTenant(w, r.location))
    || (OfPerson(r) && r.person in w.people && w.people[r.person].tenant in w.purged)
    || (r.Assigning? && exists l | l in r.locations :: OfPurgedTenant(w, l))
  }

  function Effect(w: World, r: Request, newId: PersonId): World {
    if Rejected(w, r) then w else Written(w, r, newId)
  }

  // ---- creation, quota and purges -------------------------------------------------------------------

  /** Locations that count against the quota. */
  function Counted(w: World, t: TenantId): set<LocationId> {
    set l | l in w.locations && w.locations[l].tenant == t && w.locations[l].status != Purged
  }

  datatype Creation = Created | TenantNotFound | LimitReached | NameConflict | CodeCollision | TenantPurged

  predicate NameTaken(w: World, t: TenantId, name: string) {
    exists l | l in w.locations :: w.locations[l].tenant == t && w.locations[l].name == name
  }

  predicate CodeTaken(w: World, t: TenantId, code: string) {
    || (exists l | l in w.locations :: w.locations[l].tenant == t && w.locations[l].code == code)
    || (exists x | x in w.legacy :: x.0 == code && x.1 in w.locations && w.locations[x.1].tenant == t)
  }

  /** One attempt of createLocation, under the tenant's advisory lock. Names are compared in one letter case. */
  function TryCreate(w: World, t: TenantId, name: string, code: string): Creation {
    if t !in w.limits then TenantNotFound
    else if |Counted(w, t)| >= w.limits[t] then LimitReached
    else if NameTaken(w, t, name) then NameConflict
    else if CodeTaken(w, t, code) then CodeCollision
    else if t in w.purged then TenantPurged
    else Created
  }

  function WithLocation(w: World, t: TenantId, name: string, code: string, l: LocationId): World {
    w.(locations := w.locations[l := Location(t, code, name, Active, None, None, None)])
  }

  /** The locked part of updateLocationLimit. */
  function WithLimit(w: World, t: TenantId, limit: nat): World {
    if t in w.limits && limit >= |Counted(w, t)| then w.(limits := w.limits[t := limit]) else w
  }

  predicate LocationDue(row: Location, now: Ms) {
    row.status == PendingDelete && row.purgeAfter.Some? && row.purgeAfter.value <= now
  }

  predicate PersonDue(row: Person, now: Ms) {
    row.status == PendingDelete && row.purgeAfter.Some? && row.purgeAfter.value <= now
  }

  function PurgedLocation(row: Location): Location {
    row.(name := PurgedName(row.code), status := Purged, from := None)
  }

  function PurgedPerson(row: Person): Person {
    row.(name := NO_NAME, email := NO_EMAIL, status := Purged, from := None)
  }

  /** People of the location who are not purged yet. */
  function Remaining(w: World, l: LocationId): set<PersonId>
    requires l in w.locations
  {
    set p | p in w.people && w.people[p].tenant == w.locations[l].tenant && w.people[p].location == l && w.people[p].status != Purged
  }

  /** The cascade of one location, in one transaction. */
  function PurgeLocation(w: World, l: LocationId, now: Ms): World {
    if l !in w.locations || !LocationDue(w.locations[l], now) then w
    else
      var remaining := Remaining(w, l);
      w.(locations := w.locations[l := PurgedLocation(w.locations[l])],
         people := (map p | p in w.people :: if p in remaining then PurgedPerson(w.people[p]) else w.people[p]),
         assignments := (set a | a in w.assignments && a.1 != l),
         legacy := (set x | x in w.legacy && x.1 != l))
  }

  function PurgePerson(w: World, p: PersonId, now: Ms): World {
    if p in w.people && PersonDue(w.people[p], now) then w.(people := w.people[p := PurgedPerson(w.people[p])]) else w
  }

  /** The location and person rows in the purge of a whole tenant. */
  function PurgeTenant(w: World, t: TenantId): World {
    w.(locations := (map l | l in w.locations :: if w.locations[l].tenant == t then PurgedLocation(w.locations[l]) else w.locations[l]),
       people := (map p | p in w.people :: if w.people[p].tenant == t then PurgedPerson(w.people[p]) else w.people[p]),
       assignments := (set a | a in w.assignments && !(a.1 in w.locations && w.locations[a.1].tenant == t)),
       legacy := (set x | x in w.legacy && !(x.1 in w.locations && w.locations[x.1].tenant == t)),
       purged := w.purged + {t})
  }

  // ---- the state machine ----------------------------------------------------------------------------

  datatype Step =
    | Begin(id: RequestId, request: Request)
    | Commit(id: RequestId, newId: PersonId)
    | Abandon(id: RequestId)
    | Create(tenant: TenantId, name: string, code: string, location: LocationId)
    | SetLimit(tenant: TenantId, limit: nat)
    | PurgeLocationStep(location: LocationId, now: Ms)
    | PurgePersonStep(person: PersonId, now: Ms)
    | PurgeTenantStep(tenant: TenantId)

  /** The request will write a row of the location, of one of its people, or an assignment to it. */
  predicate Concerns(w: World, r: Request, l: LocationId) {
    || ((OfLocation(r) || r.CreatingPerson?) && r.location == l)
    || (OfPerson(r) && r.person in w.people && w.people[r.person].location == l)
    || (r.Assigning? && l in r.locations)
  }

  /** No unguarded request on the location is between its read and its write. */
  predicate LocationQuiet(w: World, l: LocationId) {
    forall id | id in w.open :: Guarded(w.open[id]) || !Concerns(w, w.open[id], l)
  }

  predicate PersonQuiet(w: World, p: PersonId) {
    forall id | id in w.open :: Guarded(w.open[id]) || !(OfPerson(w.open[id]) && w.open[id].person == p)
  }

  /**
   A location or person is purged fourteen days after the scheduling that made new requests on the
   row impossible (PendingAdmitsNoRequest); that no request stays open so long is the one
   assumption on timing. The purge of a tenant assumes nothing: its requests go on until the end.
   */
  predicate Enabled(w: World, step: Step) {
    match step
    case Begin(id, r) => id !in w.open && Begins(w, r)
    case Commit(id, newId) => id in w.open && newId !in w.people
    case Abandon(id) => id in w.open
    case Create(t, name, code, l) => l !in w.locations
    case SetLimit(t, limit) => true
    case PurgeLocationStep(l, _) => LocationQuiet(w, l)
    case PurgePersonStep(p, _) => PersonQuiet(w, p)
    case PurgeTenantStep(t) => true
  }

  function Closed(w: World, id: RequestId): World {
    w.(open := map i | i in w.open && i != id :: w.open[i])
  }

  function Apply(w: World, step: Step): World {
    match step
    case Begin(id, r) => w.(open := w.open[id := r])
    case Commit(id, newId) => if id in w.open then Closed(Effect(w, w.open[id], newId), id) else w
    case Abandon(id) => Closed(w, id)
    case Create(t, name, code, l) => if TryCreate(w, t, name, code) == Created then WithLocation(w, t, name, code, l) else w
    case SetLimit(t, limit) => WithLimit(w, t, limit)
    case PurgeLocationStep(l, now) => PurgeLocation(w, l, now)
    case PurgePersonStep(p, now) => PurgePerson(w, p, now)
    case PurgeTenantStep(t) => PurgeTenant(w, t)
  }

  predicate ValidRun(w: World, steps: seq<Step>)
    decreases |steps|
  {
    steps == [] || (Enabled(w, steps[0]) && ValidRun(Apply(w, steps[0]), steps[1..]))
  }

  function Exec(w: World, steps: seq<Step>): World
    decreases |steps|
  {
    if steps == [] then w else Exec(Apply(w, steps[0]), steps[1..])
  }

  /** Tenants and whatever legacy identifiers and locations an earlier release left in use. */
  predicate Init(w: World) {
    && w.people == map[] && w.assignments == {} && w.purged == {} && w.open == map[]
    && (forall l | l in w.locations :: InUse(w.locations[l].status))
    && (forall t | t in w.limits :: |Counted(w, t)| <= w.limits[t])
    && (forall x | x in w.legacy :: x.1 in w.locations)
  }

  ghost predicate Reachable(w: World) {
    exists init, steps :: Init(init) && ValidRun(init, steps) && Exec(init, steps) == w
  }

  // ---- the invariant --------------------------------------------------------------------------------

  /** Scheduled means: fourteen days from the deletion, with a usable snapshot. */
  predicate Scheduled(deletedAt: Option<Ms>, purgeAfter: Option<Ms>, from: Option<Life>) {
    deletedAt.Some? && purgeAfter == Some(deletedAt.value + 14 * 24 * 60 * 60 * 1_000) && (from == Some(Active) || from == Some(Inactive))
  }

  predicate LocationOk(row: Location) {
    && (row.status == PendingDelete ==> Scheduled(row.deletedAt, row.purgeAfter, row.from))
    && (row.status == Purged ==> row.name == PurgedName(row.code) && row.from.None?)
  }

  predicate PersonOk(w: World, row: Person) {
    && row.location in w.locations && row.tenant == w.locations[row.location].tenant
    && (row.status == PendingDelete ==> Scheduled(row.deletedAt, row.purgeAfter, row.from))
    && (row.status == Purged ==> row.name == NO_NAME && row.email == NO_EMAIL && row.from.None?)
    && (w.locations[row.location].status == Purged ==> row.status == Purged)
  }

  predicate LiveLocation(w: World, l: LocationId) { l in w.locations && w.locations[l].status != Purged }

  predicate LivePerson(w: World, p: PersonId) { p in w.people && w.people[p].status != Purged }

  /** A row that may be written: it is not purged, or the trigger of its purged tenant stops the write. */
  predicate LocationTarget(w: World, l: LocationId) { LiveLocation(w, l) || OfPurgedTenant(w, l) }

  predicate PersonTarget(w: World, p: PersonId) {
    LivePerson(w, p) || (p in w.people && w.people[p].tenant in w.purged)
  }

  predicate SaneValues(r: Request) {
    && (r.SettingStatus? || r.SettingPerson? ==> InUse(r.status))
    && (r.SchedulingLocation? || r.SchedulingPerson? ==> InUse(r.seen))
    && (r.RestoringLocation? || r.RestoringPerson? ==> InUse(r.to))
  }

  /** An open request that will write without looking has a live target, or its tenant is purged. */
  predicate RequestOk(w: World, r: Request) {
    && (OfLocation(r) ==> r.location in w.locations && (Guarded(r) || LocationTarget(w, r.location)))
    && (OfPerson(r) ==> r.person in w.people && (Guarded(r) || PersonTarget(w, r.person)))
    && (r.CreatingPerson? ==> LocationTarget(w, r.location))
    && (r.Assigning? ==> forall l | l in r.locations :: LocationTarget(w, l))
    && SaneValues(r)
  }

  /** The request's own row is not purged. */
  predicate Lands(w: World, r: Request) {
    && (OfLocation(r) ==> r.location in w.locations && (Guarded(r) || LiveLocation(w, r.location)))
    && (OfPerson(r) ==> r.person in w.people && (Guarded(r) || LivePerson(w, r.person)))
    && (r.CreatingPerson? ==> LiveLocation(w, r.location))
    && (r.Assigning? ==> forall l | l in r.locations :: LiveLocation(w, l))
    && SaneValues(r)
  }

  predicate RowsOk(w: World) {
    && (forall l | l in w.locations :: LocationOk(w.locations[l]))
    && (forall p | p in w.people :: PersonOk(w, w.people[p]))
    && (forall a | a in w.assignments :: LiveLocation(w, a.1))
    && (forall x | x in w.legacy :: LiveLocation(w, x.1))
    && PurgedTenantsOk(w)
  }

  predicate PurgedTenantsOk(w: World) {
    forall l | OfPurgedTenant(w, l) && l in w.locations :: w.locations[l].status == Purged
  }

  predicate QuotaOk(w: World) {
    forall t | t in w.limits :: |Counted(w, t)| <= w.limits[t]
  }

  predicate RequestsOk(w: World) {
    forall id | id in w.open :: RequestOk(w, w.open[id])
  }

  predicate Inv(w: World) { RowsOk(w) && QuotaOk(w) && RequestsOk(w) }

  // ---- a write keeps it -----------------------------------------------------------------------------

  /** No row disappears, and none is purged or revived. */
  predicate SameLives(w: World, w': World) {
    && w'.limits == w.limits && w'.purged == w.purged
    && w'.locations.Keys == w.locations.Keys && w.people.Keys <= w'.people.Keys
    && (forall l | l in w.locations ::
          w'.locations[l].tenant == w.locations[l].tenant && (w'.locations[l].status == Purged <==> w.locations[l].status == Purged))
    && (forall p | p in w.people ::
          w'.people[p].tenant == w.people[p].tenant && (w'.people[p].status == Purged <==> w.people[p].status == Purged))
  }

  lemma SameLivesKeepsQuota(w: World, w': World)
    requires QuotaOk(w) && SameLives(w, w')
    ensures QuotaOk(w')
  {
    forall t ensures Counted(w', t) == Counted(w, t) {}
  }

  lemma SameLivesKeepsRequests(w: World, w': World)
    requires RequestsOk(w) && SameLives(w, w') && (forall id | id in w'.open :: id in w.open && w'.open[id] == w.open[id])
    ensures RequestsOk(w')
  {
    forall id | id in w'.open ensures RequestOk(w', w'.open[id]) { assert RequestOk(w, w.open[id]); }
  }

  lemma LocationWrite(row: Location, r: Request)
    requires LocationOk(row) && OfLocation(r) && (Guarded(r) || row.status != Purged)
    requires (r.SettingStatus? ==> InUse(r.status)) && (r.SchedulingLocation? ==> InUse(r.seen)) && (r.RestoringLocation? ==> InUse(r.to))
    ensures LocationOk(WriteLocation(row, r)) && WriteLocation(row, r).tenant == row.tenant
    ensures WriteLocation(row, r).status == Purged <==> row.status == Purged
  {
  }

  lemma PersonWrite(w: World, row: Person, r: Request)
    requires PersonOk(w, row) && OfPerson(r) && (Guarded(r) || row.status != Purged)
    requires (r.SettingPerson? ==> InUse(r.status)) && (r.SchedulingPerson? ==> InUse(r.seen)) && (r.RestoringPerson? ==> InUse(r.to))
    ensures PersonOk(w, WritePerson(row, r)) && WritePerson(row, r).tenant == row.tenant
    ensures WritePerson(row, r).status == Purged <==> row.status == Purged
  {
  }

  lemma PeopleStayOk(w: World, w': World)
    requires (forall p | p in w.people :: PersonOk(w, w.people[p])) && w'.people == w.people && SameLives(w, w')
    ensures forall p | p in w'.people :: PersonOk(w', w'.people[p])
  {
    forall p | p in w'.people ensures PersonOk(w', w'.people[p]) { assert PersonOk(w, w.people[p]); }
  }

  lemma LocationWriteLives(w: World, r: Request, newId: PersonId)
    requires RowsOk(w) && Lands(w, r) && OfLocation(r)
    ensures SameLives(w, Written(w, r, newId))
    ensures forall l | l in Written(w, r, newId).locations :: LocationOk(Written(w, r, newId).locations[l])
  {
    LocationWrite(w.locations[r.location], r);
  }

  lemma LocationWritten(w: World, r: Request, newId: PersonId)
    requires RowsOk(w) && Lands(w, r) && OfLocation(r)
    ensures RowsOk(Written(w, r, newId)) && SameLives(w, Written(w, r, newId))
  {
    LocationWriteLives(w, r, newId);
    PeopleStayOk(w, Written(w, r, newId));
  }

  lemma PersonWriteLives(w: World, r: Request, newId: PersonId)
    requires RowsOk(w) && Lands(w, r) && OfPerson(r)
    ensures SameLives(w, Written(w, r, newId))
  {
    PersonWrite(w, w.people[r.person], r);
  }

  /** Whether a person's row is right depends on the rows of the locations only. */
  lemma SameLocationsSamePeople(w: World, w': World)
    requires w'.locations == w.locations && forall p | p in w'.people :: PersonOk(w, w'.people[p])
    ensures forall p | p in w'.people :: PersonOk(w', w'.people[p])
  {
  }

  lemma PersonWritten(w: World, r: Request, newId: PersonId)
    requires RowsOk(w) && Lands(w, r) && OfPerson(r)
    ensures RowsOk(Written(w, r, newId)) && SameLives(w, Written(w, r, newId))
  {
    PersonWriteLives(w, r, newId);
    PersonWrite(w, w.people[r.person], r);
    SameLocationsSamePeople(w, Written(w, r, newId));
  }

  lemma CreationWritten(w: World, r: Request, newId: PersonId)
    requires RowsOk(w) && Lands(w, r) && r.CreatingPerson? && newId !in w.people
    ensures RowsOk(Written(w, r, newId)) && SameLives(w, Written(w, r, newId))
  {
    var w' := Written(w, r, newId);
    forall p | p in w'.people ensures PersonOk(w', w'.people[p]) {
      if p in w.people { assert PersonOk(w, w.people[p]); }
    }
  }

  lemma AssignmentWritten(w: World, r: Request, newId: PersonId)
    requires RowsOk(w) && Lands(w, r) && r.Assigning?
    ensures RowsOk(Written(w, r, newId)) && SameLives(w, Written(w, r, newId))
  {
    var w' := Written(w, r, newId);
    forall p | p in w'.people ensures PersonOk(w', w'.people[p]) { assert PersonOk(w, w.people[p]); }
    forall a | a in w'.assignments ensures LiveLocation(w', a.1) {
      if a in w.assignments { assert LiveLocation(w, a.1); }
    }
  }

  lemma WrittenKeeps(w: World, r: Request, newId: PersonId)
    requires RowsOk(w) && Lands(w, r) && newId !in w.people
    ensures RowsOk(Written(w, r, newId)) && SameLives(w, Written(w, r, newId)) && Written(w, r, newId).open == w.open
  {
    if OfLocation(r) {
      LocationWritten(w, r, newId);
    } else if r.Assigning? {
      AssignmentWritten(w, r, newId);
    } else if r.CreatingPerson? {
      CreationWritten(w, r, newId);
    } else {
      PersonWritten(w, r, newId);
    }
  }

  /** What the triggers let through lands on rows that are not purged. */
  lemma NotRejectedLands(w: World, r: Request)
    requires RequestOk(w, r) && !Rejected(w, r)
    ensures Lands(w, r)
  {
    if r.Assigning? {
      forall l | l in r.locations ensures LiveLocation(w, l) { assert LocationTarget(w, l) && !OfPurgedTenant(w, l); }
    }
  }

  lemma EffectKeeps(w: World, r: Request, newId: PersonId)
    requires RowsOk(w) && RequestOk(w, r) && newId !in w.people
    ensures RowsOk(Effect(w, r, newId)) && SameLives(w, Effect(w, r, newId)) && Effect(w, r, newId).open == w.open
  {
    if !Rejected(w, r) {
      NotRejectedLands(w, r);
      WrittenKeeps(w, r, newId);
    }
  }

  lemma RowsIgnoreOpen(w: World, open: map<RequestId, Request>)
    requires RowsOk(w)
    ensures RowsOk(w.(open := open)) && SameLives(w, w.(open := open))
  {
    forall p | p in w.people ensures PersonOk(w.(open := open), w.people[p]) { assert PersonOk(w, w.people[p]); }
  }

  lemma CommitKeeps(w: World, id: RequestId, newId: PersonId)
    requires Inv(w) && id in w.open && newId !in w.people
    ensures Inv(Apply(w, Commit(id, newId)))
  {
    var w1 := Effect(w, w.open[id], newId);
    EffectKeeps(w, w.open[id], newId);
    SameLivesKeepsQuota(w, w1);
    SameLivesKeepsRequests(w, w1);
    CloseKeeps(w1, id);
  }

  lemma CloseKeeps(w: World, id: RequestId)
    requires Inv(w)
    ensures Inv(Closed(w, id))
  {
    RowsIgnoreOpen(w, Closed(w, id).open);
    SameLivesKeepsQuota(w, Closed(w, id));
    SameLivesKeepsRequests(w, Closed(w, id));
  }

  lemma BeginKeeps(w: World, id: RequestId, r: Request)
    requires Inv(w) && Begins(w, r)
    ensures Inv(w.(open := w.open[id := r]))
  {
    var w' := w.(open := w.open[id := r]);
    RowsIgnoreOpen(w, w'.open);
    SameLivesKeepsQuota(w, w');
    forall i | i in w'.open ensures RequestOk(w', w'.open[i]) {
      if i != id { assert RequestOk(w, w.open[i]); }
    }
  }

  // ---- creation and quota ---------------------------------------------------------------------------

  lemma CreateKeepsRows(w: World, t: TenantId, name: string, code: string, l: LocationId)
    requires RowsOk(w) && RequestsOk(w) && l !in w.locations && t !in w.purged
    ensures RowsOk(WithLocation(w, t, name, code, l)) && RequestsOk(WithLocation(w, t, name, code, l))
  {
    var w' := WithLocation(w, t, name, code, l);
    forall p | p in w'.people ensures PersonOk(w', w'.people[p]) { assert PersonOk(w, w.people[p]); }
    forall a | a in w'.assignments ensures LiveLocation(w', a.1) { assert LiveLocation(w, a.1); }
    forall id | id in w'.open ensures RequestOk(w', w'.open[id]) { assert RequestOk(w, w.open[id]); }
  }

  lemma CreateKeepsQuota(w: World, t: TenantId, name: string, code: string, l: LocationId)
    requires QuotaOk(w) && l !in w.locations && TryCreate(w, t, name, code) == Created
    ensures QuotaOk(WithLocation(w, t, name, code, l))
  {
    var w' := WithLocation(w, t, name, code, l);
    forall u | u in w'.limits ensures |Counted(w', u)| <= w'.limits[u] {
      assert Counted(w', u) == if u == t then Counted(w, u) + {l} else Counted(w, u);
    }
  }

  lemma LimitKeeps(w: World, t: TenantId, limit: nat)
    requires Inv(w)
    ensures Inv(WithLimit(w, t, limit))
  {
    var w' := WithLimit(w, t, limit);
    forall p | p in w'.people ensures PersonOk(w', w'.people[p]) { assert PersonOk(w, w.people[p]); }
    forall u ensures Counted(w', u) == Counted(w, u) {}
    forall id | id in w'.open ensures RequestOk(w', w'.open[id]) { assert RequestOk(w, w.open[id]); }
  }

  // ---- purges ---------------------------------------------------------------------------------------

  /** A purge only turns rows into purged ones, and no unguarded open request names such a row. */
  predicate OnlyPurges(w: World, w': World) {
    && w'.limits == w.limits && w.purged <= w'.purged && w'.open == w.open
    && w'.locations.Keys == w.locations.Keys && w'.people.Keys == w.people.Keys
    && (forall l | l in w.locations ::
          w'.locations[l] == w.locations[l] || w'.locations[l] == PurgedLocation(w.locations[l]))
    && (forall p | p in w.people :: w'.people[p] == w.people[p] || w'.people[p] == PurgedPerson(w.people[p]))
    && w'.assignments <= w.assignments && w'.legacy <= w.legacy
  }

  /** With a location go its people, its assignments and its legacy identifiers. */
  predicate Cascades(w: World, w': World) {
    && (forall p | p in w.people && p in w'.people && LivePerson(w', p) :: LiveLocation(w', w'.people[p].location))
    && (forall a | a in w'.assignments :: LiveLocation(w', a.1))
    && (forall x | x in w'.legacy :: LiveLocation(w', x.1))
    && PurgedTenantsOk(w')
  }

  predicate RequestsSpared(w: World, w': World) {
    forall id | id in w.open && !Guarded(w.open[id]) ::
      var r := w.open[id];
      && (OfLocation(r) || r.CreatingPerson? ==> LocationTarget(w', r.location))
      && (OfPerson(r) ==> PersonTarget(w', r.person))
      && (r.Assigning? ==> forall l | l in r.locations :: LocationTarget(w', l))
  }

  lemma PurgeKeepsRows(w: World, w': World)
    requires RowsOk(w) && OnlyPurges(w, w') && Cascades(w, w')
    ensures RowsOk(w')
  {
    forall l | l in w'.locations ensures LocationOk(w'.locations[l]) { assert LocationOk(w.locations[l]); }
    forall p | p in w'.people ensures PersonOk(w', w'.people[p]) { assert PersonOk(w, w.people[p]); }
  }

  lemma PurgeKeepsQuota(w: World, w': World)
    requires QuotaOk(w) && OnlyPurges(w, w')
    ensures QuotaOk(w')
  {
    forall t | t in w'.limits ensures |Counted(w', t)| <= w'.limits[t] {
      SubsetSize(Counted(w', t), Counted(w, t));
    }
  }

  lemma PurgeKeepsRequests(w: World, w': World)
    requires RequestsOk(w) && OnlyPurges(w, w') && RequestsSpared(w, w')
    ensures RequestsOk(w')
  {
    forall id | id in w'.open ensures RequestOk(w', w'.open[id]) { assert RequestOk(w, w.open[id]); }
  }

  lemma PurgeKeeps(w: World, w': World)
    requires Inv(w) && OnlyPurges(w, w') && Cascades(w, w') && RequestsSpared(w, w')
    ensures Inv(w')
  {
    PurgeKeepsRows(w, w');
    PurgeKeepsQuota(w, w');
    PurgeKeepsRequests(w, w');
  }

  lemma LocationPurgeOnlyPurges(w: World, l: LocationId, now: Ms)
    ensures OnlyPurges(w, PurgeLocation(w, l, now))
  {
  }

  lemma LocationPurgeCascades(w: World, l: LocationId, now: Ms)
    requires RowsOk(w)
    ensures Cascades(w, PurgeLocation(w, l, now))
  {
    var w' := PurgeLocation(w, l, now);
    forall p | p in w.people && LivePerson(w', p) ensures LiveLocation(w', w'.people[p].location) {
      assert PersonOk(w, w.people[p]);
    }
  }

  lemma LocationPurgeSpares(w: World, l: LocationId, now: Ms)
    requires Inv(w) && LocationQuiet(w, l)
    ensures RequestsSpared(w, PurgeLocation(w, l, now))
  {
    forall id | id in w.open && !Guarded(w.open[id]) ensures RequestOk(w, w.open[id]) && !Concerns(w, w.open[id], l) {}
  }

  lemma PersonPurgeOnlyPurges(w: World, p: PersonId, now: Ms)
    ensures OnlyPurges(w, PurgePerson(w, p, now))
  {
  }

  lemma PersonPurgeCascades(w: World, p: PersonId, now: Ms)
    requires RowsOk(w)
    ensures Cascades(w, PurgePerson(w, p, now))
  {
    var w' := PurgePerson(w, p, now);
    forall q | q in w.people && LivePerson(w', q) ensures LiveLocation(w', w'.people[q].location) {
      assert PersonOk(w, w.people[q]);
    }
  }

  lemma PersonPurgeSpares(w: World, p: PersonId, now: Ms)
    requires RequestsOk(w) && PersonQuiet(w, p)
    ensures RequestsSpared(w, PurgePerson(w, p, now))
  {
    forall id | id in w.open ensures RequestOk(w, w.open[id]) {}
  }

  lemma TenantPurgeFacts(w: World, t: TenantId)
    requires Inv(w)
    ensures OnlyPurges(w, PurgeTenant(w, t)) && Cascades(w, PurgeTenant(w, t))
  {
    var w' := PurgeTenant(w, t);
    forall p | p in w.people && LivePerson(w', p) ensures LiveLocation(w', w'.people[p].location) {
      assert PersonOk(w, w.people[p]);
    }
  }

  /** Whatever is open when a tenant is purged, its target is live or protected by the trigger. */
  lemma TenantPurgeSpares(w: World, t: TenantId)
    requires Inv(w)
    ensures RequestsSpared(w, PurgeTenant(w, t))
  {
    var w' := PurgeTenant(w, t);
    forall l | LocationTarget(w, l) ensures LocationTarget(w', l) {}
    forall p | PersonTarget(w, p) ensures PersonTarget(w', p) {}
    forall id | id in w.open ensures RequestOk(w, w.open[id]) {}
  }

  // ---- every reachable state ------------------------------------------------------------------------

  lemma StepKeeps(w: World, step: Step)
    requires Inv(w) && Enabled(w, step)
    ensures Inv(Apply(w, step))
  {
    match step
    case Begin(id, r) => BeginKeeps(w, id, r);
    case Commit(id, newId) => CommitKeeps(w, id, newId);
    case Abandon(id) => CloseKeeps(w, id);
    case Create(t, name, code, l) =>
      if TryCreate(w, t, name, code) == Created {
        CreateKeepsRows(w, t, name, code, l);
        CreateKeepsQuota(w, t, name, code, l);
      }
    case SetLimit(t, limit) => LimitKeeps(w, t, limit);
    case PurgeLocationStep(l, now) =>
      LocationPurgeOnlyPurges(w, l, now);
      LocationPurgeCascades(w, l, now);
      LocationPurgeSpares(w, l, now);
      PurgeKeeps(w, PurgeLocation(w, l, now));
    case PurgePersonStep(p, now) =>
      PersonPurgeOnlyPurges(w, p, now);
      PersonPurgeCascades(w, p, now);
      PersonPurgeSpares(w, p, now);
      PurgeKeeps(w, PurgePerson(w, p, now));
    case PurgeTenantStep(t) =>
      TenantPurgeFacts(w, t);
      TenantPurgeSpares(w, t);
      PurgeKeeps(w, PurgeTenant(w, t));
  }

  lemma {:induction false} RunKeeps(w: World, steps: seq<Step>)
    requires Inv(w) && ValidRun(w, steps)
    ensures Inv(Exec(w, steps))
    decreases |steps|
  {
    if steps != [] {
      StepKeeps(w, steps[0]);
      RunKeeps(Apply(w, steps[0]), steps[1..]);
    }
  }

  lemma {:induction false} ReachableIsOk(w: World)
    requires Reachable(w)
    ensures Inv(w)
  {
    var init, steps :| Init(init) && ValidRun(init, steps) && Exec(init, steps) == w;
    RunKeeps(init, steps);
  }

  /** A tenant never has more locations than its limit, counting those that are scheduled for deletion. */
  lemma {:induction false} QuotaIsKept(w: World, t: TenantId)
    requires Reachable(w) && t in w.limits
    ensures |Counted(w, t)| <= w.limits[t]
  {
    ReachableIsOk(w);
  }

  /**
   A purged location keeps no person, no assignment and no legacy identifier alive, and a purged
   person's row holds no personal data. Both stay so under every interleaving of requests.
   */
  lemma {:induction false} PurgedMeansGone(w: World, l: LocationId, p: PersonId)
    requires Reachable(w) && l in w.locations && w.locations[l].status == Purged
    ensures p in w.people && w.people[p].location == l ==>
              w.people[p].status == Purged && w.people[p].name == NO_NAME && w.people[p].email == NO_EMAIL
    ensures (forall a | a in w.assignments :: a.1 != l) && (forall x | x in w.legacy :: x.1 != l)
  {
    ReachableIsOk(w);
    if p in w.people { assert PersonOk(w, w.people[p]); }
  }

  /** Whatever is scheduled for deletion can be restored for fourteen days, to a status it can have. */
  lemma {:induction false} ScheduledIsConsistent(w: World, l: LocationId, p: PersonId)
    requires Reachable(w)
    ensures l in w.locations && w.locations[l].status == PendingDelete ==>
              Scheduled(w.locations[l].deletedAt, w.locations[l].purgeAfter, w.locations[l].from)
    ensures p in w.people && w.people[p].status == PendingDelete ==>
              Scheduled(w.people[p].deletedAt, w.people[p].purgeAfter, w.people[p].from)
  {
    ReachableIsOk(w);
    if l in w.locations { assert LocationOk(w.locations[l]); }
    if p in w.people { assert PersonOk(w, w.people[p]); }
  }

  // ---- after the purge of a tenant --------------------------------------------------------------------

  function LocationsOf(w: World, t: TenantId): map<LocationId, Location> {
    map l | l in w.locations && w.locations[l].tenant == t :: w.locations[l]
  }

  function PeopleOf(w: World, t: TenantId): map<PersonId, Person> {
    map p | p in w.people && w.people[p].tenant == t :: w.people[p]
  }

  /** The tenant is purged and has the very same rows as before. */
  predicate StaysErased(w: World, w': World, t: TenantId) {
    t in w'.purged && LocationsOf(w', t) == LocationsOf(w, t) && PeopleOf(w', t) == PeopleOf(w, t)
  }

  lemma LocationWriteSparesErased(w: World, r: Request, newId: PersonId, t: TenantId)
    requires t in w.purged && OfLocation(r) && !Rejected(w, r)
    ensures StaysErased(w, Written(w, r, newId), t)
  {
    if r.location in w.locations {
      assert WriteLocation(w.locations[r.location], r).tenant == w.locations[r.location].tenant != t;
    }
  }

  lemma PersonWriteSparesErased(w: World, r: Request, newId: PersonId, t: TenantId)
    requires t in w.purged && OfPerson(r) && !Rejected(w, r)
    ensures StaysErased(w, Written(w, r, newId), t)
  {
    if r.person in w.people {
      assert WritePerson(w.people[r.person], r).tenant == w.people[r.person].tenant != t;
    }
  }

  lemma CreationSparesErased(w: World, r: Request, newId: PersonId, t: TenantId)
    requires t in w.purged && r.CreatingPerson? && !Rejected(w, r) && newId !in w.people
    ensures StaysErased(w, Written(w, r, newId), t)
  {
  }

  lemma WriteSparesErased(w: World, r: Request, newId: PersonId, t: TenantId)
    requires t in w.purged && newId !in w.people
    ensures StaysErased(w, Effect(w, r, newId), t)
  {
    if !Rejected(w, r) {
      if OfLocation(r) {
        LocationWriteSparesErased(w, r, newId, t);
      } else if OfPerson(r) {
        PersonWriteSparesErased(w, r, newId, t);
      } else if r.CreatingPerson? {
        CreationSparesErased(w, r, newId, t);
      }
    }
  }

  lemma RowsOfPurgedTenant(w: World, t: TenantId)
    requires Inv(w) && t in w.purged
    ensures forall l | l in w.locations && w.locations[l].tenant == t :: w.locations[l].status == Purged
    ensures forall p | p in w.people && w.people[p].tenant == t :: w.people[p].status == Purged
  {
    forall l | l in w.locations && w.locations[l].tenant == t ensures w.locations[l].status == Purged {
      assert OfPurgedTenant(w, l);
    }
    forall p | p in w.people && w.people[p].tenant == t ensures w.people[p].status == Purged {
      assert PersonOk(w, w.people[p]);
    }
  }

  lemma PurgeSparesLocations(w: World, w': World, t: TenantId)
    requires RowsOk(w) && OnlyPurges(w, w') && forall l | l in w.locations && w.locations[l].tenant == t :: w.locations[l].status == Purged
    ensures LocationsOf(w', t) == LocationsOf(w, t)
  {
    forall l | l in w.locations && w.locations[l].tenant == t ensures w'.locations[l] == w.locations[l] {
      assert LocationOk(w.locations[l]);
    }
  }

  lemma PurgeSparesPeople(w: World, w': World, t: TenantId)
    requires RowsOk(w) && OnlyPurges(w, w') && forall p | p in w.people && w.people[p].tenant == t :: w.people[p].status == Purged
    ensures PeopleOf(w', t) == PeopleOf(w, t)
  {
    forall p | p in w.people && w.people[p].tenant == t ensures w'.people[p] == w.people[p] {
      assert PersonOk(w, w.people[p]);
    }
  }

  lemma PurgeSparesErased(w: World, w': World, t: TenantId)
    requires Inv(w) && OnlyPurges(w, w') && t in w.purged
    ensures StaysErased(w, w', t)
  {
    RowsOfPurgedTenant(w, t);
    PurgeSparesLocations(w, w', t);
    PurgeSparesPeople(w, w', t);
  }

  lemma ErasedStep(w: World, step: Step, t: TenantId)
    requires Inv(w) && Enabled(w, step) && t in w.purged
    ensures StaysErased(w, Apply(w, step), t)
  {
    match step
    case Commit(id, newId) => WriteSparesErased(w, w.open[id], newId, t);
    case PurgeLocationStep(l, now) =>
      LocationPurgeOnlyPurges(w, l, now);
      PurgeSparesErased(w, PurgeLocation(w, l, now), t);
    case PurgePersonStep(p, now) =>
      PersonPurgeOnlyPurges(w, p, now);
      PurgeSparesErased(w, PurgePerson(w, p, now), t);
    case PurgeTenantStep(u) =>
      TenantPurgeFacts(w, u);
      PurgeSparesErased(w, PurgeTenant(w, u), t);
    case _ =>
  }

  lemma {:induction false} ErasedForever(w: World, steps: seq<Step>, t: TenantId)
    requires Inv(w) && ValidRun(w, steps) && t in w.purged
    ensures StaysErased(w, Exec(w, steps), t)
    decreases |steps|
  {
    if steps != [] {
      ErasedStep(w, steps[0], t);
      StepKeeps(w, steps[0]);
      ErasedForever(Apply(w, steps[0]), steps[1..], t);
    }
  }

  /**
   After the purge of a tenant, whatever requests were open when it happened and whatever comes
   later: in every run its locations and people are all purged and are the very rows the purge left,
   and no row, assignment or legacy identifier of the tenant appears.
   */
  lemma {:induction false} TenantPurgeIsForever(w: World, t: TenantId, steps: seq<Step>)
    requires Reachable(w) && ValidRun(PurgeTenant(w, t), steps)
    ensures var w1 := PurgeTenant(w, t);
            var w2 := Exec(w1, steps);
            && LocationsOf(w2, t) == LocationsOf(w1, t) && PeopleOf(w2, t) == PeopleOf(w1, t)
            && (forall l | l in LocationsOf(w2, t) :: w2.locations[l].status == Purged)
            && (forall p | p in PeopleOf(w2, t) :: w2.people[p].status == Purged && w2.people[p].name == NO_NAME)
            && (forall a | a in w2.assignments :: a.1 !in LocationsOf(w2, t))
            && (forall x | x in w2.legacy :: x.1 !in LocationsOf(w2, t))
  {
    ReachableIsOk(w);
    var w1 := PurgeTenant(w, t);
    StepKeeps(w, PurgeTenantStep(t));
    ErasedForever(w1, steps, t);
    RunKeeps(w1, steps);
    var w2 := Exec(w1, steps);
    RowsOfPurgedTenant(w2, t);
    forall p | p in PeopleOf(w2, t) ensures w2.people[p].name == NO_NAME { assert PersonOk(w2, w2.people[p]); }
  }

  // ---- why the purge of a location must find it quiet ---------------------------------------------------

  /**
   A write brings a purged location back exactly if it is a late status change or a late
   scheduling, which name only the row, and the tenant itself is not purged, in which case the
   trigger rejects the write.
   */
  lemma RevivesExactly(w: World, r: Request, newId: PersonId, l: LocationId)
    requires l in w.locations && w.locations[l].status == Purged && SaneValues(r)
    ensures Effect(w, r, newId).locations[l].status != Purged <==>
            (r.SettingStatus? || r.SchedulingLocation?) && r.location == l && w.locations[l].tenant !in w.purged
  {
  }

  /** While a location is scheduled for deletion, no unguarded request on it or on its people gets past its reads. */
  lemma PendingAdmitsNoRequest(w: World, r: Request, l: LocationId)
    requires l in w.locations && w.locations[l].status == PendingDelete && Begins(w, r)
    ensures Guarded(r) || !Concerns(w, r, l)
  {
  }

  lemma PersonPendingAdmitsNoRequest(w: World, r: Request, p: PersonId)
    requires p in w.people && w.people[p].status == PendingDelete && Begins(w, r) && OfPerson(r) && r.person == p
    ensures Guarded(r)
  {
  }

  // ---- what the writes leave, in the fields of the rows --------------------------------------------------

  /**
   Fourteen days: in every reachable state a location is purged by the timer exactly if it is pending
   and fourteen days have passed since its deletion. Then its name gives way to its code, its people
   lose name and address, nothing points to it any more, and every other row stays as it is.
   */
  lemma {:induction false} LocationPurgedAfterFourteenDays(w: World, l: LocationId, now: Ms)
    requires Reachable(w) && l in w.locations
    ensures var w' := Apply(w, PurgeLocationStep(l, now));
            var row := w.locations[l];
            var due := row.status == PendingDelete && row.deletedAt.Some? && row.deletedAt.value + 14 * 24 * 60 * 60 * 1_000 <= now;
            && (!due ==> w' == w)
            && (due ==>
                  && w'.locations == w.locations[l := row.(name := "[deleted location " + row.code + "]", status := Purged, from := None)]
                  && w'.people.Keys == w.people.Keys
                  && (forall p | p in w.people ::
                        w'.people[p] == if w.people[p].location == l && w.people[p].status != Purged
                                        then w.people[p].(name := "[deleted person]", email := "deleted@invalid.local",
                                                          status := Purged, from := None)
                                        else w.people[p])
                  && (forall a: (nat, LocationId) :: a in w'.assignments <==> a in w.assignments && a.1 != l)
                  && (forall x: (string, LocationId) :: x in w'.legacy <==> x in w.legacy && x.1 != l)
                  && w'.limits == w.limits && w'.purged == w.purged && w'.open == w.open)
  {
    ReachableIsOk(w);
    assert LocationOk(w.locations[l]);
    forall p | p in w.people && w.people[p].location == l ensures w.people[p].tenant == w.locations[l].tenant {
      assert PersonOk(w, w.people[p]);
    }
  }

  lemma {:induction false} PersonPurgedAfterFourteenDays(w: World, p: PersonId, now: Ms)
    requires Reachable(w) && p in w.people
    ensures var w' := Apply(w, PurgePersonStep(p, now));
            var row := w.people[p];
            var due := row.status == PendingDelete && row.deletedAt.Some? && row.deletedAt.value + 14 * 24 * 60 * 60 * 1_000 <= now;
            w' == if due then w.(people := w.people[p := row.(name := "[deleted person]", email := "deleted@invalid.local",
                                                              status := Purged, from := None)])
                  else w
  {
    ReachableIsOk(w);
    assert PersonOk(w, w.people[p]);
  }

  /**
   A location is created exactly if its tenant is there and not purged, has room, and has no location of
   that name, no location of that code and no legacy identifier like it; other tenants do not matter.
   It is active and carries the tenant, the code and the name of its request; nothing else changes.
   */
  lemma NewLocationInRows(w: World, t: TenantId, name: string, code: string, l: LocationId)
    requires l !in w.locations
    ensures var w' := Apply(w, Create(t, name, code, l));
            || w' == w
            || (t in w.limits && t !in w.purged
                && w' == w.(locations := w.locations[l := Location(t, code, name, Active, None, None, None)]))
    ensures l in Apply(w, Create(t, name, code, l)).locations <==>
              && t in w.limits && t !in w.purged
              && |set m | m in w.locations && w.locations[m].tenant == t && w.locations[m].status != Purged| < w.limits[t]
              && (forall m | m in w.locations && w.locations[m].tenant == t :: w.locations[m].name != name && w.locations[m].code != code)
              && (forall x | x in w.legacy && x.1 in w.locations && w.locations[x.1].tenant == t :: x.0 != code)
  {
    assert Counted(w, t) == set m | m in w.locations && w.locations[m].tenant == t && w.locations[m].status != Purged;
  }

  /** A new limit is taken exactly if the tenant is there and has no more locations than that; nothing else changes. */
  lemma LimitInRows(w: World, t: TenantId, limit: nat)
    ensures Apply(w, SetLimit(t, limit)) ==
            if t in w.limits && |set m | m in w.locations && w.locations[m].tenant == t && w.locations[m].status != Purged| <= limit
            then w.(limits := w.limits[t := limit]) else w
  {
    assert Counted(w, t) == set m | m in w.locations && w.locations[m].tenant == t && w.locations[m].status != Purged;
  }

  /**
   What a request writes that nothing rejects: a new person is active, with the name and the address of
   the request, at its location and with the tenant of that; a status, a name or an address is the
   requested one; and an operator is assigned to exactly the requested locations. Every other row stays.
   */
  lemma CommitInRows(w: World, id: RequestId, newId: PersonId)
    requires id in w.open && newId !in w.people && !Rejected(w, w.open[id])
    ensures var r, w' := w.open[id], Apply(w, Commit(id, newId));
            && id !in w'.open && w'.limits == w.limits && w'.legacy == w.legacy && w'.purged == w.purged
            && match r
               case CreatingPerson(l, name, email) =>
                 l in w.locations ==>
                   && w'.people == w.people[newId := Person(w.locations[l].tenant, l, name, email, Active, None, None, None)]
                   && w'.locations == w.locations && w'.assignments == w.assignments
               case SettingStatus(l, status) => l in w.locations ==> OneLocation(w, w', l, w.locations[l].(status := status))
               case Renaming(l, name) => l in w.locations ==> OneLocation(w, w', l, w.locations[l].(name := name))
               case UpdatingPerson(p, name, email) =>
                 p in w.people ==>
                   && OnePerson(w, w', p, w.people[p].(name := w'.people[p].name, email := w'.people[p].email))
                   && w'.people[p].name == (if name.Some? then name.value else w.people[p].name)
                   && w'.people[p].email == (if email.Some? then email.value else w.people[p].email)
               case SettingPerson(p, status) => p in w.people ==> OnePerson(w, w', p, w.people[p].(status := status))
               case SchedulingLocation(l, seen, now) =>
                 l in w.locations ==>
                   OneLocation(w, w', l, w.locations[l].(status := PendingDelete, deletedAt := Some(now),
                                                         purgeAfter := Some(now + 14 * 24 * 60 * 60 * 1_000), from := Some(seen)))
               case SchedulingPerson(p, seen, now) =>
                 p in w.people ==>
                   OnePerson(w, w', p, w.people[p].(status := PendingDelete, deletedAt := Some(now),
                                                    purgeAfter := Some(now + 14 * 24 * 60 * 60 * 1_000), from := Some(seen)))
               case Assigning(o, ls) =>
                 && w'.locations == w.locations && w'.people == w.people
                 && (forall l :: (o, l) in w'.assignments <==> l in ls)
                 && (forall a: (nat, LocationId) | a.0 != o :: a in w'.assignments <==> a in w.assignments)
               case RestoringLocation(l, to, now) =>
                 l in w.locations ==>
                   OneLocation(w, w', l,
                     if w.locations[l].status == PendingDelete && w.locations[l].purgeAfter.Some? && now < w.locations[l].purgeAfter.value
                     then w.locations[l].(status := to, deletedAt := None, purgeAfter := None, from := None) else w.locations[l])
               case RestoringPerson(p, to, now) =>
                 p in w.people ==>
                   OnePerson(w, w', p,
                     if w.people[p].status == PendingDelete && w.people[p].purgeAfter.Some? && now < w.people[p].purgeAfter.value
                     then w.people[p].(status := to, deletedAt := None, purgeAfter := None, from := None) else w.people[p])
  {
  }

  ghost predicate OneLocation(w: World, w': World, l: LocationId, row: Location) {
    w'.locations == w.locations[l := row] && w'.people == w.people && w'.assignments == w.assignments
  }

  ghost predicate OnePerson(w: World, w': World, p: PersonId, row: Person) {
    w'.people == w.people[p := row] && w'.locations == w.locations && w'.assignments == w.assignments
  }

  // ---- names, codes and who may do what ------------------------------------------------------------------

  /** No code names two locations of one tenant, and none is the legacy identifier of another. */
  ghost predicate CodesUnique(w: World) {
    && (forall l, m | l in w.locations && m in w.locations && w.locations[l].tenant == w.locations[m].tenant
                      && w.locations[l].code == w.locations[m].code :: l == m)
    && (forall x: (string, LocationId), l | x in w.legacy && x.1 in w.locations && l in w.locations
                      && w.locations[l].tenant == w.locations[x.1].tenant && w.locations[l].code == x.0 :: l == x.1)
  }

  /** Codes and tenants of locations never change, and no legacy identifier is added. */
  predicate KeepsCodes(w: World, w': World) {
    && (forall l | l in w'.locations && l in w.locations ::
          w'.locations[l].code == w.locations[l].code && w'.locations[l].tenant == w.locations[l].tenant)
    && w.locations.Keys <= w'.locations.Keys && w'.legacy <= w.legacy
  }

  lemma KeptCodesStayUnique(w: World, w': World)
    requires CodesUnique(w) && KeepsCodes(w, w') && w'.locations.Keys == w.locations.Keys
    requires forall x | x in w.legacy :: x.1 in w.locations
    ensures CodesUnique(w')
  {
  }

  lemma OtherStepKeepsCodes(w: World, step: Step)
    requires Enabled(w, step) && !step.Create?
    ensures KeepsCodes(w, Apply(w, step)) && Apply(w, step).locations.Keys == w.locations.Keys
  {
  }

  lemma CreationKeepsCodesUnique(w: World, t: TenantId, name: string, code: string, l: LocationId)
    requires CodesUnique(w) && l !in w.locations && (forall x | x in w.legacy :: x.1 in w.locations)
    ensures CodesUnique(Apply(w, Create(t, name, code, l)))
    ensures l in Apply(w, Create(t, name, code, l)).locations ==>
              forall m | m in w.locations && w.locations[m].tenant == t :: w.locations[m].name != name
  {
  }

  /**
   Over every run no code ever comes to name two locations of one tenant, purged ones and legacy
   identifiers included, so that a printed code keeps its meaning.
   */
  lemma {:induction false} CodesStayUnique(w: World, steps: seq<Step>)
    requires Inv(w) && CodesUnique(w) && ValidRun(w, steps)
    ensures CodesUnique(Exec(w, steps))
    decreases |steps|
  {
    if steps != [] {
      if steps[0].Create? {
        CreationKeepsCodesUnique(w, steps[0].tenant, steps[0].name, steps[0].code, steps[0].location);
      } else {
        OtherStepKeepsCodes(w, steps[0]);
        KeptCodesStayUnique(w, Apply(w, steps[0]));
      }
      StepKeeps(w, steps[0]);
      CodesStayUnique(Apply(w, steps[0]), steps[1..]);
    }
  }

  /** What still gets past its reads at an inactive location: no new person, no assignment, nobody's data, no restore of a person. */
  lemma InactiveLocationAdmits(w: World, r: Request, l: LocationId)
    requires l in w.locations && w.locations[l].status == Inactive && Begins(w, r)
    requires OfPerson(r) ==> r.person in w.people
    ensures Concerns(w, r, l) ==>
              r.SettingStatus? || r.Renaming? || r.SchedulingLocation? || (r.SettingPerson? && r.status == Inactive)
    ensures r.SettingStatus? && r.location == l ==> r.status == Active
    ensures r.SchedulingLocation? && r.location == l ==> r.seen == Inactive
  {
  }

  /** Locations pending deletion still count against the quota; purged ones do not. */
  lemma {:induction false} QuotaCountsThePending(w: World, t: TenantId)
    requires Reachable(w) && t in w.limits
    ensures |set l | l in w.locations && w.locations[l].tenant == t && w.locations[l].status != Purged| <= w.limits[t]
  {
    ReachableIsOk(w);
    assert Counted(w, t) == set l | l in w.locations && w.locations[l].tenant == t && w.locations[l].status != Purged;
  }
}
