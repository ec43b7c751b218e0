/** The handlers of update events (model/update_manager.go). Stop areas live in their store;
    lines, journeys and visits, whose transactions save one object each, are values with
    their index. */
module UpdateManager {
  import opened Common
  import opened StopVisit
  import opened StopArea
  import opened MemoryStopAreas
  import opened ParentAssignment
  import opened Network
  import opened UpdateEventBuilder
  import O = ObjectIdIndex
  import SA = StopArea

  datatype Collection<T> = Collection(entities: map<string, T>, index: O.Table)

  datatype World = World(
    areas: Areas,
    areaIndex: O.Table,
    lines: Collection<Line>,
    journeys: Collection<VehicleJourney>,
    visits: Collection<StopVisit>)

  function Found<T>(store: Collection<T>, o: ObjectId): Option<T> {
    match O.Lookup(store.index, o)
    case Some(id) => if id in store.entities then Some(store.entities[id]) else None
    case None => None
  }

  function Saved<T>(store: Collection<T>, id: string, entity: T, ids: ObjectIds): Collection<T> {
    Collection(store.entities[id := entity], O.Indexed(store.index, id, ids))
  }

  /** The kind under which new objects also get the hash of their identifier. */
  const DEFAULT_KIND := "_default"

  type Hash = string -> string

  function NewIds(o: ObjectId, hash: Hash): ObjectIds {
    map[o.kind := o.value][DEFAULT_KIND := hash(o.value)]
  }

  // ---------------------------------------------------------------- stop areas

  function NewStopArea(id: string, event: StopAreaUpdateEvent): StopArea {
    StopArea(id, NO_ID, NO_ID, map[event.objectId.kind := event.objectId.value], event.name,
             event.collectedAlways, true,
             ZERO_TIME, false, map[], [])
  }

  /** The area of the event, with its parent if it had none and the event tells one that is known. */
  function UpdatedArea(w: World, event: StopAreaUpdateEvent, now: Time, newId: string): StopArea {
    var area := match AreaFound(w.areas, w.areaIndex, event.objectId)
                case Some(a) => a
                case None => NewStopArea(newId, event);
    var parentId := if area.parentId == NO_ID && event.parentObjectId.value != ""
                    then ParentFound(w, event.parentObjectId) else area.parentId;
    area.(parentId := parentId, collectedAt := now)
  }

  function ParentFound(w: World, o: ObjectId): string {
    match AreaFound(w.areas, w.areaIndex, o)
    case Some(parent) => parent.id
    case None => NO_ID
  }

  /** The origin is not yet known at this status. */
  predicate NeedsStatus(area: StopArea, origin: string, status: bool) {
    origin != "" && !(origin in area.origins && area.origins[origin] == status)
  }

  ghost function StatusSettled(areas: Areas, rank: string -> nat, area: StopArea, origin: string, status: bool): Areas
    requires Ranked(areas, rank)
  {
    if NeedsStatus(area, origin, status) then WithStatus(areas, AscendantIds(areas, rank, area.id), origin, status)
        else areas
  }

  // ---------------------------------------------------------------- lines and journeys

  function UpdatedLine(lines: Collection<Line>, event: LineUpdateEvent, now: Time, newId: string, hash: Hash): Line {
    var line := match Found(lines, event.objectId)
                case Some(l) => l
                case None => Line(newId, NewIds(event.objectId, hash), event.name, event.origin, true, ZERO_TIME);
    line.(collectedAt := now)
  }

  function LineHandled(lines: Collection<Line>, event: LineUpdateEvent, now: Time, newId: string,
                       hash: Hash): Collection<Line> {
    var line := UpdatedLine(lines, event, now, newId, hash);
    Saved(lines, line.id, line, line.objectIds)
  }

  function NewVehicleJourney(id: string, event: VehicleJourneyUpdateEvent, lineId: string, hash: Hash): VehicleJourney {
    var name := if VEHICLE_JOURNEY_NAME in event.attributes then event.attributes[VEHICLE_JOURNEY_NAME] else "";
    VehicleJourney(id, NewIds(event.objectId, hash), lineId, name, event.origin, "", "", false,
                   event.attributes, event.references)
  }

  /** What every event tells about its journey; an empty reference or direction leaves the known one. */
  function ToldJourney(j: VehicleJourney, event: VehicleJourneyUpdateEvent): VehicleJourney {
    var references := SetObjectId(j.references, ORIGIN_REF, ObjectId(event.objectId.kind, event.originRef));
    j.(originName := event.originName,
       destinationName := event.destinationName,
       monitored := event.monitored,
       attributes := SetAttribute(j.attributes, DIRECTION_NAME, event.direction),
       references := SetObjectId(references, DESTINATION_REF, ObjectId(event.objectId.kind, event.destinationRef)))
  }

  const DIRECTION_NAME := "DirectionName"

  /** The journey of the event: the known one, or a new one if its line is known. */
  function UpdatedJourney(w: World, event: VehicleJourneyUpdateEvent, newId: string,
                          hash: Hash): Option<VehicleJourney> {
    match Found(w.journeys, event.objectId)
    case Some(j) => Some(ToldJourney(j, event))
    case None =>
      match Found(w.lines, event.lineObjectId)
      case None => None
      case Some(line) => Some(ToldJourney(NewVehicleJourney(newId, event, line.id, hash), event))
  }

  function JourneyHandled(w: World, event: VehicleJourneyUpdateEvent, newId: string,
                          hash: Hash): Collection<VehicleJourney> {
    match UpdatedJourney(w, event, newId, hash)
    case None => w.journeys
    case Some(j) => Saved(w.journeys, j.id, j, j.objectIds)
  }

  // ---------------------------------------------------------------- stop visits

  /** Include: the schedules have all of these. */
  predicate Includes(schedules: Schedules, others: Schedules) {
    forall kind :: kind in others ==> kind in schedules && schedules[kind] == others[kind]
  }

  function NewStopVisit(id: string, event: StopVisitUpdateEvent, stopAreaId: string, vehicleJourneyId: string,
                        hash: Hash): StopVisit {
    StopVisit(id, stopAreaId, vehicleJourneyId, NewIds(event.objectId, hash), event.origin, false, ZERO_TIME,
              ZERO_TIME, map[],
              "", "", false, event.passageOrder, event.dataFrameRef)
  }

  /** The recorded time is that of the event; without one it moves only if schedules are new. */
  function RecordedAt(visit: StopVisit, event: StopVisitUpdateEvent, now: Time): Time {
    if !IsZero(event.recordedAt) then event.recordedAt
    else if !Includes(visit.schedules, event.schedules) then now
    else visit.recordedAt
  }

  function UpdatedVisit(visit: StopVisit, event: StopVisitUpdateEvent, now: Time): StopVisit {
    visit.(recordedAt := RecordedAt(visit, event, now),
           schedules := visit.schedules + event.schedules,
           departureStatus := event.departureStatus,
           arrivalStatus := event.arrivalStatus,
           vehicleAtStop := event.vehicleAtStop,
           collected := true,
           collectedAt := now)
  }

  /** The stop area and the journey of the event are known. */
  predicate VisitIsPlaced(w: World, event: StopVisitUpdateEvent) {
    AreaFound(w.areas, w.areaIndex, event.stopAreaObjectId).Some?
        && Found(w.journeys, event.vehicleJourneyObjectId).Some?
  }

  function VisitOrNew(visits: Collection<StopVisit>, event: StopVisitUpdateEvent, newId: string, stopAreaId: string,
                      vehicleJourneyId: string, hash: Hash): StopVisit {
    match Found(visits, event.objectId)
    case Some(v) => v
    case None => NewStopVisit(newId, event, stopAreaId, vehicleJourneyId, hash)
  }

  function VisitHandled(w: World, event: StopVisitUpdateEvent, now: Time, newId: string,
                        hash: Hash): Collection<StopVisit>
    requires VisitIsPlaced(w, event)
  {
    var area := AreaFound(w.areas, w.areaIndex, event.stopAreaObjectId).value;
    var journey := Found(w.journeys, event.vehicleJourneyObjectId).value;
    var visit := UpdatedVisit(VisitOrNew(w.visits, event, newId, area.id, journey.id, hash), event, now);
    Saved(w.visits, visit.id, visit, visit.objectIds)
  }

  function MonitoredSet(journeys: Collection<VehicleJourney>, journey: VehicleJourney,
                        monitored: bool): Collection<VehicleJourney> {
    if monitored == journey.monitored then journeys
    else Saved(journeys, journey.id, journey.(monitored := monitored), journey.objectIds)
  }

  function JourneyMonitored(w: World, event: StopVisitUpdateEvent): Collection<VehicleJourney>
    requires VisitIsPlaced(w, event)
  {
    MonitoredSet(w.journeys, Found(w.journeys, event.vehicleJourneyObjectId).value, event.monitored)
  }

  function WithLine(area: StopArea, lineId: string): StopArea {
    if lineId in area.lineIds then area else area.(lineIds := area.lineIds + [lineId])
  }

  /** Copies of the stop area and of its referent with the line of the journey. */
  function CopiesWithLine(areas: Areas, lines: Collection<Line>, area: StopArea, journey: VehicleJourney): Areas {
    if journey.lineId !in lines.entities then map[]
    else if area.referentId in areas
    then map[area.referentId := WithLine(areas[area.referentId], journey.lineId)][area.id :=
          WithLine(area, journey.lineId)]
    else map[area.id := WithLine(area, journey.lineId)]
  }

  /** The copies that are made before the status changes. */
  function AreasWithLine(w: World, event: StopVisitUpdateEvent): Areas
    requires VisitIsPlaced(w, event)
  {
    CopiesWithLine(w.areas, w.lines, AreaFound(w.areas, w.areaIndex, event.stopAreaObjectId).value,
                   Found(w.journeys, event.vehicleJourneyObjectId).value)
  }

  /** The status is settled on the ascendants first; the copies are saved over it. */
  ghost function AreasAfterVisit(w: World, rank: string -> nat, event: StopVisitUpdateEvent): Areas
    requires Ranked(w.areas, rank) && VisitIsPlaced(w, event)
  {
    StatusSettled(w.areas, rank, AreaFound(w.areas, w.areaIndex, event.stopAreaObjectId).value, event.origin,
                  event.monitored)
    + AreasWithLine(w, event)
  }

  function NotCollected(visit: StopVisit): StopVisit {
    visit.(collected := false, arrivalStatus := ARRIVAL_CANCELLED, departureStatus := DEPARTURE_DEPARTED)
  }

  function CancellationHandled(visits: Collection<StopVisit>, o: ObjectId): Collection<StopVisit> {
    match Found(visits, o)
    case None => visits
    case Some(v) => Saved(visits, v.id, NotCollected(v), v.objectIds)
  }

  // ---------------------------------------------------------------- what a visit remembers of its events

  /** The events handled for one visit, each with the time of its handling. */
  datatype Handled = Handled(event: StopVisitUpdateEvent, now: Time)

  function AfterEvents(visit: StopVisit, steps: seq<Handled>): StopVisit {
    if steps == [] then visit
    else UpdatedVisit(AfterEvents(visit, steps[..|steps| - 1]), steps[|steps| - 1].event, steps[|steps| - 1].now)
  }

  /** The schedule of a kind that was told last. */
  function LastTold(visit: StopVisit, steps: seq<Handled>, kind: ScheduleKind): Option<Schedule> {
    if steps == [] then if kind in visit.schedules then Some(visit.schedules[kind]) else None
    else if kind in steps[|steps| - 1].event.schedules then Some(steps[|steps| - 1].event.schedules[kind])
    else LastTold(visit, steps[..|steps| - 1], kind)
  }

  /** The event tells when it was recorded, or a schedule other than the one told last. */
  ghost predicate IsNews(visit: StopVisit, steps: seq<Handled>, i: nat)
    requires i < |steps|
  {
    var event := steps[i].event;
    !IsZero(event.recordedAt)
    || exists kind :: kind in event.schedules && LastTold(visit, steps[..i], kind) != Some(event.schedules[kind])
  }

  /** The last event that is news, if any. */
  ghost predicate LastNews(visit: StopVisit, steps: seq<Handled>, i: nat) {
    i < |steps| && IsNews(visit, steps, i) && forall j :: i < j < |steps| ==> !IsNews(visit, steps, j)
  }

  /** After any events, each kind has the schedule told last. */
  lemma {:induction false} SchedulesAreLastTold(visit: StopVisit, steps: seq<Handled>, kind: ScheduleKind)
    ensures var schedules := AfterEvents(visit, steps).schedules;
            LastTold(visit, steps, kind) == if kind in schedules then Some(schedules[kind]) else None
  {
    if steps != [] {
      SchedulesAreLastTold(visit, steps[..|steps| - 1], kind);
    }
  }

  ghost predicate NoNews(visit: StopVisit, steps: seq<Handled>) {
    forall i: nat :: i < |steps| ==> !IsNews(visit, steps, i)
  }

  function RecordedBy(step: Handled): Time {
    if IsZero(step.event.recordedAt) then step.now else step.event.recordedAt
  }

  /** After any events, a visit was recorded when the last event with news says or was
      handled; events that repeat what is known do not move that time. */
  lemma {:induction false} RecordedAtLastNews(visit: StopVisit, steps: seq<Handled>)
    ensures NoNews(visit, steps) ==> AfterEvents(visit, steps).recordedAt == visit.recordedAt
    ensures forall i: nat :: LastNews(visit, steps, i) ==>
              AfterEvents(visit, steps).recordedAt == RecordedBy(steps[i])
  {
    if steps != [] {
      RecordedAtLastNews(visit, steps[..|steps| - 1]);
      NewsIsNotIncluded(visit, steps);
      forall i: nat | LastNews(visit, steps, i)
        ensures AfterEvents(visit, steps).recordedAt == RecordedBy(steps[i])
      {
        LastNewsIsEarlier(visit, steps, i);
      }
      if NoNews(visit, steps) {
        NoNewsEarlier(visit, steps);
      }
    }
  }

  lemma LastNewsIsEarlier(visit: StopVisit, steps: seq<Handled>, i: nat)
    requires LastNews(visit, steps, i)
    ensures IsNews(visit, steps, |steps| - 1) ==> i == |steps| - 1
    ensures i < |steps| - 1 ==> LastNews(visit, steps[..|steps| - 1], i) && steps[..|steps| - 1][i] == steps[i]
    ensures i < |steps| - 1 ==> !IsNews(visit, steps, |steps| - 1)
  {
    if i < |steps| - 1 {
      EarlierNews(visit, steps, i);
      var before := steps[..|steps| - 1];
      forall j | i < j < |steps| - 1 ensures !IsNews(visit, before, j) {
        EarlierNews(visit, steps, j);
      }
    }
  }

  lemma NoNewsEarlier(visit: StopVisit, steps: seq<Handled>)
    requires NoNews(visit, steps) && steps != []
    ensures NoNews(visit, steps[..|steps| - 1]) && !IsNews(visit, steps, |steps| - 1)
  {
    var before := steps[..|steps| - 1];
    forall i: nat | i < |before| ensures !IsNews(visit, before, i) {
      EarlierNews(visit, steps, i);
    }
  }

  lemma EarlierNews(visit: StopVisit, steps: seq<Handled>, i: nat)
    requires i < |steps| - 1
    ensures IsNews(visit, steps, i) <==> IsNews(visit, steps[..|steps| - 1], i)
  {
    assert steps[..i] == steps[..|steps| - 1][..i];
  }

  lemma NewsIsNotIncluded(visit: StopVisit, steps: seq<Handled>)
    requires steps != []
    ensures var n := |steps| - 1;
            var event := steps[n].event;
            IsNews(visit, steps, n) <==>
            !IsZero(event.recordedAt) || !Includes(AfterEvents(visit, steps[..n]).schedules, event.schedules)
  {
    var n := |steps| - 1;
    forall kind {
      SchedulesAreLastTold(visit, steps[..n], kind);
    }
  }

  // ---------------------------------------------------------------- the handlers

  /** An identifier that the generator may give: no object has it or refers to it. */
  ghost predicate Unused(w: World, id: string) {
    && id != NO_ID && id !in w.areas && Unmentioned(w.areas, id)
    && id !in w.lines.entities && id !in w.journeys.entities && id !in w.visits.entities
  }

  /** StopVisitSchedules.Include (model/stop_visit_schedule.go:118-135). */
  method Include(schedules: Schedules, others: Schedules) returns (ok: bool)
    ensures ok <==> Includes(schedules, others)
  {
    var kinds := Enumerate(others.Keys);
    for i := 0 to |kinds|
      invariant forall j :: 0 <= j < i ==> kinds[j] in schedules && schedules[kinds[j]] == others[kinds[j]]
    {
      assert kinds[i] in others.Keys;
      if kinds[i] !in schedules || schedules[kinds[i]] != others[kinds[i]] {
        return false;
      }
    }
    forall kind | kind in others ensures kind in schedules && schedules[kind] == others[kind] {
      assert kind in others.Keys && kind in kinds;
    }
    return true;
  }

  /** StopVisitSchedules.Merge (model/stop_visit_schedule.go:103-116). */
  method Merge(schedules: Schedules, news: Schedules) returns (merged: Schedules)
    ensures merged == schedules + news
  {
    merged := schedules;
    var kinds := Enumerate(news.Keys);
    for i := 0 to |kinds|
      invariant merged == schedules + Restrict(news, Prefix(kinds, i))
    {
      assert kinds[i] in news.Keys;
      PrefixGrows(kinds, i);
      RestrictGrows(schedules, news, Prefix(kinds, i), kinds[i]);
      merged := merged[kinds[i] := news[kinds[i]]];
    }
    PrefixIsAll(kinds, news.Keys);
    RestrictAll(news);
  }

  class UpdateManager {
    const stopAreas: MemoryStopAreas
    const hash: Hash
    var lines: Collection<Line>
    var vehicleJourneys: Collection<VehicleJourney>
    var stopVisits: Collection<StopVisit>

    constructor (stopAreas: MemoryStopAreas, hash: Hash)
      ensures this.stopAreas == stopAreas && this.hash == hash
      ensures lines == Collection(map[], O.EMPTY) && vehicleJourneys == Collection(map[], O.EMPTY)
      ensures stopVisits == Collection(map[], O.EMPTY)
    {
      this.stopAreas := stopAreas;
      this.hash := hash;
      lines := Collection(map[], O.EMPTY);
      vehicleJourneys := Collection(map[], O.EMPTY);
      stopVisits := Collection(map[], O.EMPTY);
    }

    ghost predicate Valid()
      reads this, stopAreas, stopAreas.byObjectId
    {
      stopAreas.Valid() && NO_ID !in stopAreas.byIdentifier
    }

    ghost function Contents(): World
      reads this, stopAreas, stopAreas.byObjectId
    {
      World(stopAreas.byIdentifier, stopAreas.byObjectId.Contents(), lines, vehicleJourneys, stopVisits)
    }

    method UpdateStopArea(event: StopAreaUpdateEvent, now: Time, newId: string,
                          ghost rank: string -> nat) returns (ghost rank': string -> nat)
      requires Valid() && Ranked(stopAreas.byIdentifier, rank) && Unused(Contents(), newId)
      requires ParentAllowed(stopAreas.byIdentifier, rank, UpdatedArea(Contents(), event, now, newId))
      modifies stopAreas`byIdentifier, stopAreas.byObjectId
      ensures Valid()
      ensures var area := UpdatedArea(old(Contents()), event, now, newId);
              var areas := old(stopAreas.byIdentifier)[area.id := area];
              && Ranked(areas, rank') && Ranked(stopAreas.byIdentifier, rank')
              && stopAreas.byIdentifier == StatusSettled(areas, rank', area, event.origin, true)
      ensures StillOwned(old(stopAreas.byIdentifier), old(stopAreas.byObjectId.Contents()), stopAreas.byIdentifier,
                         stopAreas.byObjectId.Contents())
    {
      ghost var w := Contents();
      var area := SaveUpdatedArea(event, now, newId);
      rank' := AllowedParentIsRanked(w.areas, rank, area);
      SettleOrigin(area, event.origin, true, rank');
    }

    /** The status of the origin goes to the stop area and its ascendants if it is new. */
    method SettleOrigin(area: StopArea, origin: string, status: bool, ghost rank: string -> nat)
      requires Valid() && Ranked(stopAreas.byIdentifier, rank)
      modifies stopAreas`byIdentifier, stopAreas.byObjectId
      ensures Valid() && Ranked(stopAreas.byIdentifier, rank)
      ensures stopAreas.byIdentifier == StatusSettled(old(stopAreas.byIdentifier), rank, area, origin, status)
      ensures StillOwned(old(stopAreas.byIdentifier), old(stopAreas.byObjectId.Contents()), stopAreas.byIdentifier,
                         stopAreas.byObjectId.Contents())
    {
      if origin != "" {
        if !(origin in area.origins && area.origins[origin] == status) {
          var propagation := new StatusPropagation(stopAreas);
          propagation.UpdateStatus(area.id, origin, status, rank);
        }
      }
    }

    /** The transaction of UpdateStopArea. */
    method SaveUpdatedArea(event: StopAreaUpdateEvent, now: Time, newId: string) returns (area: StopArea)
      requires Valid() && Unused(Contents(), newId)
      modifies stopAreas`byIdentifier, stopAreas.byObjectId
      ensures Valid() && area == UpdatedArea(old(Contents()), event, now, newId)
      ensures stopAreas.byIdentifier == old(stopAreas.byIdentifier)[area.id := area]
      ensures StillOwned(old(stopAreas.byIdentifier), old(stopAreas.byObjectId.Contents()), stopAreas.byIdentifier,
                         stopAreas.byObjectId.Contents())
    {
      ghost var w := Contents();
      var tx := new TransactionalStopAreas(stopAreas);
      var stopArea := BuildArea(tx, event, now);
      tx.Save(stopArea, newId);
      area := if stopArea.id == NO_ID then stopArea.(id := newId) else stopArea;
      NewIdIsGiven(w, event, now, newId);
      OneAreaIsAdmitted(w, event, area);
      CommitArea(tx, area);
    }

    /** The area to save, without an identifier if it is new. */
    method BuildArea(tx: TransactionalStopAreas, event: StopAreaUpdateEvent, now: Time) returns (stopArea: StopArea)
      requires tx.model == stopAreas && tx.saved == map[]
      ensures stopArea == UpdatedArea(Contents(), event, now, NO_ID)
    {
      var found := tx.FindByObjectId(event.objectId);
      stopArea := if found.Some? then found.value else NewStopArea(NO_ID, event);
      if stopArea.parentId == NO_ID && event.parentObjectId.value != "" {
        var parent := tx.FindByObjectId(event.parentObjectId);
        stopArea := stopArea.(parentId := if parent.Some? then parent.value.id else NO_ID);
      }
      stopArea := stopArea.(collectedAt := now);
    }

    method CommitArea(tx: TransactionalStopAreas, area: StopArea)
      requires Valid() && tx.model == stopAreas && tx.Valid() && tx.deleted == map[] && area.id != NO_ID
      requires tx.saved == map[area.id := area]
      requires AdmittedWhereOwned(stopAreas.byIdentifier, stopAreas.byObjectId.Contents(), map[area.id := area])
      modifies stopAreas`byIdentifier, stopAreas.byObjectId
      ensures Valid() && stopAreas.byIdentifier == old(stopAreas.byIdentifier)[area.id := area]
      ensures StillOwned(old(stopAreas.byIdentifier), old(stopAreas.byObjectId.Contents()), stopAreas.byIdentifier,
                         stopAreas.byObjectId.Contents())
    {
      ghost var areas, index := stopAreas.byIdentifier, stopAreas.byObjectId.Contents();
      assert (areas - tx.deleted.Keys) + tx.saved == areas[area.id := area];
      tx.Commit();
      KeptIsStillOwned(areas, index, tx.saved, stopAreas.byIdentifier, stopAreas.byObjectId.Contents());
    }

    method UpdateLine(event: LineUpdateEvent, now: Time, newId: string)
      modifies this`lines
      ensures lines == LineHandled(old(lines), event, now, newId, hash)
    {
      var found := Found(lines, event.objectId);
      var line;
      if found.Some? {
        line := found.value;
      } else {
        line := Line(newId, map[event.objectId.kind := event.objectId.value], "", "", false, ZERO_TIME);
        line := line.(objectIds := line.objectIds[DEFAULT_KIND := hash(event.objectId.value)]);
        line := line.(collectGeneralMessages := true, name := event.name, origin := event.origin);
      }
      line := line.(collectedAt := now);
      lines := Saved(lines, line.id, line, line.objectIds);
    }

    method UpdateVehicleJourney(event: VehicleJourneyUpdateEvent, newId: string)
      modifies this`vehicleJourneys
      ensures vehicleJourneys == JourneyHandled(old(Contents()), event, newId, hash)
    {
      var found := Found(vehicleJourneys, event.objectId);
      var vj;
      if found.Some? {
        vj := found.value;
      } else {
        var line := Found(lines, event.lineObjectId);
        if line.None? {
          return;
        }
        vj := VehicleJourney(newId, map[event.objectId.kind := event.objectId.value], "", "", "", "", "", false,
                             map[], map[]);
        vj := vj.(objectIds := vj.objectIds[DEFAULT_KIND := hash(event.objectId.value)]);
        vj := vj.(origin := event.origin, lineId := line.value.id);
        if VEHICLE_JOURNEY_NAME in event.attributes {
          vj := vj.(name := event.attributes[VEHICLE_JOURNEY_NAME]);
        }
        vj := vj.(attributes := event.attributes, references := event.references);
      }
      vj := vj.(references := SetObjectId(vj.references, ORIGIN_REF, ObjectId(event.objectId.kind, event.originRef)));
      vj := vj.(originName := event.originName);
      vj := vj.(references :=
        SetObjectId(vj.references, DESTINATION_REF, ObjectId(event.objectId.kind, event.destinationRef)));
      vj := vj.(destinationName := event.destinationName);
      if event.direction != "" {
        vj := vj.(attributes := SetAttribute(vj.attributes, DIRECTION_NAME, event.direction));
      }
      vj := vj.(monitored := event.monitored);
      vehicleJourneys := Saved(vehicleJourneys, vj.id, vj, vj.objectIds);
    }

    method UpdateStopVisit(event: StopVisitUpdateEvent, now: Time, newId: string, ghost rank: string -> nat)
      requires Valid() && Ranked(stopAreas.byIdentifier, rank)
      modifies this`vehicleJourneys, this`stopVisits, stopAreas`byIdentifier, stopAreas.byObjectId
      ensures Valid() && Ranked(stopAreas.byIdentifier, rank)
      ensures !VisitIsPlaced(old(Contents()), event) ==> Contents() == old(Contents())
      ensures VisitIsPlaced(old(Contents()), event) ==>
                && vehicleJourneys == JourneyMonitored(old(Contents()), event)
                && stopVisits == VisitHandled(old(Contents()), event, now, newId, hash)
                && stopAreas.byIdentifier == AreasAfterVisit(old(Contents()), rank, event)
      ensures StillOwned(old(stopAreas.byIdentifier), old(stopAreas.byObjectId.Contents()), stopAreas.byIdentifier,
                         stopAreas.byObjectId.Contents())
    {
      var tx := new TransactionalStopAreas(stopAreas);
      var foundArea := tx.FindByObjectId(event.stopAreaObjectId);
      if foundArea.None? {
        return;
      }
      var sa := foundArea.value;
      var foundJourney := Found(vehicleJourneys, event.vehicleJourneyObjectId);
      if foundJourney.None? {
        return;
      }
      HandlePlaced(tx, event, sa, foundJourney.value, now, newId, rank);
    }

    /** The rest of UpdateStopVisit, once the stop area and the journey are found. */
    method HandlePlaced(tx: TransactionalStopAreas, event: StopVisitUpdateEvent, sa: StopArea, vj: VehicleJourney,
                        now: Time, newId: string, ghost rank: string -> nat)
      requires Valid() && Ranked(stopAreas.byIdentifier, rank)
      requires tx.model == stopAreas && tx.Valid() && tx.saved == map[] && tx.deleted == map[]
      requires AreaFound(stopAreas.byIdentifier, stopAreas.byObjectId.Contents(), event.stopAreaObjectId) == Some(sa)
      requires Found(vehicleJourneys, event.vehicleJourneyObjectId) == Some(vj)
      modifies this`vehicleJourneys, this`stopVisits, stopAreas`byIdentifier, stopAreas.byObjectId, tx`saved
      ensures Valid() && Ranked(stopAreas.byIdentifier, rank)
      ensures vehicleJourneys == JourneyMonitored(old(Contents()), event)
      ensures stopVisits == VisitHandled(old(Contents()), event, now, newId, hash)
      ensures stopAreas.byIdentifier == AreasAfterVisit(old(Contents()), rank, event)
      ensures StillOwned(old(stopAreas.byIdentifier), old(stopAreas.byObjectId.Contents()), stopAreas.byIdentifier,
                         stopAreas.byObjectId.Contents())
    {
      ghost var w := Contents();
      AddLine(tx, sa, vj);
      SaveVisit(event, sa.id, vj, now, newId);
      SettleOrigin(sa, event.origin, event.monitored, rank);
      ghost var settled, index := stopAreas.byIdentifier, stopAreas.byObjectId.Contents();
      VisitKeepsGraph(w, rank, event);
      CommitCopies(tx);
      StillOwnedTransitive(w.areas, w.areaIndex, settled, index, stopAreas.byIdentifier,
                           stopAreas.byObjectId.Contents());
    }

    /** The part of UpdateStopVisit about the visit and its journey. */
    method SaveVisit(event: StopVisitUpdateEvent, stopAreaId: string, vj: VehicleJourney, now: Time, newId: string)
      modifies this`vehicleJourneys, this`stopVisits
      ensures vehicleJourneys == MonitoredSet(old(vehicleJourneys), vj, event.monitored)
      ensures var visit := UpdatedVisit(VisitOrNew(old(stopVisits), event, newId, stopAreaId, vj.id, hash), event, now);
              stopVisits == Saved(old(stopVisits), visit.id, visit, visit.objectIds)
    {
      var found := Found(stopVisits, event.objectId);
      var sv := if found.Some? then found.value else NewStopVisit(newId, event, stopAreaId, vj.id, hash);
      sv := MergeEvent(sv, event, now);
      if event.monitored != vj.monitored {
        vehicleJourneys := Saved(vehicleJourneys, vj.id, vj.(monitored := event.monitored), vj.objectIds);
      }
      stopVisits := Saved(stopVisits, sv.id, sv, sv.objectIds);
    }

    /** The part of UpdateStopVisit about the lines of the stop area. */
    method AddLine(tx: TransactionalStopAreas, sa: StopArea, vj: VehicleJourney)
      requires tx.Valid() && tx.saved == map[] && sa.id != NO_ID
      requires NO_ID !in tx.model.byIdentifier
      modifies tx`saved
      ensures tx.Valid() && tx.saved == CopiesWithLine(tx.model.byIdentifier, lines, sa, vj)
    {
      if vj.lineId in lines.entities {
        var referent := tx.Find(sa.referentId);
        assert tx.model.byIdentifier + map[] == tx.model.byIdentifier;
        if referent.Some? {
          LineKeepsIdentity(referent.value, vj.lineId);
          tx.Save(WithLine(referent.value, vj.lineId), sa.referentId);
          assert tx.saved == map[sa.referentId := WithLine(referent.value, vj.lineId)];
        }
        LineKeepsIdentity(sa, vj.lineId);
        tx.Save(WithLine(sa, vj.lineId), sa.id);
      }
    }

    /** The part of UpdateStopVisit about the visit itself. */
    method MergeEvent(visit: StopVisit, event: StopVisitUpdateEvent, now: Time) returns (sv: StopVisit)
      ensures sv == UpdatedVisit(visit, event, now)
    {
      sv := visit;
      if !IsZero(event.recordedAt) {
        sv := sv.(recordedAt := event.recordedAt);
      } else {
        var included := Include(sv.schedules, event.schedules);
        if !included {
          sv := sv.(recordedAt := now);
        }
      }
      var merged := Merge(sv.schedules, event.schedules);
      sv := sv.(schedules := merged);
      sv := sv.(departureStatus := event.departureStatus);
      sv := sv.(arrivalStatus := event.arrivalStatus);
      sv := sv.(vehicleAtStop := event.vehicleAtStop);
      sv := sv.(collected := true, collectedAt := now);
    }

    /** The commit of the copies over the settled status. */
    method CommitCopies(tx: TransactionalStopAreas)
      requires Valid() && tx.model == stopAreas && tx.Valid() && tx.deleted == map[]
      requires Versions(stopAreas.byIdentifier, tx.saved)
      modifies stopAreas`byIdentifier, stopAreas.byObjectId
      ensures Valid() && stopAreas.byIdentifier == old(stopAreas.byIdentifier) + tx.saved
      ensures StillOwned(old(stopAreas.byIdentifier), old(stopAreas.byObjectId.Contents()), stopAreas.byIdentifier,
                         stopAreas.byObjectId.Contents())
    {
      ghost var settled, index := stopAreas.byIdentifier, stopAreas.byObjectId.Contents();
      VersionsAreAdmitted(settled, tx.saved);
      assert settled - tx.deleted.Keys == settled;
      tx.Commit();
      KeptIsStillOwned(settled, index, tx.saved, stopAreas.byIdentifier, stopAreas.byObjectId.Contents());
    }

    method UpdateNotCollected(o: ObjectId)
      modifies this`stopVisits
      ensures stopVisits == CancellationHandled(old(stopVisits), o)
    {
      var found := Found(stopVisits, o);
      if found.None? {
        return;
      }
      var sv := NotCollected(found.value);
      stopVisits := Saved(stopVisits, sv.id, sv, sv.objectIds);
    }
  }

  // ---------------------------------------------------------------- what the commits keep

  ghost predicate AdmittedWhereOwned(areas: Areas, index: O.Table, saved: Areas) {
    forall kind :: O.Owned(index, IdsOf(areas), kind) ==> CommitAdmits(areas, saved, kind)
  }

  lemma KeptIsStillOwned(areas: Areas, index: O.Table, saved: Areas, areas': Areas, index': O.Table)
    requires IndexKept(areas, index, saved, areas', index') && AdmittedWhereOwned(areas, index, saved)
    ensures StillOwned(areas, index, areas', index')
  {
  }

  lemma NewIdIsGiven(w: World, event: StopAreaUpdateEvent, now: Time, newId: string)
    requires SA.KeyedById(w.areas) && NO_ID !in w.areas
    ensures var area := UpdatedArea(w, event, now, NO_ID);
            UpdatedArea(w, event, now, newId) == if area.id == NO_ID then area.(id := newId) else area
  {
  }

  /** The identifier of a new area is free, and a known area keeps its own. */
  lemma OneAreaIsAdmitted(w: World, event: StopAreaUpdateEvent, area: StopArea)
    requires SA.KeyedById(w.areas)
    requires match AreaFound(w.areas, w.areaIndex, event.objectId)
             case Some(a) => area.id == a.id && area.objectIds == a.objectIds
             case None => area.id !in w.areas && area.objectIds == map[event.objectId.kind := event.objectId.value]
    ensures AdmittedWhereOwned(w.areas, w.areaIndex, map[area.id := area])
  {
    forall kind | O.Owned(w.areaIndex, IdsOf(w.areas), kind)
        ensures SaveAdmits(w.areas, map[area.id := area], area.id, kind) {
      if area.id !in w.areas {
        NewAreaIsAdmitted(w, event, area, kind);
      }
    }
  }

  lemma NewAreaIsAdmitted(w: World, event: StopAreaUpdateEvent, area: StopArea, kind: string)
    requires O.Owned(w.areaIndex, IdsOf(w.areas), kind) && AreaFound(w.areas, w.areaIndex, event.objectId).None?
    requires area.id !in w.areas && area.objectIds == map[event.objectId.kind := event.objectId.value]
    ensures SaveAdmits(w.areas, map[area.id := area], area.id, kind)
  {
    forall o: ObjectId, other | o.kind == kind && O.Has(area.objectIds, o)
        && O.Holds(IdsOf(w.areas + map[area.id := area]), other, o)
      ensures other == area.id
    {
      assert o == event.objectId;
      assert O.Holds(IdsOf(w.areas), other, o) ==> O.Lookup(w.areaIndex, o) == Some(other) && other in w.areas;
    }
  }

  /** Same identifiers, same edges. */
  predicate SameIdentity(a: StopArea, b: StopArea) {
    a.id == b.id && a.objectIds == b.objectIds && a.parentId == b.parentId && a.referentId == b.referentId
  }

  /** The saved areas are versions of the stored ones. */
  ghost predicate Versions(areas: Areas, saved: Areas) {
    forall id :: id in saved ==> id in areas && SameIdentity(areas[id], saved[id])
  }

  lemma VersionsAreAdmitted(areas: Areas, saved: Areas)
    requires Versions(areas, saved)
    ensures forall kind :: CommitAdmits(areas, saved, kind)
    ensures SameGraph(areas, areas + saved)
  {
    forall kind, id | id in saved ensures SaveAdmits(areas, saved, id, kind) {
      assert SameIdentity(areas[id], saved[id]);
    }
  }

  lemma SettledAreVersions(areas: Areas, rank: string -> nat, area: StopArea, origin: string, status: bool)
    requires Ranked(areas, rank)
    ensures Versions(areas, StatusSettled(areas, rank, area, origin, status))
    ensures StatusSettled(areas, rank, area, origin, status).Keys == areas.Keys
  {
  }

  lemma CopiesAreVersions(areas: Areas, lines: Collection<Line>, area: StopArea, journey: VehicleJourney)
    requires SA.KeyedById(areas) && area.id in areas && areas[area.id] == area
    ensures Versions(areas, CopiesWithLine(areas, lines, area, journey))
  {
    var copies := CopiesWithLine(areas, lines, area, journey);
    forall id | id in copies ensures id in areas && copies[id] == WithLine(areas[id], journey.lineId) {
    }
    forall id | id in copies ensures SameIdentity(areas[id], copies[id]) {
      LineKeepsIdentity(areas[id], journey.lineId);
    }
  }

  lemma LineKeepsIdentity(area: StopArea, lineId: string)
    ensures SameIdentity(area, WithLine(area, lineId))
  {
  }

  lemma StillOwnedTransitive(a: Areas, i: O.Table, b: Areas, j: O.Table, c: Areas, k: O.Table)
    requires StillOwned(a, i, b, j) && StillOwned(b, j, c, k)
    ensures StillOwned(a, i, c, k)
  {
  }

  lemma VersionsOfVersions(areas: Areas, settled: Areas, copies: Areas)
    requires Versions(areas, settled) && settled.Keys == areas.Keys && Versions(areas, copies)
    ensures Versions(settled, copies) && Versions(areas, settled + copies) && (settled + copies).Keys == areas.Keys
  {
    forall id | id in copies ensures id in settled && SameIdentity(settled[id], copies[id]) {
      assert id in areas.Keys;
      assert SameIdentity(areas[id], settled[id]) && SameIdentity(areas[id], copies[id]);
    }
  }

  lemma VisitKeepsGraph(w: World, rank: string -> nat, event: StopVisitUpdateEvent)
    requires Ranked(w.areas, rank) && SA.KeyedById(w.areas) && VisitIsPlaced(w, event)
    ensures var settled := StatusSettled(w.areas, rank, AreaFound(w.areas, w.areaIndex, event.stopAreaObjectId).value,
                                         event.origin, event.monitored);
            Versions(settled, AreasWithLine(w, event))
    ensures Versions(w.areas, AreasAfterVisit(w, rank, event)) && AreasAfterVisit(w, rank, event).Keys == w.areas.Keys
    ensures Ranked(AreasAfterVisit(w, rank, event), rank)
  {
    var area := AreaFound(w.areas, w.areaIndex, event.stopAreaObjectId).value;
    var settled := StatusSettled(w.areas, rank, area, event.origin, event.monitored);
    SettledAreVersions(w.areas, rank, area, event.origin, event.monitored);
    CopiesAreVersions(w.areas, w.lines, area, Found(w.journeys, event.vehicleJourneyObjectId).value);
    VersionsOfVersions(w.areas, settled, AreasWithLine(w, event));
    SameGraphSameRank(w.areas, AreasAfterVisit(w, rank, event), rank);
  }
}
