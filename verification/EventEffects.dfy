/** What one update event leaves in the stored lines, journeys and stop areas, and what the
    events of a delivery are made from, field by field (model/update_manager.go,
    core/stop_monitoring_update_event_builder.go). */
module EventEffects {
  import opened Common
  import opened StopVisit
  import opened StopArea
  import opened MemoryStopAreas
  import opened Network
  import opened UpdateEventBuilder
  import opened UpdateManager
  import opened Ingestion
  import O = ObjectIdIndex
  import SA = StopArea

  function LineAt(w: World, kind: string, ref: string): Option<Line> {
    Found(w.lines, ObjectId(kind, ref))
  }

  function JourneyAt(w: World, kind: string, ref: string): Option<VehicleJourney> {
    Found(w.journeys, ObjectId(kind, ref))
  }

  // ---------------------------------------------------------------- lines

  /** A known line is collected again; a new one has the name and origin of the event and its
      identifier, also as a hash. */
  predicate LineTold(before: Option<Line>, event: LineUpdateEvent, now: Time, newId: string, hash: Hash, after: Line) {
    && after.collectedAt == now
    && match before
       case Some(line) =>
         && after.id == line.id && after.objectIds == line.objectIds && after.name == line.name
         && after.origin == line.origin && after.collectGeneralMessages == line.collectGeneralMessages
       case None =>
         && after.id == newId && after.name == event.name && after.origin == event.origin
         && after.collectGeneralMessages
         && after.objectIds == map[event.objectId.kind := event.objectId.value,
                                   "_default" := hash(event.objectId.value)]
  }

  lemma LineEventStores(w: World, event: LineUpdateEvent, now: Time, newId: string, hash: Hash, kind: string)
    requires Sound(w, kind) && event.objectId.kind == kind && kind != DEFAULT_KIND && Unused(w, newId)
    ensures var w' := w.(lines := LineHandled(w.lines, event, now, newId, hash));
            forall ref ::
              if ref == event.objectId.value
              then LineAt(w', kind, ref).Some?
                   && LineTold(LineAt(w, kind, ref), event, now, newId, hash, LineAt(w', kind, ref).value)
              else LineAt(w', kind, ref) == LineAt(w, kind, ref)
  {
    var w' := w.(lines := LineHandled(w.lines, event, now, newId, hash));
    var line := UpdatedLine(w.lines, event, now, newId, hash);
    NewLineIsAdmitted(w.lines, event, now, newId, hash, kind);
    forall ref
      ensures ref == event.objectId.value ==> LineAt(w', kind, ref) == Some(line)
      ensures ref != event.objectId.value ==> LineAt(w', kind, ref) == LineAt(w, kind, ref)
    {
      O.LookupIndexed(w.lines.index, line.id, line.objectIds, ObjectId(kind, ref));
      if ref != event.objectId.value {
        OtherStays(w.lines, LineIds(w.lines.entities), line.id, line, line.objectIds, event.objectId,
                   ObjectId(kind, ref));
      }
    }
  }

  /** Saving an object with its own identifier of the kind leaves what others lead to. */
  lemma OtherStays<T>(store: Collection<T>, ids: map<string, ObjectIds>, id: string, entity: T, own: ObjectIds,
                      o: ObjectId, other: ObjectId)
    requires O.Owned(store.index, ids, o.kind) && O.Admits(ids, id, own, o.kind)
    requires ids.Keys == store.entities.Keys && O.Has(own, o) && other.kind == o.kind && other != o
    ensures Found(Saved(store, id, entity, own), other) == Found(store, other)
  {
    O.LookupIndexed(store.index, id, own, other);
    O.RemembersHas(store.index, id, other);
    assert !O.Has(own, other);
    assert O.Remembers(store.index, id, other) ==> O.Holds(ids, id, other);
    assert O.Lookup(store.index, other) == Some(id) <==> O.Holds(ids, id, other);
  }

  // ---------------------------------------------------------------- journeys

  function ReferenceIn(references: References, name: string): Option<ObjectId> {
    if name in references then Some(references[name]) else None
  }

  function AttributeIn(attributes: Attributes, name: string): string {
    if name in attributes then attributes[name] else ""
  }

  /** A reference that is told takes the place of the one there was. */
  ghost predicate ReferencesTold(before: References, event: VehicleJourneyUpdateEvent, after: References) {
    forall name :: ReferenceIn(after, name) ==
      if name == "OriginRef" && event.objectId.kind != "" && event.originRef != ""
      then Some(ObjectId(event.objectId.kind, event.originRef))
      else if name == "DestinationRef" && event.objectId.kind != "" && event.destinationRef != ""
      then Some(ObjectId(event.objectId.kind, event.destinationRef))
      else ReferenceIn(before, name)
  }

  ghost predicate AttributesTold(before: Attributes, event: VehicleJourneyUpdateEvent, after: Attributes) {
    forall name :: AttributeIn(after, name) ==
      if name == "DirectionName" && event.direction != "" then event.direction else AttributeIn(before, name)
  }

  /** A journey has the names and the flag of the event; a new one also its attributes and
      references, and the line that the event tells. */
  ghost predicate JourneyTold(w: World, before: Option<VehicleJourney>, event: VehicleJourneyUpdateEvent, newId: string,
                              after: VehicleJourney) {
    && after.originName == event.originName && after.destinationName == event.destinationName
    && after.monitored == event.monitored
    && match before
       case Some(j) =>
         && after.id == j.id && after.objectIds == j.objectIds && after.lineId == j.lineId
         && after.name == j.name && after.origin == j.origin
         && ReferencesTold(j.references, event, after.references)
         && AttributesTold(j.attributes, event, after.attributes)
       case None =>
         && after.id == newId && Found(w.lines, event.lineObjectId).Some?
         && after.lineId == Found(w.lines, event.lineObjectId).value.id
         && after.name == AttributeIn(event.attributes, "VehicleJourneyName") && after.origin == event.origin
         && ReferencesTold(event.references, event, after.references)
         && AttributesTold(event.attributes, event, after.attributes)
  }

  lemma ToldJourneyTells(j: VehicleJourney, event: VehicleJourneyUpdateEvent)
    ensures ReferencesTold(j.references, event, ToldJourney(j, event).references)
    ensures AttributesTold(j.attributes, event, ToldJourney(j, event).attributes)
  {
  }

  lemma UpdatedJourneyTells(w: World, event: VehicleJourneyUpdateEvent, newId: string, hash: Hash)
    requires UpdatedJourney(w, event, newId, hash).Some?
    ensures JourneyTold(w, Found(w.journeys, event.objectId), event, newId, UpdatedJourney(w, event, newId, hash).value)
  {
    match Found(w.journeys, event.objectId)
    case Some(j) => ToldJourneyTells(j, event);
    case None =>
      ToldJourneyTells(NewVehicleJourney(newId, event, Found(w.lines, event.lineObjectId).value.id, hash), event);
  }

  lemma JourneyEventStores(w: World, event: VehicleJourneyUpdateEvent, newId: string, hash: Hash, kind: string)
    requires Sound(w, kind) && event.objectId.kind == kind && kind != DEFAULT_KIND && Unused(w, newId)
    requires LineKnown(w, event.lineObjectId)
    ensures var w' := w.(journeys := JourneyHandled(w, event, newId, hash));
            forall ref ::
              if ref == event.objectId.value
              then JourneyAt(w', kind, ref).Some?
                   && JourneyTold(w, JourneyAt(w, kind, ref), event, newId, JourneyAt(w', kind, ref).value)
              else JourneyAt(w', kind, ref) == JourneyAt(w, kind, ref)
  {
    var w' := w.(journeys := JourneyHandled(w, event, newId, hash));
    NewJourneyIsAdmitted(w, event, newId, hash, kind);
    var journey := UpdatedJourney(w, event, newId, hash).value;
    UpdatedJourneyTells(w, event, newId, hash);
    forall ref
      ensures ref == event.objectId.value ==> JourneyAt(w', kind, ref) == Some(journey)
      ensures ref != event.objectId.value ==> JourneyAt(w', kind, ref) == JourneyAt(w, kind, ref)
    {
      O.LookupIndexed(w.journeys.index, journey.id, journey.objectIds, ObjectId(kind, ref));
      if ref != event.objectId.value {
        OtherStays(w.journeys, JourneyIds(w.journeys.entities), journey.id, journey, journey.objectIds,
                   event.objectId, ObjectId(kind, ref));
      }
    }
  }

  /** An event without a known line, for an unknown journey, is ignored. */
  lemma JourneyWithoutLineIsIgnored(w: World, event: VehicleJourneyUpdateEvent, newId: string, hash: Hash)
    requires Found(w.journeys, event.objectId).None? && Found(w.lines, event.lineObjectId).None?
    ensures JourneyHandled(w, event, newId, hash) == w.journeys
  {
  }

  /** A visit event sets the flag of its journey, and changes nothing else about journeys. */
  lemma VisitEventFlags(w: World, event: StopVisitUpdateEvent, kind: string)
    requires Sound(w, kind) && VisitIsPlaced(w, event) && event.vehicleJourneyObjectId.kind == kind
    ensures var w' := w.(journeys := JourneyMonitored(w, event));
            forall ref ::
              JourneyAt(w', kind, ref) ==
              if ref == event.vehicleJourneyObjectId.value
              then Some(JourneyAt(w, kind, ref).value.(monitored := event.monitored))
              else JourneyAt(w, kind, ref)
  {
    var w' := w.(journeys := JourneyMonitored(w, event));
    var o := event.vehicleJourneyObjectId;
    var j := Found(w.journeys, o).value;
    assert O.Holds(JourneyIds(w.journeys.entities), j.id, o);
    assert O.Admits(JourneyIds(w.journeys.entities), j.id, j.objectIds, kind);
    forall ref
      ensures JourneyAt(w', kind, ref) ==
              if ref == o.value then Some(JourneyAt(w, kind, ref).value.(monitored := event.monitored))
              else JourneyAt(w, kind, ref)
    {
      O.LookupIndexed(w.journeys.index, j.id, j.objectIds, ObjectId(kind, ref));
      if ref != o.value {
        OtherStays(w.journeys, JourneyIds(w.journeys.entities), j.id, j.(monitored := event.monitored), j.objectIds,
                   o, ObjectId(kind, ref));
      }
    }
  }

  // ---------------------------------------------------------------- stop areas

  /** The area has the status of the origin, and is monitored if no origin is lost. */
  ghost predicate HasStatus(before: StopArea, after: StopArea, origin: string, status: bool) {
    && after.origins == before.origins[origin := status]
    && (after.monitored <==> forall p :: p in after.origins ==> after.origins[p])
    && after.(origins := before.origins, monitored := before.monitored) == before
  }

  /** The statuses after one area has a new status of the origin, or had it already. */
  ghost predicate StatusSpread(areas: Areas, rank: string -> nat, area: StopArea, origin: string, status: bool,
                               after: Areas)
    requires Ranked(areas, rank)
  {
    && after.Keys == areas.Keys
    && forall id :: id in areas ==>
         if origin != "" && (origin in area.origins ==> area.origins[origin] != status)
            && id in AscendantIds(areas, rank, area.id)
         then HasStatus(areas[id], after[id], origin, status)
         else after[id] == areas[id]
  }

  lemma SettledIsSpread(areas: Areas, rank: string -> nat, area: StopArea, origin: string, status: bool)
    requires Ranked(areas, rank)
    ensures StatusSpread(areas, rank, area, origin, status, StatusSettled(areas, rank, area, origin, status))
  {
    var after := StatusSettled(areas, rank, area, origin, status);
    if NeedsStatus(area, origin, status) {
      forall id | id in areas && id in AscendantIds(areas, rank, area.id)
        ensures HasStatus(areas[id], after[id], origin, status)
      {
        assert after[id] == WithPartnerStatus(areas[id], origin, status);
      }
    }
  }

  /** A known area keeps what it has, but gets the parent it lacks; a new one has the name and
      the identifier of the event. Its parent is the known area that the event tells. */
  predicate AreaTold(w: World, event: StopAreaUpdateEvent, now: Time, newId: string, after: StopArea) {
    var before := AreaFound(w.areas, w.areaIndex, event.objectId);
    var parent := AreaFound(w.areas, w.areaIndex, event.parentObjectId);
    && after.collectedAt == now
    && (match before
        case Some(area) => after.(parentId := area.parentId, collectedAt := area.collectedAt) == area
        case None =>
          && after.id == newId && after.name == event.name && after.collectedAlways == event.collectedAlways
          && after.collectGeneralMessages && after.referentId == "" && !after.monitored
          && after.origins == map[] && after.lineIds == []
          && after.objectIds == map[event.objectId.kind := event.objectId.value])
    && after.parentId ==
       if before.Some? && before.value.parentId != "" then before.value.parentId
       else if event.parentObjectId.value != "" && parent.Some? then parent.value.id
       else ""
  }

  /** A stop area event stores the area, and spreads the status of its origin, which is up. */
  lemma AreaEventStores(w: World, event: StopAreaUpdateEvent, now: Time, newId: string, rank: string -> nat)
    requires Ranked(w.areas[UpdatedArea(w, event, now, newId).id := UpdatedArea(w, event, now, newId)], rank)
    ensures var area := UpdatedArea(w, event, now, newId);
            var areas := w.areas[area.id := area];
            && AreaTold(w, event, now, newId, area)
            && StatusSpread(areas, rank, area, event.origin, true,
                            StatusSettled(areas, rank, area, event.origin, true))
  {
    var area := UpdatedArea(w, event, now, newId);
    SettledIsSpread(w.areas[area.id := area], rank, area, event.origin, true);
  }

  /** The area lists the line too. */
  predicate ListsLine(before: StopArea, after: StopArea, lineId: string) {
    && after.lineIds == (if lineId in before.lineIds then before.lineIds else before.lineIds + [lineId])
    && after.(lineIds := before.lineIds) == before
  }

  /** A visit event spreads the status that it tells; but if the line of the journey is known,
      its stop area and the referent list the line, with the statuses they had before. */
  lemma VisitEventOnAreas(w: World, rank: string -> nat, event: StopVisitUpdateEvent, id: string)
    requires Ranked(w.areas, rank) && SA.KeyedById(w.areas) && VisitIsPlaced(w, event) && id in w.areas
    ensures var area := AreaFound(w.areas, w.areaIndex, event.stopAreaObjectId).value;
            var lineId := Found(w.journeys, event.vehicleJourneyObjectId).value.lineId;
            var after := AreasAfterVisit(w, rank, event);
            && after.Keys == w.areas.Keys
            && (if lineId in w.lines.entities && id in [area.id, area.referentId]
                then ListsLine(w.areas[id], after[id], lineId)
                else if event.origin != "" && (event.origin in area.origins ==>
                                               area.origins[event.origin] != event.monitored)
                        && id in AscendantIds(w.areas, rank, area.id)
                then HasStatus(w.areas[id], after[id], event.origin, event.monitored)
                else after[id] == w.areas[id])
  {
    var area := AreaFound(w.areas, w.areaIndex, event.stopAreaObjectId).value;
    var journey := Found(w.journeys, event.vehicleJourneyObjectId).value;
    var spread := StatusSettled(w.areas, rank, area, event.origin, event.monitored);
    SettledIsSpread(w.areas, rank, area, event.origin, event.monitored);
    CopiesListLine(w.areas, w.lines, area, journey, spread, id);
  }

  lemma CopiesListLine(areas: Areas, lines: Collection<Line>, area: StopArea, journey: VehicleJourney, spread: Areas,
                       id: string)
    requires area.id in areas && areas[area.id] == area && id in areas && spread.Keys == areas.Keys
    ensures var after := spread + CopiesWithLine(areas, lines, area, journey);
            && after.Keys == areas.Keys
            && (if journey.lineId in lines.entities && id in [area.id, area.referentId]
                then ListsLine(areas[id], after[id], journey.lineId) else after[id] == spread[id])
  {
    var copies := CopiesWithLine(areas, lines, area, journey);
    assert id in copies <==> journey.lineId in lines.entities && id in [area.id, area.referentId];
    assert id in copies ==> copies[id] == WithLine(areas[id], journey.lineId);
  }

  // ---------------------------------------------------------------- what the events of a delivery tell

  ghost predicate AreaEventTells(c: Context, v: XMLMonitoredStopVisit, event: StopAreaUpdateEvent) {
    && event.origin == c.slug && event.objectId == ObjectId(c.kind, v.stopPointRef)
    && event.name == v.stopPointName && !event.collectedAlways
    && event.parentObjectId ==
       if c.originStopArea.value != ""
          && c.kind + ":" + v.stopPointRef != c.originStopArea.kind + ":" + c.originStopArea.value
       then c.originStopArea else ObjectId("", "")
  }

  ghost predicate LineEventTells(c: Context, v: XMLMonitoredStopVisit, event: LineUpdateEvent) {
    event.origin == c.slug && event.objectId == ObjectId(c.kind, v.lineRef) && event.name == v.publishedLineName
  }

  ghost predicate JourneyEventTells(c: Context, v: XMLMonitoredStopVisit, event: VehicleJourneyUpdateEvent) {
    && event.origin == c.slug && event.objectId == ObjectId(c.kind, v.datedVehicleJourneyRef)
    && event.lineObjectId == ObjectId(c.kind, v.lineRef)
    && event.originRef == v.originRef && event.originName == v.originName
    && event.destinationRef == v.destinationRef && event.destinationName == v.destinationName
    && event.direction == "" && event.monitored == v.monitored
    && (forall name :: AttributeIn(event.attributes, name) == TextOf(v, name))
    && (forall name :: ReferenceIn(event.references, name) ==
          if c.kind != "" && RefOf(v, name) != "" then Some(ObjectId(c.kind, RefOf(v, name))) else None)
  }

  /** The text of the visit under that name. */
  function TextOf(v: XMLMonitoredStopVisit, name: string): string {
    if name == "VehicleJourneyName" && v.vehicleJourneyName != "" then v.vehicleJourneyName
    else if name == "OriginName" && v.originName != "" then v.originName
    else if name == "DestinationName" && v.destinationName != "" then v.destinationName
    else if name in v.journeyTexts then v.journeyTexts[name] else ""
  }

  function RefOf(v: XMLMonitoredStopVisit, name: string): string {
    if name == "PlaceRef" then v.placeRef
    else if name == "JourneyPatternRef" then v.journeyPatternRef
    else if name == "RouteRef" then v.routeRef
    else if name == "DestinationRef" then v.destinationRef
    else if name == "OriginRef" then v.originRef else ""
  }

  lemma JourneyEventIsMade(c: Context, v: XMLMonitoredStopVisit)
    ensures JourneyEventTells(c, v, VehicleJourneyEvent(c, v))
  {
    forall name ensures AttributeIn(JourneyAttributes(v), name) == TextOf(v, name) {
    }
    forall name
      ensures ReferenceIn(JourneyReferences(c.kind, v), name) ==
              if c.kind != "" && RefOf(v, name) != "" then Some(ObjectId(c.kind, RefOf(v, name))) else None
    {
    }
  }

  /** The first visit of the delivery that has the reference in that field. */
  ghost predicate FirstRead(visits: seq<XMLMonitoredStopVisit>, field: Field, ref: string, i: int) {
    && 0 <= i < |visits| && field.Reads(visits[i], ref)
    && forall j :: 0 <= j < i ==> !field.Reads(visits[j], ref)
  }

  lemma {:induction false} FirstReadIsFirst(visits: seq<XMLMonitoredStopVisit>, field: Field, ref: string, i: int)
    requires FirstRead(visits, field, ref, i)
    ensures FirstWith(visits, field, ref) == Some(visits[i])
  {
    if i > 0 {
      assert !field.Reads(visits[0], ref);
      forall j | 0 <= j < i - 1 ensures !field.Reads(visits[1..][j], ref) {
        assert visits[1..][j] == visits[j + 1];
      }
      FirstReadIsFirst(visits[1..], field, ref, i - 1);
    }
  }

  /** The events of a delivery tell what the first visit with their reference tells. */
  lemma EventsTellFirstVisit(c: Context, visits: seq<XMLMonitoredStopVisit>, i: nat)
    requires i < |visits|
    ensures var events, v := WithVisits(c, NO_EVENTS, visits), visits[i];
            && (FirstRead(visits, StopPoint, v.stopPointRef, i) ==>
                  v.stopPointRef in events.stopAreas && AreaEventTells(c, v, events.stopAreas[v.stopPointRef]))
            && (FirstRead(visits, LineField, v.lineRef, i) ==>
                  v.lineRef in events.lines && LineEventTells(c, v, events.lines[v.lineRef]))
            && (FirstRead(visits, Journey, v.datedVehicleJourneyRef, i) ==>
                  v.datedVehicleJourneyRef in events.vehicleJourneys
                  && JourneyEventTells(c, v, events.vehicleJourneys[v.datedVehicleJourneyRef]))
  {
    var v := visits[i];
    FirstVisitCounts(c, visits, v.stopPointRef, "");
    FirstVisitCounts(c, visits, v.lineRef, "");
    FirstVisitCounts(c, visits, v.datedVehicleJourneyRef, "");
    if FirstRead(visits, StopPoint, v.stopPointRef, i) {
      FirstReadIsFirst(visits, StopPoint, v.stopPointRef, i);
    }
    if FirstRead(visits, LineField, v.lineRef, i) {
      FirstReadIsFirst(visits, LineField, v.lineRef, i);
    }
    if FirstRead(visits, Journey, v.datedVehicleJourneyRef, i) {
      FirstReadIsFirst(visits, Journey, v.datedVehicleJourneyRef, i);
    }
    JourneyEventIsMade(c, v);
  }
}
