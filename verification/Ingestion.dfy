/** What the handling of update events keeps: references between stored objects stay intact,
    identifiers stay resolvable, and the graph of stop areas stays without cycles. */
module Ingestion {
  import opened Common
  import opened StopVisit
  import opened StopArea
  import opened MemoryStopAreas
  import opened ParentAssignment
  import opened Network
  import opened UpdateEventBuilder
  import opened UpdateManager
  import O = ObjectIdIndex
  import SA = StopArea

  ghost function LineIds(lines: map<string, Line>): map<string, ObjectIds> {
    map id | id in lines :: lines[id].objectIds
  }

  ghost function JourneyIds(journeys: map<string, VehicleJourney>): map<string, ObjectIds> {
    map id | id in journeys :: journeys[id].objectIds
  }

  ghost function VisitIds(visits: map<string, StopVisit>): map<string, ObjectIds> {
    map id | id in visits :: visits[id].objectIds
  }

  // ---------------------------------------------------------------- the invariant

  ghost predicate AreasSound(areas: Areas, index: O.Table, kind: string) {
    SA.KeyedById(areas) && NO_ID !in areas && O.Owned(index, IdsOf(areas), kind)
  }

  ghost predicate LinesSound(lines: Collection<Line>, kind: string) {
    && (forall id :: id in lines.entities ==> lines.entities[id].id == id)
    && O.Owned(lines.index, LineIds(lines.entities), kind)
  }

  ghost predicate JourneysSound(journeys: Collection<VehicleJourney>, kind: string) {
    && (forall id :: id in journeys.entities ==> journeys.entities[id].id == id)
    && O.Owned(journeys.index, JourneyIds(journeys.entities), kind)
  }

  ghost predicate VisitsSound(visits: Collection<StopVisit>, kind: string) {
    && (forall id :: id in visits.entities ==> visits.entities[id].id == id)
    && O.Owned(visits.index, VisitIds(visits.entities), kind)
  }

  /** The line of every journey, and the stop area and journey of every visit, are stored. */
  ghost predicate Linked(w: World) {
    && (forall id :: id in w.journeys.entities ==> w.journeys.entities[id].lineId in w.lines.entities)
    && (forall id :: id in w.visits.entities ==> VisitLinked(w, w.visits.entities[id]))
  }

  predicate VisitLinked(w: World, visit: StopVisit) {
    visit.stopAreaId in w.areas && visit.vehicleJourneyId in w.journeys.entities
  }

  ghost predicate Sound(w: World, kind: string) {
    && AreasSound(w.areas, w.areaIndex, kind) && LinesSound(w.lines, kind)
    && JourneysSound(w.journeys, kind) && VisitsSound(w.visits, kind) && Linked(w)
  }

  predicate AreaKnown(w: World, o: ObjectId) { AreaFound(w.areas, w.areaIndex, o).Some? }
  predicate LineKnown(w: World, o: ObjectId) { Found(w.lines, o).Some? }
  predicate JourneyKnown(w: World, o: ObjectId) { Found(w.journeys, o).Some? }
  predicate VisitKnown(w: World, o: ObjectId) { Found(w.visits, o).Some? }

  /** Stored objects stay, with their identifiers and the objects they refer to. */
  ghost predicate Persists(w: World, w': World) {
    && (forall id :: id in w.areas ==> id in w'.areas && w'.areas[id].objectIds == w.areas[id].objectIds)
    && (forall id :: id in w.lines.entities ==>
        id in w'.lines.entities && w'.lines.entities[id].objectIds == w.lines.entities[id].objectIds)
    && (forall id :: id in w.journeys.entities ==>
        id in w'.journeys.entities && SameJourney(w.journeys.entities[id], w'.journeys.entities[id]))
    && (forall id :: id in w.visits.entities ==>
        id in w'.visits.entities && SameVisit(w.visits.entities[id], w'.visits.entities[id]))
  }

  predicate SameJourney(a: VehicleJourney, b: VehicleJourney) {
    a.objectIds == b.objectIds && a.lineId == b.lineId
  }

  predicate SameVisit(a: StopVisit, b: StopVisit) {
    a.objectIds == b.objectIds && a.stopAreaId == b.stopAreaId && a.vehicleJourneyId == b.vehicleJourneyId
  }

  /** No object has been created. */
  ghost predicate SameEntities(w: World, w': World) {
    && w'.areas.Keys == w.areas.Keys && w'.lines.entities.Keys == w.lines.entities.Keys
    && w'.journeys.entities.Keys == w.journeys.entities.Keys && w'.visits.entities.Keys == w.visits.entities.Keys
  }

  /** Every identifier that the generator may still give is as unused as before, except the one given. */
  ghost predicate OnlyUses(w: World, w': World, newId: string) {
    forall id :: Unused(w, id) && id != newId ==> Unused(w', id)
  }

  lemma PersistsTransitive(a: World, b: World, c: World)
    requires Persists(a, b) && Persists(b, c)
    ensures Persists(a, c)
  {
    forall id | id in a.journeys.entities
        ensures id in c.journeys.entities && SameJourney(a.journeys.entities[id], c.journeys.entities[id]) {
      assert SameJourney(b.journeys.entities[id], c.journeys.entities[id]);
    }
    forall id | id in a.visits.entities
        ensures id in c.visits.entities && SameVisit(a.visits.entities[id], c.visits.entities[id]) {
      assert SameVisit(b.visits.entities[id], c.visits.entities[id]);
    }
  }

  // ---------------------------------------------------------------- lookups persist

  lemma AreaStaysKnown(w: World, w': World, kind: string, o: ObjectId)
    requires AreasSound(w.areas, w.areaIndex, kind) && AreasSound(w'.areas, w'.areaIndex, kind) && Persists(w, w')
    requires o.kind == kind
    ensures AreaKnown(w, o) ==> AreaKnown(w', o)
    ensures AreaKnown(w, o) ==>
              AreaFound(w'.areas, w'.areaIndex, o).value.id == AreaFound(w.areas, w.areaIndex, o).value.id
  {
    if AreaKnown(w, o) {
      var id := O.Lookup(w.areaIndex, o).value;
      assert O.Holds(IdsOf(w.areas), id, o);
      assert O.Holds(IdsOf(w'.areas), id, o);
    }
  }

  lemma LineStaysKnown(w: World, w': World, kind: string, o: ObjectId)
    requires LinesSound(w.lines, kind) && LinesSound(w'.lines, kind) && Persists(w, w') && o.kind == kind
    ensures LineKnown(w, o) ==> LineKnown(w', o)
  {
    if LineKnown(w, o) {
      var id := O.Lookup(w.lines.index, o).value;
      assert O.Holds(LineIds(w.lines.entities), id, o);
      assert O.Holds(LineIds(w'.lines.entities), id, o);
    }
  }

  lemma JourneyStaysKnown(w: World, w': World, kind: string, o: ObjectId)
    requires JourneysSound(w.journeys, kind) && JourneysSound(w'.journeys, kind) && Persists(w, w') && o.kind == kind
    ensures JourneyKnown(w, o) ==> JourneyKnown(w', o)
    ensures JourneyKnown(w, o) ==> Found(w'.journeys, o).value.id == Found(w.journeys, o).value.id
  {
    if JourneyKnown(w, o) {
      var id := O.Lookup(w.journeys.index, o).value;
      assert O.Holds(JourneyIds(w.journeys.entities), id, o);
      assert SameJourney(w.journeys.entities[id], w'.journeys.entities[id]);
      assert O.Holds(JourneyIds(w'.journeys.entities), id, o);
    }
  }

  lemma VisitStaysKnown(w: World, w': World, kind: string, o: ObjectId)
    requires VisitsSound(w.visits, kind) && VisitsSound(w'.visits, kind) && Persists(w, w') && o.kind == kind
    ensures VisitKnown(w, o) ==> VisitKnown(w', o)
  {
    if VisitKnown(w, o) {
      var id := O.Lookup(w.visits.index, o).value;
      assert O.Holds(VisitIds(w.visits.entities), id, o);
      assert SameVisit(w.visits.entities[id], w'.visits.entities[id]);
      assert O.Holds(VisitIds(w'.visits.entities), id, o);
    }
  }

  /** An identifier that is not found is free. */
  lemma UnknownIsFree(index: O.Table, current: map<string, ObjectIds>, kind: string, o: ObjectId)
    requires O.Owned(index, current, kind) && o.kind == kind
    ensures O.Lookup(index, o).None? ==> !O.Taken(current, o)
    ensures O.Lookup(index, o).Some? ==> O.Holds(current, O.Lookup(index, o).value, o)
  {
    if O.Taken(current, o) {
      var m :| m in current && O.Has(current[m], o);
      assert O.Holds(current, m, o);
    }
  }

  /** A new object gets the identifier of its event, unless the hash overwrites it. */
  lemma NewIdsHave(o: ObjectId, hash: Hash)
    requires o.kind != DEFAULT_KIND
    ensures forall other: ObjectId :: other.kind == o.kind ==> (O.Has(NewIds(o, hash), other) <==> other == o)
  {
  }

  // ---------------------------------------------------------------- lines

  lemma LineIsFiled(lines: Collection<Line>, line: Line, kind: string)
    requires LinesSound(lines, kind) && O.Admits(LineIds(lines.entities), line.id, line.objectIds, kind)
    ensures LinesSound(Saved(lines, line.id, line, line.objectIds), kind)
  {
    assert LineIds(lines.entities[line.id := line]) == LineIds(lines.entities)[line.id := line.objectIds];
    O.OwnedOnceIndexed(lines.index, LineIds(lines.entities), line.id, line.objectIds, kind);
  }

  /** More lines, and other versions of the areas, leave the references as they are. */
  lemma StaysLinked(w: World, w': World)
    requires Linked(w) && w'.journeys == w.journeys && w'.visits == w.visits
    requires forall id :: id in w.lines.entities ==> id in w'.lines.entities
    requires forall id :: id in w.areas ==> id in w'.areas
    ensures Linked(w')
  {
    forall id | id in w'.visits.entities ensures VisitLinked(w', w'.visits.entities[id]) {
      assert VisitLinked(w, w.visits.entities[id]);
    }
  }

  lemma LineIsLocal(w: World, line: Line)
    requires line.id in w.lines.entities ==> w.lines.entities[line.id].objectIds == line.objectIds
    ensures var w' := w.(lines := Saved(w.lines, line.id, line, line.objectIds));
            Persists(w, w') && OnlyUses(w, w', line.id)
  {
  }

  lemma LineSaveIsSound(w: World, line: Line, kind: string)
    requires Sound(w, kind) && O.Admits(LineIds(w.lines.entities), line.id, line.objectIds, kind)
    requires line.id in w.lines.entities ==> w.lines.entities[line.id].objectIds == line.objectIds
    ensures var w' := w.(lines := Saved(w.lines, line.id, line, line.objectIds));
            Sound(w', kind) && Persists(w, w') && OnlyUses(w, w', line.id)
  {
    var w' := w.(lines := Saved(w.lines, line.id, line, line.objectIds));
    LineIsFiled(w.lines, line, kind);
    StaysLinked(w, w');
    LineIsLocal(w, line);
  }

  lemma NewLineIsAdmitted(lines: Collection<Line>, event: LineUpdateEvent, now: Time, newId: string, hash: Hash,
                          kind: string)
    requires LinesSound(lines, kind) && event.objectId.kind == kind && kind != DEFAULT_KIND && newId !in lines.entities
    ensures var line := UpdatedLine(lines, event, now, newId, hash);
            && O.Admits(LineIds(lines.entities), line.id, line.objectIds, kind)
            && (line.id in lines.entities ==> lines.entities[line.id].objectIds == line.objectIds)
            && (line.id in lines.entities || line.id == newId)
                && (Found(lines, event.objectId).Some? ==> line.id in lines.entities)
            && O.Has(line.objectIds, event.objectId)
  {
    UnknownIsFree(lines.index, LineIds(lines.entities), kind, event.objectId);
    NewIdsHave(event.objectId, hash);
  }

  lemma LineStepIsSound(w: World, event: LineUpdateEvent, now: Time, newId: string, hash: Hash, kind: string)
    requires Sound(w, kind) && event.objectId.kind == kind && kind != DEFAULT_KIND && Unused(w, newId)
    ensures var w' := w.(lines := LineHandled(w.lines, event, now, newId, hash));
            && Sound(w', kind) && Persists(w, w') && LineKnown(w', event.objectId) && OnlyUses(w, w', newId)
            && (LineKnown(w, event.objectId) ==> SameEntities(w, w'))
  {
    var line := UpdatedLine(w.lines, event, now, newId, hash);
    NewLineIsAdmitted(w.lines, event, now, newId, hash, kind);
    LineSaveIsSound(w, line, kind);
    O.LookupIndexed(w.lines.index, line.id, line.objectIds, event.objectId);
  }

  // ---------------------------------------------------------------- journeys

  lemma JourneyIsFiled(journeys: Collection<VehicleJourney>, journey: VehicleJourney, kind: string)
    requires JourneysSound(journeys, kind)
    requires O.Admits(JourneyIds(journeys.entities), journey.id, journey.objectIds, kind)
    ensures JourneysSound(Saved(journeys, journey.id, journey, journey.objectIds), kind)
  {
    assert JourneyIds(journeys.entities[journey.id := journey]) ==
        JourneyIds(journeys.entities)[journey.id := journey.objectIds];
    O.OwnedOnceIndexed(journeys.index, JourneyIds(journeys.entities), journey.id, journey.objectIds, kind);
  }

  lemma JourneyStaysLinked(w: World, journey: VehicleJourney)
    requires Linked(w) && journey.lineId in w.lines.entities
    ensures Linked(w.(journeys := Saved(w.journeys, journey.id, journey, journey.objectIds)))
  {
    var w' := w.(journeys := Saved(w.journeys, journey.id, journey, journey.objectIds));
    forall id | id in w'.visits.entities ensures VisitLinked(w', w'.visits.entities[id]) {
      assert VisitLinked(w, w.visits.entities[id]);
    }
  }

  lemma JourneyIsLocal(w: World, journey: VehicleJourney)
    requires journey.id in w.journeys.entities ==> SameJourney(w.journeys.entities[journey.id], journey)
    ensures var w' := w.(journeys := Saved(w.journeys, journey.id, journey, journey.objectIds));
            Persists(w, w') && OnlyUses(w, w', journey.id)
  {
  }

  lemma JourneySaveIsSound(w: World, journey: VehicleJourney, kind: string)
    requires Sound(w, kind) && journey.lineId in w.lines.entities
    requires O.Admits(JourneyIds(w.journeys.entities), journey.id, journey.objectIds, kind)
    requires journey.id in w.journeys.entities ==> SameJourney(w.journeys.entities[journey.id], journey)
    ensures var w' := w.(journeys := Saved(w.journeys, journey.id, journey, journey.objectIds));
            Sound(w', kind) && Persists(w, w') && OnlyUses(w, w', journey.id)
  {
    var w' := w.(journeys := Saved(w.journeys, journey.id, journey, journey.objectIds));
    JourneyIsFiled(w.journeys, journey, kind);
    JourneyStaysLinked(w, journey);
    JourneyIsLocal(w, journey);
  }

  lemma NewJourneyIsAdmitted(w: World, event: VehicleJourneyUpdateEvent, newId: string, hash: Hash, kind: string)
    requires Sound(w, kind) && event.objectId.kind == kind && kind != DEFAULT_KIND && newId !in w.journeys.entities
    requires LineKnown(w, event.lineObjectId)
    ensures UpdatedJourney(w, event, newId, hash).Some?
    ensures var journey := UpdatedJourney(w, event, newId, hash).value;
            && O.Admits(JourneyIds(w.journeys.entities), journey.id, journey.objectIds, kind)
            && journey.lineId in w.lines.entities
            && (journey.id in w.journeys.entities ==> SameJourney(w.journeys.entities[journey.id], journey))
            && (journey.id in w.journeys.entities || journey.id == newId)
            && (JourneyKnown(w, event.objectId) ==> journey.id in w.journeys.entities)
            && O.Has(journey.objectIds, event.objectId)
  {
    UnknownIsFree(w.journeys.index, JourneyIds(w.journeys.entities), kind, event.objectId);
    NewIdsHave(event.objectId, hash);
  }

  lemma JourneyStepIsSound(w: World, event: VehicleJourneyUpdateEvent, newId: string, hash: Hash, kind: string)
    requires Sound(w, kind) && event.objectId.kind == kind && kind != DEFAULT_KIND && Unused(w, newId)
    requires LineKnown(w, event.lineObjectId)
    ensures var w' := w.(journeys := JourneyHandled(w, event, newId, hash));
            && Sound(w', kind) && Persists(w, w') && JourneyKnown(w', event.objectId) && OnlyUses(w, w', newId)
            && (JourneyKnown(w, event.objectId) ==> SameEntities(w, w'))
  {
    NewJourneyIsAdmitted(w, event, newId, hash, kind);
    var journey := UpdatedJourney(w, event, newId, hash).value;
    assert JourneyHandled(w, event, newId, hash) == Saved(w.journeys, journey.id, journey, journey.objectIds);
    JourneySaveIsSound(w, journey, kind);
    SavedJourneyIsKnown(w, journey, event.objectId);
  }

  lemma SavedJourneyIsKnown(w: World, journey: VehicleJourney, o: ObjectId)
    requires O.Has(journey.objectIds, o)
    ensures var w' := w.(journeys := Saved(w.journeys, journey.id, journey, journey.objectIds));
            JourneyKnown(w', o) && (journey.id in w.journeys.entities ==> SameEntities(w, w'))
  {
    O.LookupIndexed(w.journeys.index, journey.id, journey.objectIds, o);
  }

  // ---------------------------------------------------------------- visits

  lemma VisitIsFiled(visits: Collection<StopVisit>, visit: StopVisit, kind: string)
    requires VisitsSound(visits, kind) && O.Admits(VisitIds(visits.entities), visit.id, visit.objectIds, kind)
    ensures VisitsSound(Saved(visits, visit.id, visit, visit.objectIds), kind)
  {
    assert VisitIds(visits.entities[visit.id := visit]) == VisitIds(visits.entities)[visit.id := visit.objectIds];
    O.OwnedOnceIndexed(visits.index, VisitIds(visits.entities), visit.id, visit.objectIds, kind);
  }

  lemma VisitStaysLinked(w: World, visit: StopVisit)
    requires Linked(w) && VisitLinked(w, visit)
    ensures Linked(w.(visits := Saved(w.visits, visit.id, visit, visit.objectIds)))
  {
    var w' := w.(visits := Saved(w.visits, visit.id, visit, visit.objectIds));
    forall id | id in w'.visits.entities ensures VisitLinked(w', w'.visits.entities[id]) {
      assert id in w.visits.entities ==> VisitLinked(w, w.visits.entities[id]);
    }
  }

  lemma VisitIsLocal(w: World, visit: StopVisit)
    requires visit.id in w.visits.entities ==> SameVisit(w.visits.entities[visit.id], visit)
    ensures var w' := w.(visits := Saved(w.visits, visit.id, visit, visit.objectIds));
            Persists(w, w') && OnlyUses(w, w', visit.id)
  {
  }

  lemma VisitSaveIsSound(w: World, visit: StopVisit, kind: string)
    requires Sound(w, kind) && VisitLinked(w, visit)
    requires O.Admits(VisitIds(w.visits.entities), visit.id, visit.objectIds, kind)
    requires visit.id in w.visits.entities ==> SameVisit(w.visits.entities[visit.id], visit)
    ensures var w' := w.(visits := Saved(w.visits, visit.id, visit, visit.objectIds));
            Sound(w', kind) && Persists(w, w') && OnlyUses(w, w', visit.id)
  {
    var w' := w.(visits := Saved(w.visits, visit.id, visit, visit.objectIds));
    VisitIsFiled(w.visits, visit, kind);
    VisitStaysLinked(w, visit);
    VisitIsLocal(w, visit);
  }

  ghost function RecordedVisit(w: World, event: StopVisitUpdateEvent, now: Time, newId: string, hash: Hash): StopVisit
    requires VisitIsPlaced(w, event)
  {
    var area := AreaFound(w.areas, w.areaIndex, event.stopAreaObjectId).value;
    var journey := Found(w.journeys, event.vehicleJourneyObjectId).value;
    UpdatedVisit(VisitOrNew(w.visits, event, newId, area.id, journey.id, hash), event, now)
  }

  lemma NewVisitIsAdmitted(w: World, event: StopVisitUpdateEvent, now: Time, newId: string, hash: Hash, kind: string)
    requires Sound(w, kind) && event.objectId.kind == kind && kind != DEFAULT_KIND && newId !in w.visits.entities
    requires VisitIsPlaced(w, event)
    ensures var visit := RecordedVisit(w, event, now, newId, hash);
            && O.Admits(VisitIds(w.visits.entities), visit.id, visit.objectIds, kind)
            && VisitLinked(w, visit)
            && (visit.id in w.visits.entities ==> SameVisit(w.visits.entities[visit.id], visit))
            && (visit.id in w.visits.entities || visit.id == newId)
            && (VisitKnown(w, event.objectId) ==> visit.id in w.visits.entities)
            && O.Has(visit.objectIds, event.objectId)
  {
    UnknownIsFree(w.visits.index, VisitIds(w.visits.entities), kind, event.objectId);
    NewIdsHave(event.objectId, hash);
    if VisitKnown(w, event.objectId) {
      assert VisitLinked(w, Found(w.visits, event.objectId).value);
    }
  }

  lemma VisitRecordIsSound(w: World, event: StopVisitUpdateEvent, now: Time, newId: string, hash: Hash, kind: string)
    requires Sound(w, kind) && event.objectId.kind == kind && kind != DEFAULT_KIND && Unused(w, newId)
    requires VisitIsPlaced(w, event)
    ensures var w' := w.(visits := VisitHandled(w, event, now, newId, hash));
            && Sound(w', kind) && Persists(w, w') && VisitKnown(w', event.objectId) && OnlyUses(w, w', newId)
            && (VisitKnown(w, event.objectId) ==> SameEntities(w, w'))
  {
    NewVisitIsAdmitted(w, event, now, newId, hash, kind);
    var visit := RecordedVisit(w, event, now, newId, hash);
    assert VisitHandled(w, event, now, newId, hash) == Saved(w.visits, visit.id, visit, visit.objectIds);
    VisitSaveIsSound(w, visit, kind);
    SavedVisitIsKnown(w, visit, event.objectId);
  }

  lemma SavedVisitIsKnown(w: World, visit: StopVisit, o: ObjectId)
    requires O.Has(visit.objectIds, o)
    ensures var w' := w.(visits := Saved(w.visits, visit.id, visit, visit.objectIds));
            VisitKnown(w', o) && (visit.id in w.visits.entities ==> SameEntities(w, w'))
  {
    O.LookupIndexed(w.visits.index, visit.id, visit.objectIds, o);
  }

  lemma CancellationIsSound(w: World, o: ObjectId, kind: string)
    requires Sound(w, kind) && o.kind == kind
    ensures var w' := w.(visits := CancellationHandled(w.visits, o));
            Sound(w', kind) && Persists(w, w') && SameEntities(w, w') && OnlyUses(w, w', NO_ID)
  {
    if VisitKnown(w, o) {
      StoredVisitIsSound(w, Found(w.visits, o).value, kind);
    } else {
      assert w.(visits := CancellationHandled(w.visits, o)) == w;
    }
  }

  lemma StoredVisitIsSound(w: World, visit: StopVisit, kind: string)
    requires Sound(w, kind) && visit.id in w.visits.entities && w.visits.entities[visit.id] == visit
    ensures var w' := w.(visits := Saved(w.visits, visit.id, NotCollected(visit), visit.objectIds));
            Sound(w', kind) && Persists(w, w') && SameEntities(w, w') && OnlyUses(w, w', NO_ID)
  {
    assert VisitLinked(w, visit) && SameVisit(visit, NotCollected(visit));
    assert O.Admits(VisitIds(w.visits.entities), visit.id, visit.objectIds, kind);
    VisitSaveIsSound(w, NotCollected(visit), kind);
  }

  /** Setting the Monitored flag of a journey. */
  lemma MonitoredIsSound(w: World, event: StopVisitUpdateEvent, kind: string)
    requires Sound(w, kind) && VisitIsPlaced(w, event)
    ensures var w' := w.(journeys := JourneyMonitored(w, event));
            Sound(w', kind) && Persists(w, w') && SameEntities(w, w') && OnlyUses(w, w', NO_ID)
  {
    var journey := Found(w.journeys, event.vehicleJourneyObjectId).value;
    if event.monitored != journey.monitored {
      JourneySaveIsSound(w, journey.(monitored := event.monitored), kind);
    } else {
      assert w.(journeys := JourneyMonitored(w, event)) == w;
    }
  }

  // ---------------------------------------------------------------- stop areas

  /** Other versions of the stop areas, with an index that still owns the kind. */
  lemma VersionsAreSound(w: World, areas: Areas, index: O.Table, kind: string)
    requires Sound(w, kind) && Versions(w.areas, areas) && areas.Keys == w.areas.Keys
    requires StillOwned(w.areas, w.areaIndex, areas, index)
    ensures var w' := w.(areas := areas, areaIndex := index);
            Sound(w', kind) && Persists(w, w') && SameEntities(w, w') && OnlyUses(w, w', NO_ID)
  {
    var w' := w.(areas := areas, areaIndex := index);
    forall id | id in w.areas ensures id in areas && SameIdentity(w.areas[id], areas[id]) {
      assert id in areas.Keys;
    }
    forall id | id in w.visits.entities ensures VisitLinked(w', w.visits.entities[id]) {
      assert VisitLinked(w, w.visits.entities[id]);
    }
    forall id | Unused(w, id) ensures Unused(w', id) {
      assert id !in areas.Keys;
      forall x | x in areas ensures areas[x].parentId != id && areas[x].referentId != id {
        assert x in w.areas.Keys && SameIdentity(w.areas[x], areas[x]);
      }
    }
  }

  lemma VisitStepIsSound(w: World, rank: string -> nat, event: StopVisitUpdateEvent, now: Time, newId: string,
                         hash: Hash,
                         index: O.Table, kind: string)
    requires Sound(w, kind) && event.objectId.kind == kind && kind != DEFAULT_KIND && Unused(w, newId)
    requires Ranked(w.areas, rank) && VisitIsPlaced(w, event)
    requires StillOwned(w.areas, w.areaIndex, AreasAfterVisit(w, rank, event), index)
    ensures var w' := World(AreasAfterVisit(w, rank, event), index, w.lines, JourneyMonitored(w, event),
                            VisitHandled(w, event, now, newId, hash));
            && Sound(w', kind) && Persists(w, w') && VisitKnown(w', event.objectId) && OnlyUses(w, w', newId)
            && (VisitKnown(w, event.objectId) ==> SameEntities(w, w'))
  {
    var w1 := w.(visits := VisitHandled(w, event, now, newId, hash));
    VisitRecordIsSound(w, event, now, newId, hash, kind);
    var w2 := w1.(journeys := JourneyMonitored(w1, event));
    MonitoredIsSound(w1, event, kind);
    PersistsTransitive(w, w1, w2);
    VisitKeepsGraph(w, rank, event);
    var w3 := w2.(areas := AreasAfterVisit(w, rank, event), areaIndex := index);
    VersionsAreSound(w2, AreasAfterVisit(w, rank, event), index, kind);
    PersistsTransitive(w, w2, w3);
    assert w3 == World(AreasAfterVisit(w, rank, event), index, w.lines, JourneyMonitored(w, event),
                       VisitHandled(w, event, now, newId, hash));
    forall id | Unused(w, id) && id != newId ensures Unused(w3, id) {
      assert Unused(w1, id) && Unused(w2, id);
    }
  }

  /** The area that is saved for the event: the known one, with its identifiers and referent,
      or a new one. */
  ghost predicate Fits(w: World, event: StopAreaUpdateEvent, area: StopArea, newId: string) {
    && (if AreaKnown(w, event.objectId)
        then area.id in w.areas && area.id == AreaFound(w.areas, w.areaIndex, event.objectId).value.id
             && area.objectIds == w.areas[area.id].objectIds && area.referentId == w.areas[area.id].referentId
        else area.id == newId && area.referentId == NO_ID
             && area.objectIds == map[event.objectId.kind := event.objectId.value])
    && (KeepsParent(w.areas, area) || (area.id !in w.areas && area.parentId == NO_ID)
        || (AreaKnown(w, event.parentObjectId)
            && area.parentId == AreaFound(w.areas, w.areaIndex, event.parentObjectId).value.id
            && event.parentObjectId.value != "" && (area.id in w.areas ==> w.areas[area.id].parentId == NO_ID)))
    && (event.parentObjectId.value != "" && AreaKnown(w, event.parentObjectId) ==> area.parentId != NO_ID)
  }

  predicate KeepsParent(areas: Areas, area: StopArea) {
    area.id in areas && area.parentId == areas[area.id].parentId
  }

  lemma UpdatedAreaFits(w: World, event: StopAreaUpdateEvent, now: Time, newId: string)
    requires SA.KeyedById(w.areas) && NO_ID !in w.areas && newId !in w.areas
    ensures Fits(w, event, UpdatedArea(w, event, now, newId), newId)
  {
  }

  /** `area` is saved, and statuses may change. */
  ghost predicate Replaced(w: World, area: StopArea, w': World) {
    && w' == w.(areas := w'.areas, areaIndex := w'.areaIndex)
    && w'.areas.Keys == w.areas.Keys + {area.id}
    && forall id :: id in w'.areas ==> ReplacedAt(w.areas, area, w'.areas, id)
  }

  ghost predicate ReplacedAt(areas: Areas, area: StopArea, areas': Areas, id: string)
    requires id in areas'
  {
    if id == area.id then SameIdentity(area, areas'[id]) else id in areas && SameIdentity(areas[id], areas'[id])
  }

  lemma SettledIsReplaced(w: World, area: StopArea, rank': string -> nat, origin: string, w': World)
    requires Ranked(w.areas[area.id := area], rank')
    requires w' == w.(areas := StatusSettled(w.areas[area.id := area], rank', area, origin, true),
                      areaIndex := w'.areaIndex)
    ensures Replaced(w, area, w')
  {
    var areas := w.areas[area.id := area];
    SettledAreVersions(areas, rank', area, origin, true);
    assert areas.Keys == w.areas.Keys + {area.id};
    forall id | id in w'.areas ensures ReplacedAt(w.areas, area, w'.areas, id) {
      assert id in areas.Keys && SameIdentity(areas[id], w'.areas[id]);
    }
  }

  lemma ReplacedKeys(w: World, area: StopArea, w': World, id: string)
    requires Replaced(w, area, w')
    ensures id in w'.areas <==> id in w.areas || id == area.id
    ensures id in w'.areas ==> ReplacedAt(w.areas, area, w'.areas, id)
  {
    assert id in w'.areas.Keys <==> id in w.areas.Keys + {area.id};
  }

  lemma ReplacedIsLocal(w: World, event: StopAreaUpdateEvent, area: StopArea, newId: string, w': World)
    requires SA.KeyedById(w.areas) && NO_ID !in w.areas && Unused(w, newId) && Fits(w, event, area, newId)
    requires Replaced(w, area, w')
    ensures Persists(w, w') && SA.KeyedById(w'.areas) && NO_ID !in w'.areas
    ensures AreaKnown(w, event.objectId) ==> SameEntities(w, w')
  {
    forall id | id in w.areas ensures id in w'.areas && w'.areas[id].objectIds == w.areas[id].objectIds {
      ReplacedKeys(w, area, w', id);
    }
    forall id | id in w'.areas ensures w'.areas[id].id == id && id != NO_ID {
      ReplacedKeys(w, area, w', id);
    }
    if AreaKnown(w, event.objectId) {
      assert w.areas.Keys + {area.id} == w.areas.Keys;
    }
  }

  lemma ReplacedOnlyUses(w: World, event: StopAreaUpdateEvent, area: StopArea, newId: string, w': World)
    requires SA.KeyedById(w.areas) && Unused(w, newId) && Fits(w, event, area, newId) && Replaced(w, area, w')
    ensures OnlyUses(w, w', newId)
  {
    forall id | Unused(w, id) && id != newId ensures Unused(w', id) {
      ReplacedKeys(w, area, w', id);
      forall x | x in w'.areas ensures w'.areas[x].parentId != id && w'.areas[x].referentId != id {
        ReplacedKeys(w, area, w', x);
      }
    }
  }

  lemma AreaStepIsSound(w: World, event: StopAreaUpdateEvent, area: StopArea, newId: string, w': World, kind: string)
    requires Sound(w, kind) && event.objectId.kind == kind && Unused(w, newId)
    requires Fits(w, event, area, newId) && Replaced(w, area, w')
    requires StillOwned(w.areas, w.areaIndex, w'.areas, w'.areaIndex)
    ensures Sound(w', kind) && Persists(w, w') && AreaKnown(w', event.objectId) && OnlyUses(w, w', newId)
    ensures AreaKnown(w, event.objectId) ==> SameEntities(w, w')
  {
    ReplacedIsLocal(w, event, area, newId, w');
    ReplacedOnlyUses(w, event, area, newId, w');
    StaysLinked(w, w');
    UnknownIsFree(w.areaIndex, IdsOf(w.areas), kind, event.objectId);
    ReplacedKeys(w, area, w', area.id);
    assert O.Has(area.objectIds, event.objectId);
    assert O.Holds(IdsOf(w'.areas), area.id, event.objectId);
  }

  // ---------------------------------------------------------------- the parents that a batch assigns

  /** The stop area that was asked for, if it is known. */
  function Origin(w: World, c: Context): Option<StopArea> {
    if c.originStopArea.value == "" then None else AreaFound(w.areas, w.areaIndex, c.originStopArea)
  }

  /** The area that the reference means, if it would get the origin as its parent. */
  function ToAttach(w: World, c: Context, ref: string): Option<StopArea> {
    var o := ObjectId(c.kind, ref);
    match AreaFound(w.areas, w.areaIndex, o)
    case Some(area) => if o.Key() != c.originStopArea.Key() && area.parentId == NO_ID then Some(area) else None
    case None => None
  }

  /** No area that is about to get the origin as its parent is above the origin. */
  ghost predicate Attachable(w: World, rank: string -> nat, c: Context, refs: set<string>)
    requires Ranked(w.areas, rank)
  {
    forall ref :: ref in refs ==> RefAttachable(w, rank, c, ref)
  }

  ghost predicate RefAttachable(w: World, rank: string -> nat, c: Context, ref: string)
    requires Ranked(w.areas, rank)
  {
    Origin(w, c).Some? && ToAttach(w, c, ref).Some? ==>
      ToAttach(w, c, ref).value.id !in AscendantIds(w.areas, rank, Origin(w, c).value.id)
  }

  /** The event is the one the builder makes for the reference. */
  predicate MadeFor(c: Context, event: StopAreaUpdateEvent, ref: string) {
    event.objectId == ObjectId(c.kind, ref) && event.parentObjectId == ParentOf(c, event.objectId)
  }

  lemma AttachableIsAllowed(w: World, rank: string -> nat, c: Context, ref: string, event: StopAreaUpdateEvent,
                            area: StopArea, newId: string)
    requires SA.KeyedById(w.areas) && NO_ID !in w.areas && Unused(w, newId) && Ranked(w.areas, rank)
    requires RefAttachable(w, rank, c, ref) && MadeFor(c, event, ref) && Fits(w, event, area, newId)
    ensures ParentAllowed(w.areas, rank, area)
  {
    StartsWalk(w.areas, rank, NO_ID);
  }

  lemma ReplacedIsSameGraph(w: World, area: StopArea, w': World)
    requires Replaced(w, area, w')
    ensures SameGraph(w.areas[area.id := area], w'.areas)
  {
    var areas := w.areas[area.id := area];
    assert areas.Keys == w'.areas.Keys;
    forall id | id in areas ensures areas[id].parentId == w'.areas[id].parentId
        && areas[id].referentId == w'.areas[id].referentId {
      ReplacedKeys(w, area, w', id);
    }
  }

  /** An area that is new, or gets its parent, is not above the origin. */
  lemma NotAboveOrigin(w: World, rank: string -> nat, c: Context, ref: string, event: StopAreaUpdateEvent,
                       area: StopArea, newId: string)
    requires SA.KeyedById(w.areas) && NO_ID !in w.areas && Unused(w, newId) && Ranked(w.areas, rank)
    requires RefAttachable(w, rank, c, ref) && MadeFor(c, event, ref) && Fits(w, event, area, newId)
    requires Origin(w, c).Some? && !KeepsParent(w.areas, area)
    ensures area.id != Origin(w, c).value.id && area.id !in AscendantIds(w.areas, rank, Origin(w, c).value.id)
    ensures area.id in w.areas || Unmentioned(w.areas, area.id)
  {
    var p := Origin(w, c).value.id;
    StartsWalk(w.areas, rank, p);
    if area.id in w.areas {
      assert ToAttach(w, c, ref).Some?;
    } else if area.id in AscendantIds(w.areas, rank, p) {
      AscendantsAreClosed(w.areas, rank, p, area.id);
      assert false;
    }
  }

  /** The walk above the origin is the same after the event. */
  lemma OriginWalkStays(w: World, rank: string -> nat, c: Context, ref: string, event: StopAreaUpdateEvent,
                        area: StopArea, newId: string,
                        w': World, rank': string -> nat)
    requires SA.KeyedById(w.areas) && NO_ID !in w.areas && Unused(w, newId) && Ranked(w.areas, rank)
    requires RefAttachable(w, rank, c, ref) && MadeFor(c, event, ref) && Fits(w, event, area, newId)
    requires Origin(w, c).Some?
    requires Replaced(w, area, w') && SA.KeyedById(w'.areas) && Ranked(w'.areas, rank')
    ensures AscendantIds(w'.areas, rank', Origin(w, c).value.id) == AscendantIds(w.areas, rank, Origin(w, c).value.id)
  {
    var areas, p := w.areas[area.id := area], Origin(w, c).value.id;
    ReplacedIsSameGraph(w, area, w');
    SameGraphSameRank(w'.areas, areas, rank');
    SameGraphSameWalk(areas, w'.areas, rank', p);
    if KeepsParent(w.areas, area) {
      assert SameGraph(areas, w.areas);
      SameGraphSameRank(areas, w.areas, rank');
      SameGraphSameWalk(areas, w.areas, rank', p);
      AscendantsIgnoreRank(w.areas, rank, rank', p);
    } else {
      NotAboveOrigin(w, rank, c, ref, event, area, newId);
      WalkAvoids(w.areas, rank, area, rank', p);
    }
  }

  /** A lookup of a kind that is owned. */
  lemma FoundHolds(areas: Areas, index: O.Table, kind: string, o: ObjectId, id: string)
    requires AreasSound(areas, index, kind) && o.kind == kind
    ensures O.Holds(IdsOf(areas), id, o) <==>
            AreaFound(areas, index, o).Some? && AreaFound(areas, index, o).value.id == id
  {
    assert O.Lookup(index, o) == Some(id) <==> O.Holds(IdsOf(areas), id, o);
    if AreaFound(areas, index, o).Some? {
      var found := O.Lookup(index, o).value;
      assert O.Holds(IdsOf(areas), found, o);
    }
  }

  /** Another reference means the same area before and after the event. */
  lemma OtherReferenceStays(w: World, c: Context, ref: string, other: string, event: StopAreaUpdateEvent,
                            area: StopArea, newId: string, w': World)
    requires AreasSound(w.areas, w.areaIndex, c.kind) && AreasSound(w'.areas, w'.areaIndex, c.kind)
    requires MadeFor(c, event, ref) && other != ref && Fits(w, event, area, newId) && Replaced(w, area, w')
    requires ToAttach(w', c, other).Some?
    ensures ToAttach(w, c, other).Some? && ToAttach(w, c, other).value.id == ToAttach(w', c, other).value.id
    ensures ToAttach(w, c, other).value.id != area.id
  {
    var o := ObjectId(c.kind, other);
    var id := AreaFound(w'.areas, w'.areaIndex, o).value.id;
    FoundHolds(w'.areas, w'.areaIndex, c.kind, o, id);
    ReplacedKeys(w, area, w', id);
    if AreaKnown(w, event.objectId) {
      FoundHolds(w.areas, w.areaIndex, c.kind, event.objectId, area.id);
    }
    assert O.Has(area.objectIds, event.objectId);
    assert id != area.id;
    FoundHolds(w.areas, w.areaIndex, c.kind, o, id);
  }

  /** The origin is the same area before and after the event, or it is the new area. */
  lemma OriginStays(w: World, c: Context, ref: string, event: StopAreaUpdateEvent, area: StopArea, newId: string,
                    w': World)
    requires AreasSound(w.areas, w.areaIndex, c.originStopArea.kind)
    requires AreasSound(w'.areas, w'.areaIndex, c.originStopArea.kind)
    requires MadeFor(c, event, ref) && Fits(w, event, area, newId) && Replaced(w, area, w') && Unused(w, newId)
    requires Origin(w', c).Some?
    ensures if Origin(w, c).Some? then Origin(w', c).value.id == Origin(w, c).value.id
            else Origin(w', c).value.id == area.id && area.parentId == NO_ID && area.referentId == NO_ID
  {
    var id := Origin(w', c).value.id;
    FoundHolds(w'.areas, w'.areaIndex, c.originStopArea.kind, c.originStopArea, id);
    ReplacedKeys(w, area, w', id);
    FoundHolds(w.areas, w.areaIndex, c.originStopArea.kind, c.originStopArea, id);
    if id !in w.areas {
      assert O.Has(area.objectIds, c.originStopArea);
      assert event.objectId == c.originStopArea;
    }
  }

  lemma NewOriginIsAlone(areas: Areas, rank: string -> nat, id: string)
    requires Ranked(areas, rank) && SA.KeyedById(areas) && id in areas && areas[id].parentId == NO_ID
    requires areas[id].referentId == NO_ID
    ensures AscendantIds(areas, rank, id) == {id}
  {
    WalkIds(areas, rank, id);
  }

  /** The area of the event does not wait for its parent any more. */
  lemma HandledReferenceStays(w: World, c: Context, ref: string, event: StopAreaUpdateEvent, area: StopArea,
                              newId: string, w': World)
    requires AreasSound(w.areas, w.areaIndex, c.kind) && AreasSound(w'.areas, w'.areaIndex, c.kind)
    requires AreasSound(w.areas, w.areaIndex, c.originStopArea.kind)
    requires AreasSound(w'.areas, w'.areaIndex, c.originStopArea.kind)
    requires MadeFor(c, event, ref) && Fits(w, event, area, newId) && Replaced(w, area, w') && Unused(w, newId)
    requires Origin(w', c).Some?
    ensures ToAttach(w', c, ref).None?
  {
    if ToAttach(w', c, ref).Some? {
      var id := ToAttach(w', c, ref).value.id;
      FoundHolds(w'.areas, w'.areaIndex, c.kind, event.objectId, id);
      if AreaKnown(w, event.objectId) {
        FoundHolds(w.areas, w.areaIndex, c.kind, event.objectId, area.id);
      }
      ReplacedKeys(w, area, w', area.id);
      assert O.Holds(IdsOf(w'.areas), area.id, event.objectId);
      FoundHolds(w'.areas, w'.areaIndex, c.kind, event.objectId, area.id);
      OriginStays(w, c, ref, event, area, newId, w');
      assert Origin(w, c).None?;
      FoundHolds(w'.areas, w'.areaIndex, c.originStopArea.kind, c.originStopArea, area.id);
      assert O.Has(area.objectIds, c.originStopArea);
      FoundHolds(w.areas, w.areaIndex, c.originStopArea.kind, c.originStopArea, area.id);
    }
  }

  /** After a stop area event, every area that still waits for its parent can get it. */
  lemma AttachableStep(w: World, rank: string -> nat, c: Context, refs: set<string>, ref: string,
                       event: StopAreaUpdateEvent, area: StopArea,
                       newId: string, w': World, rank': string -> nat)
    requires AreasSound(w.areas, w.areaIndex, c.kind) && AreasSound(w'.areas, w'.areaIndex, c.kind)
    requires c.originStopArea.value != "" ==>
               AreasSound(w.areas, w.areaIndex, c.originStopArea.kind)
                   && AreasSound(w'.areas, w'.areaIndex, c.originStopArea.kind)
    requires Ranked(w.areas, rank) && Ranked(w'.areas, rank') && Unused(w, newId)
    requires MadeFor(c, event, ref) && Fits(w, event, area, newId) && Replaced(w, area, w')
    requires ref in refs && Attachable(w, rank, c, refs)
    ensures Attachable(w', rank', c, refs)
  {
    forall other | other in refs ensures RefAttachable(w', rank', c, other) {
      if Origin(w', c).Some? && ToAttach(w', c, other).Some? {
        assert RefAttachable(w, rank, c, other) && RefAttachable(w, rank, c, ref);
        if other == ref {
          HandledReferenceStays(w, c, ref, event, area, newId, w');
        } else {
          OtherReferenceStays(w, c, ref, other, event, area, newId, w');
          OriginStays(w, c, ref, event, area, newId, w');
          if Origin(w, c).Some? {
            OriginWalkStays(w, rank, c, ref, event, area, newId, w', rank');
          } else {
            ReplacedKeys(w, area, w', area.id);
            NewOriginIsAlone(w'.areas, rank', area.id);
          }
        }
      }
    }
  }

  /** Other versions of the stop areas can get the same parents. */
  lemma VersionsAreAttachable(w: World, rank: string -> nat, c: Context, refs: set<string>, w': World)
    requires AreasSound(w.areas, w.areaIndex, c.kind) && AreasSound(w'.areas, w'.areaIndex, c.kind)
    requires c.originStopArea.value != "" ==>
               AreasSound(w.areas, w.areaIndex, c.originStopArea.kind)
                   && AreasSound(w'.areas, w'.areaIndex, c.originStopArea.kind)
    requires Versions(w.areas, w'.areas) && w'.areas.Keys == w.areas.Keys
    requires Ranked(w.areas, rank) && Ranked(w'.areas, rank) && Attachable(w, rank, c, refs)
    ensures Attachable(w', rank, c, refs)
  {
    forall ref | ref in refs ensures RefAttachable(w', rank, c, ref) {
      if Origin(w', c).Some? && ToAttach(w', c, ref).Some? {
        assert RefAttachable(w, rank, c, ref);
        VersionIsFound(w, w', c.kind, ObjectId(c.kind, ref));
        VersionIsFound(w, w', c.originStopArea.kind, c.originStopArea);
        VersionsAreSameGraph(w.areas, w'.areas);
        SameGraphSameWalk(w.areas, w'.areas, rank, Origin(w, c).value.id);
      }
    }
  }

  lemma VersionIsFound(w: World, w': World, kind: string, o: ObjectId)
    requires AreasSound(w.areas, w.areaIndex, kind) && AreasSound(w'.areas, w'.areaIndex, kind) && o.kind == kind
    requires Versions(w.areas, w'.areas) && w'.areas.Keys == w.areas.Keys
    requires AreaKnown(w', o)
    ensures AreaKnown(w, o)
    ensures SameIdentity(AreaFound(w.areas, w.areaIndex, o).value, AreaFound(w'.areas, w'.areaIndex, o).value)
  {
    var id := AreaFound(w'.areas, w'.areaIndex, o).value.id;
    FoundHolds(w'.areas, w'.areaIndex, kind, o, id);
    assert id in w.areas.Keys && SameIdentity(w.areas[id], w'.areas[id]);
    FoundHolds(w.areas, w.areaIndex, kind, o, id);
  }

  lemma VersionsAreSameGraph(areas: Areas, areas': Areas)
    requires Versions(areas, areas') && areas.Keys == areas'.Keys
    ensures SameGraph(areas, areas')
  {
    forall id | id in areas ensures areas[id].parentId == areas'[id].parentId
        && areas[id].referentId == areas'[id].referentId {
      assert id in areas'.Keys && SameIdentity(areas[id], areas'[id]);
    }
  }
}
