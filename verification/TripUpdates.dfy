/** The GTFS Realtime feed of trip updates (core/gtfs_rt_trip_updates_broadcaster.go). */
module TripUpdates {
  import opened Common
  import opened StopVisit
  import opened StopArea
  import opened Network

  /** GTFS Realtime, message StopTimeUpdate; the stop sequence is an unsigned 32-bit field. */
  datatype StopTimeUpdate = StopTimeUpdate(stopSequence: nat, stopId: string, arrival: Option<int>,
                                           departure: Option<int>)

  datatype FeedEntity = FeedEntity(id: string, tripId: string, routeId: string, stopTimeUpdates: seq<StopTimeUpdate>)

  /** Seconds between the zero instant and the Unix epoch. */
  const UNIX_EPOCH: int := 62135596800

  function Unix(t: Time): int {
    t / SECOND - UNIX_EPOCH
  }

  function Seconds(t: Time): Option<int> {
    if IsZero(t) then None else Some(Unix(t))
  }

  function Uint32(n: int): nat {
    n % 0x1_0000_0000
  }

  /** What the feed looks up, for one kind of identifier. */
  datatype Model = Model(stopAreas: Areas, journeys: map<string, VehicleJourney>, lines: map<string, Line>,
                         kind: string)

  /** The line of the journey, when the journey, its line and both identifiers exist. */
  function TripOf(m: Model, journeyId: string): Option<(string, string)> {
    if journeyId !in m.journeys || m.kind !in m.journeys[journeyId].objectIds then None
    else
      var journey := m.journeys[journeyId];
      if journey.lineId !in m.lines || m.kind !in m.lines[journey.lineId].objectIds then None
      else Some((journey.objectIds[m.kind], m.lines[journey.lineId].objectIds[m.kind]))
  }

  predicate HasStop(m: Model, visit: StopVisit) {
    visit.stopAreaId in m.stopAreas && m.kind in m.stopAreas[visit.stopAreaId].objectIds
  }

  /** The visits that can be told to the world under identifiers of the kind. */
  predicate Eligible(m: Model, visit: StopVisit) {
    HasStop(m, visit) && TripOf(m, visit.vehicleJourneyId).Some?
  }

  function UpdateOf(m: Model, visit: StopVisit): StopTimeUpdate
    requires Eligible(m, visit)
  {
    StopTimeUpdate(Uint32(visit.passageOrder), m.stopAreas[visit.stopAreaId].objectIds[m.kind],
                   Seconds(ReferenceArrivalTime(visit)), Seconds(ReferenceDepartureTime(visit)))
  }

  /** The updates of the eligible visits, of all journeys or of one, in the order of the visits. */
  function AllUpdates(m: Model, visits: seq<StopVisit>): seq<StopTimeUpdate> {
    if visits == [] then []
    else
      var last := visits[|visits| - 1];
      AllUpdates(m, visits[..|visits| - 1]) + if Eligible(m, last) then [UpdateOf(m, last)] else []
  }

  function UpdatesOfJourney(m: Model, visits: seq<StopVisit>, journeyId: string): seq<StopTimeUpdate> {
    if visits == [] then []
    else
      var last := visits[|visits| - 1];
      UpdatesOfJourney(m, visits[..|visits| - 1], journeyId)
      + if Eligible(m, last) && last.vehicleJourneyId == journeyId then [UpdateOf(m, last)] else []
  }

  /** The journeys that have an eligible visit. */
  function EligibleJourneys(m: Model, visits: seq<StopVisit>): set<string> {
    if visits == [] then {}
    else
      var last := visits[|visits| - 1];
      EligibleJourneys(m, visits[..|visits| - 1]) + if Eligible(m, last) then {last.vehicleJourneyId} else {}
  }

  lemma {:induction false} EligibleJourneysHaveVisits(m: Model, visits: seq<StopVisit>, journeyId: string)
    ensures journeyId in EligibleJourneys(m, visits) <==>
            exists v :: v in visits && Eligible(m, v) && v.vehicleJourneyId == journeyId
  {
    if visits != [] {
      var n := |visits| - 1;
      assert visits == visits[..n] + [visits[n]];
      EligibleJourneysHaveVisits(m, visits[..n], journeyId);
    }
  }

  ghost predicate SortedBySequence(updates: seq<StopTimeUpdate>) {
    forall i, j :: 0 <= i < j < |updates| ==> updates[i].stopSequence <= updates[j].stopSequence
  }

  /** The entity describes the journey and lists the updates of its eligible visits, ordered
      by stop sequence. */
  ghost predicate Describes(m: Model, visits: seq<StopVisit>, journeyId: string, entity: FeedEntity) {
    && TripOf(m, journeyId) == Some((entity.tripId, entity.routeId))
    && entity.id == "trip:" + entity.tripId
    && multiset(entity.stopTimeUpdates) == multiset(UpdatesOfJourney(m, visits, journeyId))
    && SortedBySequence(entity.stopTimeUpdates)
  }

  // ---------------------------------------------------------------- in the terms of the feed

  /** The stop area, the journey and its line are known, all under identifiers of the kind. */
  ghost predicate CanBeTold(m: Model, v: StopVisit) {
    && v.stopAreaId in m.stopAreas && m.kind in m.stopAreas[v.stopAreaId].objectIds
    && v.vehicleJourneyId in m.journeys && m.kind in m.journeys[v.vehicleJourneyId].objectIds
    && var lineId := m.journeys[v.vehicleJourneyId].lineId;
    && lineId in m.lines && m.kind in m.lines[lineId].objectIds
  }

  /** The entity is that of the journey of the visit, under the identifiers of journey and line. */
  ghost predicate IsTripOf(m: Model, v: StopVisit, entity: FeedEntity)
    requires CanBeTold(m, v)
  {
    var journey := m.journeys[v.vehicleJourneyId];
    && entity.tripId == journey.objectIds[m.kind] && entity.id == "trip:" + journey.objectIds[m.kind]
    && entity.routeId == m.lines[journey.lineId].objectIds[m.kind]
  }

  /** The time in seconds since the Unix epoch, whole seconds before the instant; none for no time. */
  ghost predicate InSeconds(t: Time, told: Option<int>) {
    match told
    case None => t == 0
    case Some(s) => t != 0 && (s + 62_135_596_800) * 1_000_000_000 <= t < (s + 62_135_596_801) * 1_000_000_000
  }

  /** The update tells the stop, its place in the journey in 32 bits, and the deciding times. */
  ghost predicate TellsVisit(m: Model, v: StopVisit, u: StopTimeUpdate)
    requires CanBeTold(m, v)
  {
    && u.stopSequence < 0x1_0000_0000 && (exists k: int :: v.passageOrder == u.stopSequence + k * 0x1_0000_0000)
    && u.stopId == m.stopAreas[v.stopAreaId].objectIds[m.kind]
    && InSeconds(DecidingArrival(v), u.arrival) && InSeconds(DecidingDeparture(v), u.departure)
  }

  lemma UpdateTellsVisit(m: Model, v: StopVisit)
    ensures Eligible(m, v) <==> CanBeTold(m, v)
    ensures Eligible(m, v) ==> TellsVisit(m, v, UpdateOf(m, v))
  {
    if Eligible(m, v) {
      ReferenceIsDeciding(v);
      SecondsAreTold(DecidingArrival(v));
      SecondsAreTold(DecidingDeparture(v));
      Uint32Wraps(v.passageOrder);
    }
  }

  lemma SecondsAreTold(t: Time)
    ensures InSeconds(t, Seconds(t))
  {
  }

  lemma Uint32Wraps(n: int)
    ensures Uint32(n) < 0x1_0000_0000 && exists k: int :: n == Uint32(n) + k * 0x1_0000_0000
  {
    assert n == Uint32(n) + (n / 0x1_0000_0000) * 0x1_0000_0000;
  }

  lemma {:induction false} UpdatesOfJourneyAre(m: Model, visits: seq<StopVisit>, journeyId: string, u: StopTimeUpdate)
    ensures u in UpdatesOfJourney(m, visits, journeyId) <==>
            exists v :: v in visits && Eligible(m, v) && v.vehicleJourneyId == journeyId && UpdateOf(m, v) == u
  {
    if visits != [] {
      var n := |visits| - 1;
      UpdatesOfJourneyAre(m, visits[..n], journeyId, u);
      assert visits == visits[..n] + [visits[n]];
    }
  }

  /** Every visit that can be told is told, in the entity of its journey, and nothing else is. */
  ghost predicate TellsVisits(m: Model, visits: seq<StopVisit>, entities: seq<FeedEntity>) {
    && (forall v :: v in visits && CanBeTold(m, v) ==> IsToldIn(m, v, entities))
    && (forall i :: 0 <= i < |entities| ==> TellsOnly(m, visits, entities[i]))
    && (forall i :: 0 <= i < |entities| ==> entities[i].stopTimeUpdates != [])
  }

  ghost predicate IsToldIn(m: Model, v: StopVisit, entities: seq<FeedEntity>)
    requires CanBeTold(m, v)
  {
    exists i, u :: 0 <= i < |entities| && IsTripOf(m, v, entities[i])
                   && u in entities[i].stopTimeUpdates && TellsVisit(m, v, u)
  }

  ghost predicate TellsOnly(m: Model, visits: seq<StopVisit>, entity: FeedEntity) {
    forall u :: u in entity.stopTimeUpdates ==>
      exists v :: v in visits && CanBeTold(m, v) && IsTripOf(m, v, entity) && TellsVisit(m, v, u)
  }

  lemma FeedTellsVisits(m: Model, visits: seq<StopVisit>, journeys: seq<string>, entities: seq<FeedEntity>)
    requires Lists(journeys, EligibleJourneys(m, visits)) && |entities| == |journeys|
    requires forall i :: 0 <= i < |entities| ==> Describes(m, visits, journeys[i], entities[i])
    ensures TellsVisits(m, visits, entities)
  {
    forall v | v in visits && CanBeTold(m, v) ensures IsToldIn(m, v, entities) {
      UpdateTellsVisit(m, v);
      EligibleJourneysHaveVisits(m, visits, v.vehicleJourneyId);
      var i :| 0 <= i < |journeys| && journeys[i] == v.vehicleJourneyId;
      var u := UpdateOf(m, v);
      UpdatesOfJourneyAre(m, visits, journeys[i], u);
      assert u in multiset(UpdatesOfJourney(m, visits, journeys[i]));
      assert u in multiset(entities[i].stopTimeUpdates);
      assert IsTripOf(m, v, entities[i]) && TellsVisit(m, v, u);
    }
    forall i | 0 <= i < |entities| ensures TellsOnly(m, visits, entities[i]) && entities[i].stopTimeUpdates != [] {
      EntityTellsOnly(m, visits, journeys[i], entities[i]);
    }
  }

  lemma EntityTellsOnly(m: Model, visits: seq<StopVisit>, journeyId: string, entity: FeedEntity)
    requires journeyId in EligibleJourneys(m, visits) && Describes(m, visits, journeyId, entity)
    ensures TellsOnly(m, visits, entity) && entity.stopTimeUpdates != []
  {
    forall u | u in entity.stopTimeUpdates
      ensures exists v :: v in visits && CanBeTold(m, v) && IsTripOf(m, v, entity) && TellsVisit(m, v, u)
    {
      assert u in multiset(entity.stopTimeUpdates);
      assert u in multiset(UpdatesOfJourney(m, visits, journeyId));
      UpdatesOfJourneyAre(m, visits, journeyId, u);
      var v :| v in visits && Eligible(m, v) && v.vehicleJourneyId == journeyId && UpdateOf(m, v) == u;
      UpdateTellsVisit(m, v);
      assert IsTripOf(m, v, entity) && TellsVisit(m, v, u);
    }
    UpdatesExist(m, visits, journeyId);
    var some := UpdatesOfJourney(m, visits, journeyId)[0];
    assert some in multiset(UpdatesOfJourney(m, visits, journeyId));
    assert some in multiset(entity.stopTimeUpdates);
  }

  /** handleGtfs, for the visits that have not passed more than two minutes ago: exactly one
      entity for each journey with an eligible visit, and every update exactly once. */
  method HandleGtfs(m: Model, visits: seq<StopVisit>) returns (entities: seq<FeedEntity>, ghost journeys: seq<string>)
    ensures Lists(journeys, EligibleJourneys(m, visits))
    ensures |entities| == |journeys|
    ensures forall i :: 0 <= i < |entities| ==> Describes(m, visits, journeys[i], entities[i])
    ensures multiset(Concat(entities)) == multiset(AllUpdates(m, visits))
    ensures TellsVisits(m, visits, entities)
  {
    var feedEntities := GroupByJourney(m, visits);
    var ids := Enumerate(feedEntities.Keys);
    entities, journeys := [], [];
    for i := 0 to |ids|
      invariant |entities| == |journeys|
      invariant forall k :: 0 <= k < |entities| ==>
                  journeys[k] in feedEntities && entities[k] == Sorted(feedEntities[journeys[k]])
      invariant NothingSkipped(feedEntities, ids[..i]) ==> journeys == ids[..i]
    {
      assert ids[i] in feedEntities.Keys;
      assert ids[..i + 1] == ids[..i] + [ids[i]];
      if |feedEntities[ids[i]].stopTimeUpdates| == 0 {
        continue;
      }
      entities, journeys := entities + [Sorted(feedEntities[ids[i]])], journeys + [ids[i]];
    }
    assert ids[..|ids|] == ids;
    NoneIsSkipped(m, visits, feedEntities, ids);
    forall i | 0 <= i < |entities| ensures Describes(m, visits, journeys[i], entities[i]) {
      assert GroupedAt(m, visits, feedEntities, journeys[i]);
      SortedDescribes(m, visits, journeys[i], feedEntities[journeys[i]]);
    }
    FeedIsPermutationOfVisits(m, visits, journeys, entities);
    FeedTellsVisits(m, visits, journeys, entities);
  }

  /** All of these entities have an update, so that the feed takes them. */
  ghost predicate NothingSkipped(feedEntities: map<string, FeedEntity>, ids: seq<string>) {
    forall id :: id in ids ==> id in feedEntities && feedEntities[id].stopTimeUpdates != []
  }

  lemma NoneIsSkipped(m: Model, visits: seq<StopVisit>, feedEntities: map<string, FeedEntity>, ids: seq<string>)
    requires Grouped(m, visits, feedEntities) && Lists(ids, feedEntities.Keys)
    ensures NothingSkipped(feedEntities, ids)
  {
    forall id | id in ids ensures id in feedEntities && feedEntities[id].stopTimeUpdates != [] {
      assert id in feedEntities.Keys;
      GroupedNotEmpty(m, visits, feedEntities, id);
    }
  }

  /** Every gathered entity has an update, so the feed skips none. */
  lemma GroupedNotEmpty(m: Model, visits: seq<StopVisit>, feedEntities: map<string, FeedEntity>, journeyId: string)
    requires Grouped(m, visits, feedEntities) && journeyId in feedEntities
    ensures feedEntities[journeyId].stopTimeUpdates != []
  {
    assert journeyId in feedEntities.Keys && GroupedAt(m, visits, feedEntities, journeyId);
    UpdatesExist(m, visits, journeyId);
  }

  /** sort.Slice over the updates of one entity. */
  function Sorted(entity: FeedEntity): FeedEntity {
    entity.(stopTimeUpdates := SortByKey(entity.stopTimeUpdates, (u: StopTimeUpdate) => u.stopSequence as int))
  }

  lemma SortedDescribes(m: Model, visits: seq<StopVisit>, journeyId: string, entity: FeedEntity)
    requires Titled(m, journeyId, entity) && entity.stopTimeUpdates == UpdatesOfJourney(m, visits, journeyId)
    ensures Describes(m, visits, journeyId, Sorted(entity))
  {
    SortSorts(entity.stopTimeUpdates, (u: StopTimeUpdate) => u.stopSequence as int);
  }

  lemma {:induction false} UpdatesExist(m: Model, visits: seq<StopVisit>, journeyId: string)
    requires journeyId in EligibleJourneys(m, visits)
    ensures UpdatesOfJourney(m, visits, journeyId) != []
    decreases |visits|
  {
    if journeyId in EligibleJourneys(m, visits[..|visits| - 1]) {
      UpdatesExist(m, visits[..|visits| - 1], journeyId);
    }
  }

  /** The entities gathered so far: one for each journey met with an eligible visit. */
  ghost predicate Grouped(m: Model, visits: seq<StopVisit>, feedEntities: map<string, FeedEntity>) {
    && feedEntities.Keys == EligibleJourneys(m, visits)
    && forall j :: GroupedAt(m, visits, feedEntities, j)
  }

  ghost predicate GroupedAt(m: Model, visits: seq<StopVisit>, feedEntities: map<string, FeedEntity>, j: string) {
    && (j in feedEntities ==> Titled(m, j, feedEntities[j]))
    && UpdatesOfJourney(m, visits, j) == if j in feedEntities then feedEntities[j].stopTimeUpdates else []
  }

  predicate Titled(m: Model, journeyId: string, entity: FeedEntity) {
    && TripOf(m, journeyId) == Some((entity.tripId, entity.routeId))
    && entity.id == "trip:" + entity.tripId
  }

  /** The first loop: entities are created when a journey is met first, then extended. */
  method GroupByJourney(m: Model, visits: seq<StopVisit>) returns (feedEntities: map<string, FeedEntity>)
    ensures Grouped(m, visits, feedEntities)
  {
    feedEntities := map[];
    var linesObjectId: map<string, string> := map[];
    for i := 0 to |visits|
      invariant Grouped(m, visits[..i], feedEntities)
      invariant forall j :: j in linesObjectId ==> TripOf(m, j).Some? && TripOf(m, j).value.1 == linesObjectId[j]
    {
      var visit := visits[i];
      assert visits[..i + 1] == visits[..i] + [visit];
      if !Eligible(m, visit) {
        GroupedWithout(m, visits[..i], visit, feedEntities);
      }
      assert GroupedAt(m, visits[..i], feedEntities, visit.vehicleJourneyId);
      if visit.stopAreaId !in m.stopAreas {
        continue;
      }
      var stopArea := m.stopAreas[visit.stopAreaId];
      if m.kind !in stopArea.objectIds {
        continue;
      }
      var entity: FeedEntity;
      if visit.vehicleJourneyId in feedEntities {
        entity := feedEntities[visit.vehicleJourneyId];
      } else {
        var created: Option<FeedEntity>;
        created, linesObjectId := NewEntity(m, visit.vehicleJourneyId, linesObjectId);
        if created.None? {
          continue;
        }
        entity := created.value;
      }
      var update := StopTimeUpdate(Uint32(visit.passageOrder), stopArea.objectIds[m.kind],
                                   Seconds(ReferenceArrivalTime(visit)), Seconds(ReferenceDepartureTime(visit)));
      GroupedWith(m, visits[..i], visit, feedEntities, entity);
      feedEntities := feedEntities[visit.vehicleJourneyId :=
                                   entity.(stopTimeUpdates := entity.stopTimeUpdates + [update])];
    }
    assert visits[..|visits|] == visits;
  }

  /** Fetching the models and identifiers that name the trip, through the cache of routes. */
  method NewEntity(m: Model, journeyId: string, linesObjectId: map<string, string>)
    returns (entity: Option<FeedEntity>, cache: map<string, string>)
    requires forall j :: j in linesObjectId ==> TripOf(m, j).Some? && TripOf(m, j).value.1 == linesObjectId[j]
    ensures forall j :: j in cache ==> TripOf(m, j).Some? && TripOf(m, j).value.1 == cache[j]
    ensures entity.None? <==> TripOf(m, journeyId).None?
    ensures entity.Some? ==> Titled(m, journeyId, entity.value) && entity.value.stopTimeUpdates == []
  {
    cache := linesObjectId;
    if journeyId !in m.journeys || m.kind !in m.journeys[journeyId].objectIds {
      return None, cache;
    }
    var journey := m.journeys[journeyId];
    var routeId: string;
    if journeyId in cache {
      routeId := cache[journeyId];
    } else {
      if journey.lineId !in m.lines || m.kind !in m.lines[journey.lineId].objectIds {
        return None, cache;
      }
      routeId := m.lines[journey.lineId].objectIds[m.kind];
      cache := cache[journeyId := routeId];
    }
    var tripId := journey.objectIds[m.kind];
    entity := Some(FeedEntity("trip:" + tripId, tripId, routeId, []));
  }

  lemma OneMoreVisit(m: Model, visits: seq<StopVisit>, visit: StopVisit, j: string)
    ensures UpdatesOfJourney(m, visits + [visit], j) ==
            UpdatesOfJourney(m, visits, j)
            + if Eligible(m, visit) && visit.vehicleJourneyId == j then [UpdateOf(m, visit)] else []
  {
    assert (visits + [visit])[..|visits|] == visits;
  }

  lemma GroupedWith(m: Model, visits: seq<StopVisit>, visit: StopVisit, feedEntities: map<string, FeedEntity>,
                    entity: FeedEntity)
    requires Grouped(m, visits, feedEntities) && Eligible(m, visit) && Titled(m, visit.vehicleJourneyId, entity)
    requires entity.stopTimeUpdates ==
             if visit.vehicleJourneyId in feedEntities then feedEntities[visit.vehicleJourneyId].stopTimeUpdates else []
    ensures Grouped(m, visits + [visit], feedEntities[visit.vehicleJourneyId :=
              entity.(stopTimeUpdates := entity.stopTimeUpdates + [UpdateOf(m, visit)])])
  {
    var update := UpdateOf(m, visit);
    var extended := entity.(stopTimeUpdates := entity.stopTimeUpdates + [update]);
    var after := feedEntities[visit.vehicleJourneyId := extended];
    forall j ensures GroupedAt(m, visits + [visit], after, j) {
      assert GroupedAt(m, visits, feedEntities, j);
      OneMoreVisit(m, visits, visit, j);
    }
    assert (visits + [visit])[..|visits|] == visits;
    assert after.Keys == feedEntities.Keys + {visit.vehicleJourneyId};
  }

  lemma GroupedWithout(m: Model, visits: seq<StopVisit>, visit: StopVisit, feedEntities: map<string, FeedEntity>)
    requires Grouped(m, visits, feedEntities) && !Eligible(m, visit)
    ensures Grouped(m, visits + [visit], feedEntities)
  {
    forall j ensures GroupedAt(m, visits + [visit], feedEntities, j) {
      assert GroupedAt(m, visits, feedEntities, j);
      OneMoreVisit(m, visits, visit, j);
    }
    assert (visits + [visit])[..|visits|] == visits;
  }

  // ---------------------------------------------------------------- conservation

  function Concat(entities: seq<FeedEntity>): seq<StopTimeUpdate> {
    if entities == [] then [] else Concat(entities[..|entities| - 1]) + entities[|entities| - 1].stopTimeUpdates
  }

  ghost function UpdatesOfJourneys(m: Model, visits: seq<StopVisit>, journeys: seq<string>): multiset<StopTimeUpdate> {
    if journeys == [] then multiset{}
    else UpdatesOfJourneys(m, visits, journeys[..|journeys| - 1])
         + multiset(UpdatesOfJourney(m, visits, journeys[|journeys| - 1]))
  }

  lemma {:induction false} EntitiesCarryJourneys(m: Model, visits: seq<StopVisit>, journeys: seq<string>,
                                                 entities: seq<FeedEntity>)
    requires |entities| == |journeys|
    requires forall i :: 0 <= i < |entities| ==> Describes(m, visits, journeys[i], entities[i])
    ensures multiset(Concat(entities)) == UpdatesOfJourneys(m, visits, journeys)
  {
    if entities != [] {
      var n := |entities| - 1;
      EntitiesCarryJourneys(m, visits, journeys[..n], entities[..n]);
    }
  }

  /** What one visit contributes to the updates of one journey. */
  ghost function Share(m: Model, visit: StopVisit, journeyId: string): multiset<StopTimeUpdate> {
    if Eligible(m, visit) && visit.vehicleJourneyId == journeyId then multiset{UpdateOf(m, visit)} else multiset{}
  }

  lemma ShareOfLast(m: Model, visits: seq<StopVisit>, journeyId: string)
    requires visits != []
    ensures multiset(UpdatesOfJourney(m, visits, journeyId)) ==
            multiset(UpdatesOfJourney(m, visits[..|visits| - 1], journeyId)) + Share(m, visits[|visits| - 1], journeyId)
  {
  }

  /** One more visit adds its update to the journey it belongs to, and to no other. */
  lemma {:induction false} OneVisitOneJourney(m: Model, visits: seq<StopVisit>, journeys: seq<string>,
                                              x: StopTimeUpdate)
    requires visits != [] && NoDuplicates(journeys)
    ensures UpdatesOfJourneys(m, visits, journeys)[x] ==
            UpdatesOfJourneys(m, visits[..|visits| - 1], journeys)[x] + ShareOfAny(m, visits[|visits| - 1], journeys)[x]
  {
    if journeys != [] {
      var k := |journeys| - 1;
      assert journeys == journeys[..k] + [journeys[k]];
      assert journeys[k] !in journeys[..k];
      ShareOfLast(m, visits, journeys[k]);
      OneVisitOneJourney(m, visits, journeys[..k], x);
    }
  }

  ghost function ShareOfAny(m: Model, visit: StopVisit, journeys: seq<string>): multiset<StopTimeUpdate> {
    if visit.vehicleJourneyId in journeys then Share(m, visit, visit.vehicleJourneyId) else multiset{}
  }

  lemma {:induction false} NoVisitNoUpdate(m: Model, journeys: seq<string>)
    ensures UpdatesOfJourneys(m, [], journeys) == multiset{}
  {
    if journeys != [] {
      NoVisitNoUpdate(m, journeys[..|journeys| - 1]);
    }
  }

  lemma {:induction false} JourneysCarryVisits(m: Model, visits: seq<StopVisit>, journeys: seq<string>)
    requires NoDuplicates(journeys) && forall v :: v in visits && Eligible(m, v) ==> v.vehicleJourneyId in journeys
    ensures UpdatesOfJourneys(m, visits, journeys) == multiset(AllUpdates(m, visits))
    decreases |visits|
  {
    if visits == [] {
      NoVisitNoUpdate(m, journeys);
    } else {
      JourneysCarryVisits(m, visits[..|visits| - 1], journeys);
      var last := visits[|visits| - 1];
      assert Eligible(m, last) ==> last.vehicleJourneyId in journeys;
      forall x ensures UpdatesOfJourneys(m, visits, journeys)[x] == multiset(AllUpdates(m, visits))[x] {
        OneVisitOneJourney(m, visits, journeys, x);
      }
    }
  }

  /** The stop-time updates over all the entities of the feed are the updates of the eligible
      visits, each exactly once: nothing is lost, doubled or invented by the grouping. */
  lemma FeedIsPermutationOfVisits(m: Model, visits: seq<StopVisit>, journeys: seq<string>, entities: seq<FeedEntity>)
    requires Lists(journeys, EligibleJourneys(m, visits)) && |entities| == |journeys|
    requires forall i :: 0 <= i < |entities| ==> Describes(m, visits, journeys[i], entities[i])
    ensures multiset(Concat(entities)) == multiset(AllUpdates(m, visits))
  {
    EntitiesCarryJourneys(m, visits, journeys, entities);
    forall v | v in visits && Eligible(m, v) ensures v.vehicleJourneyId in journeys {
      EligibleJourneysHaveVisits(m, visits, v.vehicleJourneyId);
    }
    JourneysCarryVisits(m, visits, journeys);
  }
}
