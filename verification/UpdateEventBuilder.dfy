/** Turning the monitored stop visits of a delivery into update events
    (core/stop_monitoring_update_event_builder.go). */
module UpdateEventBuilder {
  import opened Common
  import opened StopVisit
  import opened Network

  /** A monitored stop visit, as the partner tells it; `journeyTexts` are its other elements about the journey. */
  datatype XMLMonitoredStopVisit = XMLMonitoredStopVisit(
    itemIdentifier: string,
    stopPointRef: string,
    stopPointName: string,
    lineRef: string,
    publishedLineName: string,
    datedVehicleJourneyRef: string,
    vehicleJourneyName: string,
    originRef: string,
    originName: string,
    destinationRef: string,
    destinationName: string,
    placeRef: string,
    journeyPatternRef: string,
    routeRef: string,
    journeyTexts: map<string, string>,
    dataFrameRef: string,
    order: int,
    monitored: bool,
    vehicleAtStop: bool,
    arrivalStatus: string,
    departureStatus: string,
    recordedAt: Time,
    aimed: Schedule,
    expected: Schedule,
    actual: Schedule)

  datatype StopAreaUpdateEvent = StopAreaUpdateEvent(
    origin: string, objectId: ObjectId, parentObjectId: ObjectId, name: string, collectedAlways: bool)

  datatype LineUpdateEvent = LineUpdateEvent(origin: string, objectId: ObjectId, name: string)

  datatype VehicleJourneyUpdateEvent = VehicleJourneyUpdateEvent(
    origin: string, objectId: ObjectId, lineObjectId: ObjectId,
    originRef: string, originName: string, destinationRef: string, destinationName: string,
    direction: string, monitored: bool, attributes: Attributes, references: References)

  datatype StopVisitUpdateEvent = StopVisitUpdateEvent(
    origin: string, objectId: ObjectId, stopAreaObjectId: ObjectId, vehicleJourneyObjectId: ObjectId,
    dataFrameRef: string, passageOrder: int, monitored: bool, vehicleAtStop: bool,
    arrivalStatus: string, departureStatus: string, recordedAt: Time, schedules: Schedules)

  /** Stop visits are filed by stop point and, below, by item identifier. */
  datatype Events = Events(
    stopAreas: map<string, StopAreaUpdateEvent>,
    lines: map<string, LineUpdateEvent>,
    vehicleJourneys: map<string, VehicleJourneyUpdateEvent>,
    stopVisits: map<string, map<string, StopVisitUpdateEvent>>,
    cancellations: seq<ObjectId>,
    monitoringRefs: set<string>)

  const NO_EVENTS := Events(map[], map[], map[], map[], [], {})

  const NO_OBJECT_ID := ObjectId("", "")

  /** The attribute that names a journey. */
  const VEHICLE_JOURNEY_NAME := "VehicleJourneyName"

  /** The partner, its kind of identifiers, and the stop area that was asked for. */
  datatype Context = Context(slug: string, kind: string, originStopArea: ObjectId)

  // ---------------------------------------------------------------- one visit

  function ParentOf(c: Context, objectId: ObjectId): ObjectId {
    if c.originStopArea.value != "" && objectId.Key() != c.originStopArea.Key() then c.originStopArea else NO_OBJECT_ID
  }

  function StopAreaEvent(c: Context, v: XMLMonitoredStopVisit): StopAreaUpdateEvent {
    var objectId := ObjectId(c.kind, v.stopPointRef);
    StopAreaUpdateEvent(c.slug, objectId, ParentOf(c, objectId), v.stopPointName, false)
  }

  function LineEvent(c: Context, v: XMLMonitoredStopVisit): LineUpdateEvent {
    LineUpdateEvent(c.slug, ObjectId(c.kind, v.lineRef), v.publishedLineName)
  }

  /** VehicleJourneyUpdateEvent.Attributes (model/vehicle_journey_update_event.go:33-69). */
  function JourneyAttributes(v: XMLMonitoredStopVisit): Attributes {
    var texts := map key | key in v.journeyTexts && v.journeyTexts[key] != "" :: v.journeyTexts[key];
    SetAttribute(
      SetAttribute(
        SetAttribute(texts, VEHICLE_JOURNEY_NAME, v.vehicleJourneyName), "DestinationName", v.destinationName),
      "OriginName", v.originName)
  }

  /** VehicleJourneyUpdateEvent.References (model/vehicle_journey_update_event.go:71-88). */
  function JourneyReferences(kind: string, v: XMLMonitoredStopVisit): References {
    var placed := SetObjectId(map[], "PlaceRef", ObjectId(kind, v.placeRef));
    var patterned := SetObjectId(placed, "JourneyPatternRef", ObjectId(kind, v.journeyPatternRef));
    var routed := SetObjectId(patterned, "RouteRef", ObjectId(kind, v.routeRef));
    var bound := SetObjectId(routed, DESTINATION_REF, ObjectId(kind, v.destinationRef));
    SetObjectId(bound, ORIGIN_REF, ObjectId(kind, v.originRef))
  }

  function VehicleJourneyEvent(c: Context, v: XMLMonitoredStopVisit): VehicleJourneyUpdateEvent {
    VehicleJourneyUpdateEvent(
      c.slug, ObjectId(c.kind, v.datedVehicleJourneyRef), ObjectId(c.kind, v.lineRef),
      v.originRef, v.originName, v.destinationRef, v.destinationName,
      "", v.monitored, JourneyAttributes(v), JourneyReferences(c.kind, v))
  }

  predicate HasTime(schedule: Schedule) {
    !IsZero(schedule.departureTime) || !IsZero(schedule.arrivalTime)
  }

  /** The schedules that tell a time. */
  function SchedulesOf(v: XMLMonitoredStopVisit): Schedules {
    (if HasTime(v.aimed) then map[Aimed := v.aimed] else map[])
    + (if HasTime(v.expected) then map[Expected := v.expected] else map[])
    + (if HasTime(v.actual) then map[Actual := v.actual] else map[])
  }

  function StopVisitEvent(c: Context, v: XMLMonitoredStopVisit): StopVisitUpdateEvent {
    StopVisitUpdateEvent(c.slug, ObjectId(c.kind, v.itemIdentifier), ObjectId(c.kind, v.stopPointRef),
                         ObjectId(c.kind, v.datedVehicleJourneyRef),
                         v.dataFrameRef, v.order, v.monitored, v.vehicleAtStop, v.arrivalStatus, v.departureStatus,
                             v.recordedAt, SchedulesOf(v))
  }

  // ---------------------------------------------------------------- the batch

  /** The first event under a reference stays. */
  function AddFirst<V>(events: map<string, V>, ref: string, event: V): map<string, V> {
    if ref in events then events else events[ref := event]
  }

  function VisitsAt(events: Events, stopPoint: string): map<string, StopVisitUpdateEvent> {
    if stopPoint in events.stopVisits then events.stopVisits[stopPoint] else map[]
  }

  function WithVisit(c: Context, events: Events, v: XMLMonitoredStopVisit): Events {
    Events(
      AddFirst(events.stopAreas, v.stopPointRef, StopAreaEvent(c, v)),
      AddFirst(events.lines, v.lineRef, LineEvent(c, v)),
      AddFirst(events.vehicleJourneys, v.datedVehicleJourneyRef, VehicleJourneyEvent(c, v)),
      events.stopVisits[v.stopPointRef :=
                        AddFirst(VisitsAt(events, v.stopPointRef), v.itemIdentifier, StopVisitEvent(c, v))],
      events.cancellations,
      if v.stopPointRef in events.stopAreas then events.monitoringRefs else events.monitoringRefs + {v.stopPointRef})
  }

  function WithVisits(c: Context, events: Events, visits: seq<XMLMonitoredStopVisit>): Events {
    if visits == [] then events
    else WithVisit(c, WithVisits(c, events, visits[..|visits| - 1]), visits[|visits| - 1])
  }

  class StopMonitoringUpdateEventBuilder {
    const context: Context
    var events: Events

    constructor (context: Context)
      ensures this.context == context && events == NO_EVENTS
    {
      this.context := context;
      events := NO_EVENTS;
    }

    method BuildUpdateEvents(v: XMLMonitoredStopVisit)
      modifies this
      ensures events == WithVisit(context, old(events), v)
    {
      var stopAreaObjectId := ObjectId(context.kind, v.stopPointRef);
      if v.stopPointRef !in events.stopAreas {
        var event := StopAreaUpdateEvent(context.slug, stopAreaObjectId, NO_OBJECT_ID, v.stopPointName, false);
        if context.originStopArea.value != "" && stopAreaObjectId.Key() != context.originStopArea.Key() {
          event := event.(parentObjectId := context.originStopArea);
        }
        events := events.(stopAreas := events.stopAreas[v.stopPointRef := event],
                          monitoringRefs := events.monitoringRefs + {v.stopPointRef});
      }
      var lineObjectId := ObjectId(context.kind, v.lineRef);
      if v.lineRef !in events.lines {
        events := events.(lines := events.lines[v.lineRef :=
                                                LineUpdateEvent(context.slug, lineObjectId, v.publishedLineName)]);
      }
      var vjObjectId := ObjectId(context.kind, v.datedVehicleJourneyRef);
      if v.datedVehicleJourneyRef !in events.vehicleJourneys {
        var event := VehicleJourneyUpdateEvent(
          context.slug, vjObjectId, lineObjectId,
          v.originRef, v.originName, v.destinationRef, v.destinationName,
          "", v.monitored, JourneyAttributes(v), JourneyReferences(context.kind, v));
        events := events.(vehicleJourneys := events.vehicleJourneys[v.datedVehicleJourneyRef := event]);
      }
      BuildStopVisitEvent(v, stopAreaObjectId, vjObjectId);
    }

    /** The last part of BuildUpdateEvents. */
    method BuildStopVisitEvent(v: XMLMonitoredStopVisit, stopAreaObjectId: ObjectId, vjObjectId: ObjectId)
      requires stopAreaObjectId == ObjectId(context.kind, v.stopPointRef)
      requires vjObjectId == ObjectId(context.kind, v.datedVehicleJourneyRef)
      modifies this
      ensures events == old(events).(
                stopVisits := old(events).stopVisits[v.stopPointRef :=
                                                     AddFirst(VisitsAt(old(events), v.stopPointRef), v.itemIdentifier,
                                                              StopVisitEvent(context, v))])
    {
      if v.stopPointRef in events.stopVisits && v.itemIdentifier in events.stopVisits[v.stopPointRef] {
        assert events.stopVisits == events.stopVisits[v.stopPointRef := events.stopVisits[v.stopPointRef]];
        return;
      }
      var schedules: Schedules := map[];
      if !IsZero(v.aimed.departureTime) || !IsZero(v.aimed.arrivalTime) {
        schedules := schedules[Aimed := v.aimed];
      }
      if !IsZero(v.expected.departureTime) || !IsZero(v.expected.arrivalTime) {
        schedules := schedules[Expected := v.expected];
      }
      if !IsZero(v.actual.departureTime) || !IsZero(v.actual.arrivalTime) {
        schedules := schedules[Actual := v.actual];
      }
      assert schedules == SchedulesOf(v);
      var event := StopVisitUpdateEvent(context.slug, ObjectId(context.kind, v.itemIdentifier), stopAreaObjectId,
                                        vjObjectId,
                                        v.dataFrameRef, v.order, v.monitored, v.vehicleAtStop, v.arrivalStatus,
                                            v.departureStatus,
                                        v.recordedAt, schedules);
      var filed := if v.stopPointRef in events.stopVisits then events.stopVisits[v.stopPointRef] else map[];
      events := events.(stopVisits := events.stopVisits[v.stopPointRef := filed[v.itemIdentifier := event]]);
    }

    method SetUpdateEvents(visits: seq<XMLMonitoredStopVisit>)
      modifies this
      ensures events == WithVisits(context, old(events), visits)
    {
      for i := 0 to |visits|
        invariant events == WithVisits(context, old(events), visits[..i])
      {
        BuildUpdateEvents(visits[i]);
        assert visits[..i + 1][..i] == visits[..i];
      }
      assert visits[..|visits|] == visits;
    }

    /** SetStopVisitCancellationEvents: the monitoring references and items of the cancellations. */
    method SetStopVisitCancellationEvents(cancellations: seq<(string, string)>)
      modifies this
      ensures events.cancellations == old(events).cancellations + Items(context.kind, cancellations)
      ensures events == old(events).(cancellations := events.cancellations, monitoringRefs := events.monitoringRefs)
      ensures forall ref :: ref in events.monitoringRefs <==>
                ref in old(events).monitoringRefs || exists i :: 0 <= i < |cancellations| && cancellations[i].0 == ref
    {
      for i := 0 to |cancellations|
        invariant events.cancellations == old(events).cancellations + Items(context.kind, cancellations[..i])
        invariant events == old(events).(cancellations := events.cancellations, monitoringRefs := events.monitoringRefs)
        invariant forall ref :: ref in events.monitoringRefs <==>
                    ref in old(events).monitoringRefs || exists j :: 0 <= j < i && cancellations[j].0 == ref
      {
        assert cancellations[..i + 1][..i] == cancellations[..i];
        events := events.(monitoringRefs := events.monitoringRefs + {cancellations[i].0},
                          cancellations := events.cancellations + [ObjectId(context.kind, cancellations[i].1)]);
      }
      assert cancellations[..|cancellations|] == cancellations;
    }
  }

  function Items(kind: string, cancellations: seq<(string, string)>): seq<ObjectId> {
    if cancellations == [] then []
    else Items(kind, cancellations[..|cancellations| - 1]) + [ObjectId(kind, cancellations[|cancellations| - 1].1)]
  }

  // ---------------------------------------------------------------- the batch is closed

  ghost predicate StopAreaFiled(c: Context, events: Events, ref: string) {
    ref in events.stopAreas && events.stopAreas[ref].objectId == ObjectId(c.kind, ref)
  }

  ghost predicate LineFiled(c: Context, events: Events, ref: string) {
    ref in events.lines && events.lines[ref].objectId == ObjectId(c.kind, ref)
  }

  ghost predicate JourneyFiled(c: Context, events: Events, ref: string) {
    ref in events.vehicleJourneys && events.vehicleJourneys[ref].objectId == ObjectId(c.kind, ref)
  }

  /** Every event refers to events of the batch, and is filed under its own reference. */
  ghost predicate Closed(c: Context, events: Events) {
    && (forall ref :: ref in events.stopAreas ==>
          StopAreaFiled(c, events, ref) && events.stopAreas[ref].parentObjectId == ParentOf(c, ObjectId(c.kind, ref)))
    && (forall ref :: ref in events.lines ==> LineFiled(c, events, ref))
    && (forall ref :: ref in events.vehicleJourneys ==> JourneyFiled(c, events, ref) && JourneyClosed(c, events, ref))
    && (forall stop, item :: stop in events.stopVisits && item in events.stopVisits[stop] ==>
        VisitClosed(c, events, stop, item))
  }

  ghost predicate JourneyClosed(c: Context, events: Events, ref: string)
    requires ref in events.vehicleJourneys
  {
    exists line :: LineFiled(c, events, line) && events.vehicleJourneys[ref].lineObjectId == ObjectId(c.kind, line)
  }

  ghost predicate VisitClosed(c: Context, events: Events, stop: string, item: string)
    requires stop in events.stopVisits && item in events.stopVisits[stop]
  {
    var event := events.stopVisits[stop][item];
    && event.objectId == ObjectId(c.kind, item)
    && event.stopAreaObjectId == ObjectId(c.kind, stop) && StopAreaFiled(c, events, stop)
    && exists journey :: JourneyFiled(c, events, journey) && event.vehicleJourneyObjectId == ObjectId(c.kind, journey)
  }

  lemma VisitKeepsClosed(c: Context, events: Events, v: XMLMonitoredStopVisit)
    requires Closed(c, events)
    ensures Closed(c, WithVisit(c, events, v))
  {
    var after := WithVisit(c, events, v);
    forall ref | ref in after.stopAreas
      ensures StopAreaFiled(c, after, ref) && after.stopAreas[ref].parentObjectId == ParentOf(c, ObjectId(c.kind, ref))
    {
      assert ref in events.stopAreas ==> StopAreaFiled(c, events, ref);
    }
    forall ref | ref in after.lines ensures LineFiled(c, after, ref) {
      assert ref in events.lines ==> LineFiled(c, events, ref);
    }
    forall ref | ref in after.vehicleJourneys ensures JourneyFiled(c, after, ref) && JourneyClosed(c, after, ref) {
      JourneyStaysClosed(c, events, v, ref);
    }
    forall stop, item | stop in after.stopVisits && item in after.stopVisits[stop]
        ensures VisitClosed(c, after, stop, item) {
      VisitStaysClosed(c, events, v, stop, item);
    }
  }

  lemma JourneyStaysClosed(c: Context, events: Events, v: XMLMonitoredStopVisit, ref: string)
    requires Closed(c, events) && ref in WithVisit(c, events, v).vehicleJourneys
    ensures JourneyFiled(c, WithVisit(c, events, v), ref) && JourneyClosed(c, WithVisit(c, events, v), ref)
  {
    var after := WithVisit(c, events, v);
    if ref in events.vehicleJourneys {
      assert JourneyFiled(c, events, ref) && JourneyClosed(c, events, ref);
      var line :| LineFiled(c, events, line) && events.vehicleJourneys[ref].lineObjectId == ObjectId(c.kind, line);
      assert LineFiled(c, after, line);
    } else {
      assert v.lineRef in events.lines ==> LineFiled(c, events, v.lineRef);
      assert LineFiled(c, after, v.lineRef);
    }
  }

  lemma VisitStaysClosed(c: Context, events: Events, v: XMLMonitoredStopVisit, stop: string, item: string)
    requires Closed(c, events)
    requires stop in WithVisit(c, events, v).stopVisits && item in WithVisit(c, events, v).stopVisits[stop]
    ensures VisitClosed(c, WithVisit(c, events, v), stop, item)
  {
    var after := WithVisit(c, events, v);
    if stop in events.stopVisits && item in events.stopVisits[stop] {
      assert VisitClosed(c, events, stop, item);
      var journey :| JourneyFiled(c, events, journey)
          && events.stopVisits[stop][item].vehicleJourneyObjectId == ObjectId(c.kind, journey);
      assert StopAreaFiled(c, after, stop) && JourneyFiled(c, after, journey);
    } else {
      assert stop in events.stopAreas ==> StopAreaFiled(c, events, stop);
      assert v.datedVehicleJourneyRef in events.vehicleJourneys ==> JourneyFiled(c, events, v.datedVehicleJourneyRef);
      assert StopAreaFiled(c, after, stop) && JourneyFiled(c, after, v.datedVehicleJourneyRef);
    }
  }

  /** The batch built from any visits is closed under references. */
  lemma {:induction false} BatchIsClosed(c: Context, visits: seq<XMLMonitoredStopVisit>)
    ensures Closed(c, WithVisits(c, NO_EVENTS, visits))
  {
    if visits != [] {
      BatchIsClosed(c, visits[..|visits| - 1]);
      VisitKeepsClosed(c, WithVisits(c, NO_EVENTS, visits[..|visits| - 1]), visits[|visits| - 1]);
    }
  }

  // ---------------------------------------------------------------- the first visit counts

  /** The parts of a visit under which events are filed. */
  datatype Field = StopPoint | LineField | Journey | Item(stop: string)
  {
    predicate Reads(v: XMLMonitoredStopVisit, ref: string) {
      match this
      case StopPoint => v.stopPointRef == ref
      case LineField => v.lineRef == ref
      case Journey => v.datedVehicleJourneyRef == ref
      case Item(stop) => v.stopPointRef == stop && v.itemIdentifier == ref
    }
  }

  function FirstWith(visits: seq<XMLMonitoredStopVisit>, field: Field, ref: string): Option<XMLMonitoredStopVisit> {
    if visits == [] then None
    else if field.Reads(visits[0], ref) then Some(visits[0])
    else FirstWith(visits[1..], field, ref)
  }

  lemma {:induction false} FirstWithOnceAppended(visits: seq<XMLMonitoredStopVisit>, last: XMLMonitoredStopVisit,
                                                 field: Field, ref: string)
    ensures FirstWith(visits + [last], field, ref) ==
            if FirstWith(visits, field, ref).Some? then FirstWith(visits, field, ref)
            else if field.Reads(last, ref) then Some(last) else None
  {
    if visits == [] {
      assert visits + [last] == [last];
    } else {
      FirstWithOnceAppended(visits[1..], last, field, ref);
      assert (visits + [last])[1..] == visits[1..] + [last];
    }
  }

  /** Each reference has one event, made from the first visit that has the reference. */
  ghost predicate FromFirst(c: Context, events: Events, visits: seq<XMLMonitoredStopVisit>, ref: string) {
    && (match FirstWith(visits, StopPoint, ref)
        case Some(v) => ref in events.stopAreas && events.stopAreas[ref] == StopAreaEvent(c, v)
        case None => ref !in events.stopAreas)
    && (match FirstWith(visits, LineField, ref)
        case Some(v) => ref in events.lines && events.lines[ref] == LineEvent(c, v)
        case None => ref !in events.lines)
    && (match FirstWith(visits, Journey, ref)
        case Some(v) => ref in events.vehicleJourneys && events.vehicleJourneys[ref] == VehicleJourneyEvent(c, v)
        case None => ref !in events.vehicleJourneys)
  }

  ghost predicate VisitFromFirst(c: Context, events: Events, visits: seq<XMLMonitoredStopVisit>, stop: string,
                                 item: string) {
    match FirstWith(visits, Item(stop), item)
    case Some(v) => item in VisitsAt(events, stop) && VisitsAt(events, stop)[item] == StopVisitEvent(c, v)
    case None => item !in VisitsAt(events, stop)
  }

  lemma {:induction false} FirstVisitCounts(c: Context, visits: seq<XMLMonitoredStopVisit>, ref: string, item: string)
    ensures FromFirst(c, WithVisits(c, NO_EVENTS, visits), visits, ref)
    ensures VisitFromFirst(c, WithVisits(c, NO_EVENTS, visits), visits, ref, item)
  {
    if visits != [] {
      var before, last := visits[..|visits| - 1], visits[|visits| - 1];
      assert visits == before + [last];
      FirstVisitCounts(c, before, ref, item);
      var events := WithVisits(c, NO_EVENTS, before);
      assert WithVisits(c, NO_EVENTS, visits) == WithVisit(c, events, last);
      OneMoreFromFirst(c, events, before, last, ref);
      OneMoreVisitFromFirst(c, events, before, last, ref, item);
    }
  }

  lemma OneMoreFromFirst(c: Context, events: Events, before: seq<XMLMonitoredStopVisit>, last: XMLMonitoredStopVisit,
                         ref: string)
    requires FromFirst(c, events, before, ref)
    ensures FromFirst(c, WithVisit(c, events, last), before + [last], ref)
  {
    FirstWithOnceAppended(before, last, StopPoint, ref);
    FirstWithOnceAppended(before, last, LineField, ref);
    FirstWithOnceAppended(before, last, Journey, ref);
  }

  lemma OneMoreVisitFromFirst(c: Context, events: Events, before: seq<XMLMonitoredStopVisit>,
                              last: XMLMonitoredStopVisit, stop: string, item: string)
    requires VisitFromFirst(c, events, before, stop, item)
    ensures VisitFromFirst(c, WithVisit(c, events, last), before + [last], stop, item)
  {
    FirstWithOnceAppended(before, last, Item(stop), item);
  }

  /** Every visit of the delivery has its event in the batch. */
  lemma EveryVisitHasEvent(c: Context, visits: seq<XMLMonitoredStopVisit>, i: nat)
    requires i < |visits|
    ensures visits[i].itemIdentifier in VisitsAt(WithVisits(c, NO_EVENTS, visits), visits[i].stopPointRef)
  {
    FirstVisitCounts(c, visits, visits[i].stopPointRef, visits[i].itemIdentifier);
    FirstExists(visits, i, Item(visits[i].stopPointRef), visits[i].itemIdentifier);
  }

  lemma {:induction false} FirstExists(visits: seq<XMLMonitoredStopVisit>, i: nat, field: Field, ref: string)
    requires i < |visits| && field.Reads(visits[i], ref)
    ensures FirstWith(visits, field, ref).Some?
  {
    if i > 0 {
      FirstExists(visits[1..], i - 1, field, ref);
    }
  }
}
