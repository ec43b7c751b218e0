/** Deliveries of stop monitoring: the events of a batch are handled in the order of their
    dependencies, each map of events in any order
    (core/siri_stop_monitoring_subscription_collector.go). */
module StopMonitoringCollector {
  import opened Common
  import opened StopVisit
  import opened StopArea
  import opened MemoryStopAreas
  import opened ParentAssignment
  import opened Network
  import opened UpdateEventBuilder
  import opened UpdateManager
  import opened Ingestion
  import opened Tellings
  import O = ObjectIdIndex

  /** The generator has not given any identifier that is in use, nor will it. */
  ghost predicate FreshFrom(w: World, generator: Generator, n: nat) {
    forall i: nat :: i >= n ==> Unused(w, generator(i))
  }

  lemma FreshStep(w: World, w': World, generator: Generator, n: nat)
    requires FreshFrom(w, generator, n) && Distinct(generator) && OnlyUses(w, w', generator(n))
    ensures FreshFrom(w', generator, n + 1)
  {
    forall i: nat | i >= n + 1 ensures Unused(w', generator(i)) {
      assert generator(i) != generator(n);
    }
  }

  lemma FreshStays(w: World, w': World, generator: Generator, n: nat)
    requires FreshFrom(w, generator, n) && OnlyUses(w, w', NO_ID)
    ensures FreshFrom(w', generator, n)
  {
  }

  /** What holds between any two events of the batch. */
  ghost predicate Ready(w: World, c: Context, generator: Generator, n: nat) {
    && Sound(w, c.kind) && FreshFrom(w, generator, n)
    && (c.originStopArea.value != "" ==> AreasSound(w.areas, w.areaIndex, c.originStopArea.kind))
  }

  /** Stored objects have stayed; if what the batch is about was known, nothing was created. */
  ghost predicate Progress(w: World, w': World, known: bool) {
    Persists(w, w') && (known ==> SameEntities(w, w'))
  }

  lemma NothingIsProgress(w: World, known: bool)
    ensures Progress(w, w, known)
  {
  }

  lemma ProgressStep(a: World, b: World, c: World, known: bool)
    requires Progress(a, b, known) && Persists(b, c) && (known ==> SameEntities(b, c))
    ensures Progress(a, c, known)
  {
    PersistsTransitive(a, b, c);
  }

  // ---------------------------------------------------------------- what a batch makes known

  ghost predicate AreasKnown(w: World, events: map<string, StopAreaUpdateEvent>) {
    forall ref :: ref in events ==> AreaKnown(w, events[ref].objectId)
  }

  ghost predicate LinesKnown(w: World, events: map<string, LineUpdateEvent>) {
    forall ref :: ref in events ==> LineKnown(w, events[ref].objectId)
  }

  ghost predicate JourneysKnown(w: World, events: map<string, VehicleJourneyUpdateEvent>) {
    forall ref :: ref in events ==> JourneyKnown(w, events[ref].objectId)
  }

  ghost predicate VisitsKnown(w: World, events: map<string, StopVisitUpdateEvent>) {
    forall item :: item in events ==> VisitKnown(w, events[item].objectId)
  }

  ghost predicate AllVisitsKnown(w: World, events: map<string, map<string, StopVisitUpdateEvent>>) {
    forall stop :: stop in events ==> VisitsKnown(w, events[stop])
  }

  /** Every object that the batch is about is stored. */
  ghost predicate AllKnown(w: World, events: Events) {
    AreasKnown(w, events.stopAreas) && LinesKnown(w, events.lines) && JourneysKnown(w, events.vehicleJourneys)
    && AllVisitsKnown(w, events.stopVisits)
  }

  /** The part of it before the stop visits. */
  ghost predicate NetworkKnown(w: World, events: Events) {
    AreasKnown(w, events.stopAreas) && LinesKnown(w, events.lines) && JourneysKnown(w, events.vehicleJourneys)
  }

  ghost predicate AllMadeFor(c: Context, events: map<string, StopAreaUpdateEvent>) {
    forall ref :: ref in events ==> MadeFor(c, events[ref], ref)
  }

  ghost predicate LinesOfKind(c: Context, events: map<string, LineUpdateEvent>) {
    forall ref :: ref in events ==> events[ref].objectId.kind == c.kind
  }

  ghost predicate OnLines(w: World, c: Context, events: map<string, VehicleJourneyUpdateEvent>) {
    forall ref :: ref in events ==> events[ref].objectId.kind == c.kind && LineKnown(w, events[ref].lineObjectId)
  }

  ghost predicate AllPlaced(w: World, c: Context, events: map<string, map<string, StopVisitUpdateEvent>>) {
    forall stop :: stop in events ==> VisitsPlaced(w, c, events[stop])
  }

  ghost predicate VisitsPlaced(w: World, c: Context, events: map<string, StopVisitUpdateEvent>) {
    forall item :: item in events ==> Placed(w, c, events[item])
  }

  ghost predicate KnownAmong(w: World, events: map<string, StopVisitUpdateEvent>, items: set<string>) {
    forall item :: item in items ==> item in events && VisitKnown(w, events[item].objectId)
  }

  ghost predicate AllKnownAmong(w: World, events: map<string, map<string, StopVisitUpdateEvent>>, stops: set<string>) {
    forall stop :: stop in stops ==> stop in events && VisitsKnown(w, events[stop])
  }

  lemma AreasStayKnown(w: World, w': World, c: Context, events: map<string, StopAreaUpdateEvent>)
    requires Sound(w, c.kind) && Sound(w', c.kind) && Persists(w, w')
    requires forall ref :: ref in events ==> events[ref].objectId.kind == c.kind
    ensures AreasKnown(w, events) ==> AreasKnown(w', events)
  {
    forall ref | ref in events ensures AreaKnown(w, events[ref].objectId) ==> AreaKnown(w', events[ref].objectId) {
      AreaStaysKnown(w, w', c.kind, events[ref].objectId);
    }
  }

  lemma JourneysStayKnown(w: World, w': World, c: Context, events: map<string, VehicleJourneyUpdateEvent>)
    requires Sound(w, c.kind) && Sound(w', c.kind) && Persists(w, w')
    requires forall ref :: ref in events ==> events[ref].objectId.kind == c.kind
    ensures JourneysKnown(w, events) ==> JourneysKnown(w', events)
  {
    forall ref | ref in events ensures JourneyKnown(w, events[ref].objectId) ==>
        JourneyKnown(w', events[ref].objectId) {
      JourneyStaysKnown(w, w', c.kind, events[ref].objectId);
    }
  }

  lemma VisitsStayKnown(w: World, w': World, c: Context, events: map<string, StopVisitUpdateEvent>)
    requires Sound(w, c.kind) && Sound(w', c.kind) && Persists(w, w')
    requires forall item :: item in events ==> events[item].objectId.kind == c.kind
    ensures VisitsKnown(w, events) ==> VisitsKnown(w', events)
  {
    forall item | item in events ensures VisitKnown(w, events[item].objectId) ==>
        VisitKnown(w', events[item].objectId) {
      VisitStaysKnown(w, w', c.kind, events[item].objectId);
    }
  }

  lemma StopAreaStep(w: World, rank: string -> nat, c: Context, refs: set<string>, ref: string,
                     event: StopAreaUpdateEvent, area: StopArea,
                     w': World, rank': string -> nat, generator: Generator, n: nat)
    requires Ready(w, c, generator, n) && Distinct(generator) && Ranked(w.areas, rank) && Ranked(w'.areas, rank')
    requires ref in refs && MadeFor(c, event, ref) && Attachable(w, rank, c, refs)
    requires Unused(w, generator(n)) && Fits(w, event, area, generator(n)) && Replaced(w, area, w')
    requires StillOwned(w.areas, w.areaIndex, w'.areas, w'.areaIndex)
    ensures Ready(w', c, generator, n + 1) && Attachable(w', rank', c, refs)
    ensures Persists(w, w') && AreaKnown(w', event.objectId)
    ensures AreaKnown(w, event.objectId) ==> SameEntities(w, w')
  {
    AreaStepIsSound(w, event, area, generator(n), w', c.kind);
    assert c.originStopArea.value != "" ==> AreasSound(w'.areas, w'.areaIndex, c.originStopArea.kind);
    AttachableStep(w, rank, c, refs, ref, event, area, generator(n), w', rank');
    FreshStep(w, w', generator, n);
  }

  lemma StopVisitStep(w: World, rank: string -> nat, c: Context, refs: set<string>, event: StopVisitUpdateEvent,
                      now: Time, hash: Hash,
                      w': World, generator: Generator, n: nat)
    requires Ready(w, c, generator, n) && Distinct(generator) && c.kind != DEFAULT_KIND && Unused(w, generator(n))
    requires Ranked(w.areas, rank) && Attachable(w, rank, c, refs)
    requires event.objectId.kind == c.kind && VisitIsPlaced(w, event)
    requires w'.areas == AreasAfterVisit(w, rank, event) && w'.lines == w.lines
    requires w'.journeys == JourneyMonitored(w, event)
    requires w'.visits == VisitHandled(w, event, now, generator(n), hash)
    requires StillOwned(w.areas, w.areaIndex, w'.areas, w'.areaIndex)
    ensures Ready(w', c, generator, n + 1) && Ranked(w'.areas, rank) && Attachable(w', rank, c, refs)
    ensures RefersTo(c.kind, event) ==> ItemMerged(w, w', c.kind, event, now)
    ensures Persists(w, w') && VisitKnown(w', event.objectId)
    ensures VisitKnown(w, event.objectId) ==> SameEntities(w, w')
  {
    VisitStepIsSound(w, rank, event, now, generator(n), hash, w'.areaIndex, c.kind);
    VisitKeepsGraph(w, rank, event);
    assert c.originStopArea.value != "" ==> AreasSound(w'.areas, w'.areaIndex, c.originStopArea.kind);
    VersionsAreAttachable(w, rank, c, refs, w');
    FreshStep(w, w', generator, n);
    if RefersTo(c.kind, event) {
      PersistsPlaces(w, w', event, c.kind);
      EventMerges(w, w', event, now, generator(n), hash, c.kind);
    }
  }

  // ---------------------------------------------------------------- the collector

  class StopMonitoringCollector {
    const updateManager: UpdateManager
    const newUUID: Generator
    var issued: nat

    constructor (updateManager: UpdateManager, newUUID: Generator, issued: nat)
      ensures this.updateManager == updateManager && this.newUUID == newUUID && this.issued == issued
    {
      this.updateManager := updateManager;
      this.newUUID := newUUID;
      this.issued := issued;
    }

    ghost predicate Valid(c: Context)
      reads this, updateManager, updateManager.stopAreas, updateManager.stopAreas.byObjectId
    {
      && updateManager.Valid() && Distinct(newUUID) && c.kind != DEFAULT_KIND
      && Ready(Contents(), c, newUUID, issued)
    }

    ghost function Contents(): World
      reads updateManager, updateManager.stopAreas, updateManager.stopAreas.byObjectId
    {
      updateManager.Contents()
    }

    /** One stop area event. */
    method HandleStopArea(event: StopAreaUpdateEvent, now: Time, ghost c: Context, ghost refs: set<string>,
                          ghost ref: string, ghost rank: string -> nat)
      returns (ghost rank': string -> nat)
      requires Valid(c) && Ranked(Contents().areas, rank)
      requires ref in refs && MadeFor(c, event, ref) && Attachable(Contents(), rank, c, refs)
      modifies this`issued, updateManager.stopAreas`byIdentifier, updateManager.stopAreas.byObjectId
      ensures Valid(c) && Ranked(Contents().areas, rank') && Attachable(Contents(), rank', c, refs)
      ensures Persists(old(Contents()), Contents()) && AreaKnown(Contents(), event.objectId)
      ensures AreaKnown(old(Contents()), event.objectId) ==> SameEntities(old(Contents()), Contents())
    {
      ghost var w, newId := Contents(), newUUID(issued);
      assert Unused(w, newId) && RefAttachable(w, rank, c, ref);
      ghost var area := UpdatedArea(w, event, now, newId);
      UpdatedAreaFits(w, event, now, newId);
      AttachableIsAllowed(w, rank, c, ref, event, area, newId);
      rank' := updateManager.UpdateStopArea(event, now, newUUID(issued), rank);
      SettledIsReplaced(w, area, rank', event.origin, Contents());
      ghost var w' := Contents();
      StopAreaStep(w, rank, c, refs, ref, event, area, w', rank', newUUID, issued);
      issued := issued + 1;
      assert Contents() == w';
    }

    method BroadcastStopAreas(events: map<string, StopAreaUpdateEvent>, now: Time, ghost c: Context,
                              ghost rank: string -> nat)
      returns (ghost rank': string -> nat)
      requires Valid(c) && Ranked(Contents().areas, rank)
      requires AllMadeFor(c, events)
      requires Attachable(Contents(), rank, c, events.Keys)
      modifies this`issued, updateManager.stopAreas`byIdentifier, updateManager.stopAreas.byObjectId
      ensures Valid(c) && Ranked(Contents().areas, rank') && Attachable(Contents(), rank', c, events.Keys)
      ensures AreasKnown(Contents(), events)
      ensures Progress(old(Contents()), Contents(), AreasKnown(old(Contents()), events))
    {
      rank' := rank;
      ghost var w0 := Contents();
      ghost var w := w0;
      NoAreaHandled(w0, c, events);
      var refs := Enumerate(events.Keys);
      for i := 0 to |refs|
        invariant Valid(c) && Ranked(Contents().areas, rank') && Attachable(Contents(), rank', c, events.Keys)
        invariant w == Contents() && AreasHandled(w0, w, c, events, refs, i)
      {
        var ref := refs[i];
        assert ref in events.Keys && MadeFor(c, events[ref], ref);
        ghost var before := w;
        rank' := HandleStopArea(events[ref], now, c, events.Keys, ref, rank');
        w := Contents();
        OneMoreAreaHandled(w0, before, w, c, events, refs, i);
      }
      PrefixIsAll(refs, events.Keys);
    }

    method BroadcastLines(events: map<string, LineUpdateEvent>, now: Time, ghost c: Context)
      requires Valid(c) && LinesOfKind(c, events)
      modifies this`issued, updateManager`lines
      ensures Valid(c) && LinesKnown(Contents(), events)
      ensures Progress(old(Contents()), Contents(), LinesKnown(old(Contents()), events))
      ensures Contents() == old(Contents()).(lines := Contents().lines)
    {
      ghost var w0 := Contents();
      ghost var known := LinesKnown(w0, events);
      ghost var w := w0;
      NothingIsProgress(w0, known);
      var refs := Enumerate(events.Keys);
      for i := 0 to |refs|
        invariant Valid(c) && w == Contents() && Progress(w0, w, known) && Contents() == w0.(lines := Contents().lines)
        invariant forall ref :: ref in Prefix(refs, i) ==> ref in events && LineKnown(Contents(), events[ref].objectId)
      {
        var ref := refs[i];
        assert ref in events.Keys;
        PrefixGrows(refs, i);
        ghost var before := w;
        LineStaysKnown(w0, before, c.kind, events[ref].objectId);
        HandleLine(events[ref], now, c);
        w := Contents();
        ProgressStep(w0, before, w, known);
        forall other | other in Prefix(refs, i) ensures other in events && LineKnown(w, events[other].objectId) {
          LineStaysKnown(before, w, c.kind, events[other].objectId);
        }
      }
      PrefixIsAll(refs, events.Keys);
    }

    method HandleLine(event: LineUpdateEvent, now: Time, ghost c: Context)
      requires Valid(c) && event.objectId.kind == c.kind
      modifies this`issued, updateManager`lines
      ensures Valid(c) && Persists(old(Contents()), Contents()) && LineKnown(Contents(), event.objectId)
      ensures LineKnown(old(Contents()), event.objectId) ==> SameEntities(old(Contents()), Contents())
      ensures Contents() == old(Contents()).(lines := Contents().lines)
    {
      ghost var w := Contents();
      assert Unused(w, newUUID(issued));
      LineStepIsSound(w, event, now, newUUID(issued), updateManager.hash, c.kind);
      updateManager.UpdateLine(event, now, newUUID(issued));
      FreshStep(w, Contents(), newUUID, issued);
      issued := issued + 1;
    }

    method BroadcastVehicleJourneys(events: map<string, VehicleJourneyUpdateEvent>, ghost c: Context)
      requires Valid(c) && OnLines(Contents(), c, events)
      modifies this`issued, updateManager`vehicleJourneys
      ensures Valid(c) && JourneysKnown(Contents(), events)
      ensures Progress(old(Contents()), Contents(), JourneysKnown(old(Contents()), events))
      ensures Contents() == old(Contents()).(journeys := Contents().journeys)
    {
      ghost var w0 := Contents();
      ghost var known := JourneysKnown(w0, events);
      ghost var w := w0;
      NothingIsProgress(w0, known);
      var refs := Enumerate(events.Keys);
      for i := 0 to |refs|
        invariant Valid(c) && w == Contents() && Progress(w0, w, known)
        invariant Contents() == w0.(journeys := Contents().journeys)
        invariant forall ref :: ref in Prefix(refs, i) ==>
                  ref in events && JourneyKnown(Contents(), events[ref].objectId)
      {
        var ref := refs[i];
        assert ref in events.Keys;
        PrefixGrows(refs, i);
        ghost var before := w;
        JourneyStaysKnown(w0, before, c.kind, events[ref].objectId);
        HandleVehicleJourney(events[ref], c);
        w := Contents();
        ProgressStep(w0, before, w, known);
        forall other | other in Prefix(refs, i) ensures other in events && JourneyKnown(w, events[other].objectId) {
          JourneyStaysKnown(before, w, c.kind, events[other].objectId);
        }
      }
      PrefixIsAll(refs, events.Keys);
    }

    method HandleVehicleJourney(event: VehicleJourneyUpdateEvent, ghost c: Context)
      requires Valid(c) && event.objectId.kind == c.kind && LineKnown(Contents(), event.lineObjectId)
      modifies this`issued, updateManager`vehicleJourneys
      ensures Valid(c) && Persists(old(Contents()), Contents()) && JourneyKnown(Contents(), event.objectId)
      ensures JourneyKnown(old(Contents()), event.objectId) ==> SameEntities(old(Contents()), Contents())
      ensures Contents() == old(Contents()).(journeys := Contents().journeys)
    {
      ghost var w := Contents();
      assert Unused(w, newUUID(issued));
      JourneyStepIsSound(w, event, newUUID(issued), updateManager.hash, c.kind);
      updateManager.UpdateVehicleJourney(event, newUUID(issued));
      FreshStep(w, Contents(), newUUID, issued);
      issued := issued + 1;
    }

    /** One stop visit event whose stop area and journey are known. */
    method HandleStopVisit(event: StopVisitUpdateEvent, now: Time, ghost c: Context, ghost refs: set<string>,
                           ghost rank: string -> nat)
      requires Valid(c) && Ranked(Contents().areas, rank) && Attachable(Contents(), rank, c, refs)
      requires event.objectId.kind == c.kind && VisitIsPlaced(Contents(), event)
      modifies this`issued, updateManager`vehicleJourneys, updateManager`stopVisits,
               updateManager.stopAreas`byIdentifier, updateManager.stopAreas.byObjectId
      ensures Valid(c) && Ranked(Contents().areas, rank) && Attachable(Contents(), rank, c, refs)
      ensures Persists(old(Contents()), Contents()) && VisitKnown(Contents(), event.objectId)
      ensures VisitKnown(old(Contents()), event.objectId) ==> SameEntities(old(Contents()), Contents())
      ensures RefersTo(c.kind, event) ==> ItemMerged(old(Contents()), Contents(), c.kind, event, now)
    {
      ghost var w := Contents();
      assert Unused(w, newUUID(issued));
      updateManager.UpdateStopVisit(event, now, newUUID(issued), rank);
      ghost var w' := Contents();
      StopVisitStep(w, rank, c, refs, event, now, updateManager.hash, w', newUUID, issued);
      issued := issued + 1;
      assert Contents() == w';
    }

    /** The events under one stop point. */
    method BroadcastStopVisits(events: map<string, StopVisitUpdateEvent>, now: Time, ghost c: Context,
                               ghost refs: set<string>, ghost rank: string -> nat)
      requires Valid(c) && Ranked(Contents().areas, rank) && Attachable(Contents(), rank, c, refs)
      requires VisitsPlaced(Contents(), c, events) && FiledByItem(c.kind, events)
      modifies this`issued, updateManager`vehicleJourneys, updateManager`stopVisits,
               updateManager.stopAreas`byIdentifier, updateManager.stopAreas.byObjectId
      ensures Valid(c) && Ranked(Contents().areas, rank) && Attachable(Contents(), rank, c, refs)
      ensures VisitsKnown(Contents(), events)
      ensures Progress(old(Contents()), Contents(), VisitsKnown(old(Contents()), events))
      ensures StopMerged(old(Contents()), Contents(), c.kind, events, events.Keys, now)
    {
      ghost var w0 := Contents();
      ghost var w := w0;
      NoItemHandled(w0, c, events, now);
      var items := Enumerate(events.Keys);
      for i := 0 to |items|
        invariant Valid(c) && Ranked(Contents().areas, rank) && Attachable(Contents(), rank, c, refs)
        invariant w == Contents() && ItemsHandled(w0, w, c, events, items, i, now)
      {
        ItemIsNext(w0, w, c, events, items, i, now);
        ghost var before := w;
        HandleStopVisit(events[items[i]], now, c, refs, rank);
        w := Contents();
        OneMoreItemHandled(w0, before, w, c, events, items, i, now);
      }
      AllItemsHandled(w0, w, c, events, items, now);
    }

    /** All stop visit events, stop point by stop point. */
    method BroadcastAllStopVisits(events: map<string, map<string, StopVisitUpdateEvent>>, now: Time,
                                  ghost c: Context, ghost refs: set<string>,
                                  ghost rank: string -> nat)
      returns (ghost order: seq<string>)
      requires Valid(c) && Ranked(Contents().areas, rank) && Attachable(Contents(), rank, c, refs)
      requires AllPlaced(Contents(), c, events) && AllFiledByItem(c.kind, events)
      modifies this`issued, updateManager`vehicleJourneys, updateManager`stopVisits,
               updateManager.stopAreas`byIdentifier, updateManager.stopAreas.byObjectId
      ensures Valid(c) && Ranked(Contents().areas, rank) && Attachable(Contents(), rank, c, refs)
      ensures AllVisitsKnown(Contents(), events)
      ensures Progress(old(Contents()), Contents(), AllVisitsKnown(old(Contents()), events))
      ensures Lists(order, events.Keys) && AllMerged(old(Contents()), Contents(), c.kind, events, order, now)
    {
      ghost var w0 := Contents();
      ghost var w := w0;
      NoStopHandled(w0, c, events, now);
      var stops := Enumerate(events.Keys);
      for i := 0 to |stops|
        invariant Valid(c) && Ranked(Contents().areas, rank) && Attachable(Contents(), rank, c, refs)
        invariant w == Contents() && StopsHandled(w0, w, c, events, stops, i, now)
      {
        StopIsNext(w0, w, c, events, stops, i, now);
        ghost var before := w;
        BroadcastStopVisits(events[stops[i]], now, c, refs, rank);
        w := Contents();
        OneMoreStopHandled(w0, before, w, c, events, stops, i, now);
      }
      AllStopsHandled(w0, w, c, events, stops, now);
      order := stops;
    }

    /** broadcastUpdateEvents. */
    method BroadcastUpdateEvents(events: Events, now: Time, ghost c: Context,
                                 ghost rank: string -> nat)
      returns (ghost rank': string -> nat, ghost order: seq<string>, ghost merged: World)
      requires Valid(c) && Ranked(Contents().areas, rank)
      requires Closed(c, events) && forall o :: o in events.cancellations ==> o.kind == c.kind
      requires Attachable(Contents(), rank, c, events.stopAreas.Keys)
      modifies this`issued, updateManager`lines, updateManager`vehicleJourneys, updateManager`stopVisits,
               updateManager.stopAreas`byIdentifier, updateManager.stopAreas.byObjectId
      ensures Valid(c) && Ranked(Contents().areas, rank') && Attachable(Contents(), rank', c, events.stopAreas.Keys)
      ensures AllKnown(Contents(), events)
      ensures Progress(old(Contents()), Contents(), AllKnown(old(Contents()), events))
      ensures Lists(order, events.stopVisits.Keys)
      ensures MergedThenEnded(old(Contents()), merged, Contents(), c.kind, events, order, now)
    {
      ghost var w0 := Contents();
      rank' := BroadcastNetwork(events, now, c, rank);
      ghost var w1 := Contents();
      VisitsArePlaced(c, events, w1);
      VisitsAreFiled(c, events);
      order := BroadcastAllStopVisits(events.stopVisits, now, c, events.stopAreas.Keys, rank');
      ghost var w2 := Contents();
      merged := w2;
      SameVisitsMerge(w0, w1, w2, c.kind, events.stopVisits, order, now);
      BroadcastCancellations(events.cancellations, c);
      BatchIsKnown(c, events, w0, w1, w2, Contents());
      SameAreasAreAttachable(w2, rank', c, events.stopAreas.Keys, Contents());
    }

    /** One delivery of HandleNotifyStopMonitoring. From a sound model in which no area that
        would get the origin as its parent is above the origin, every item of the delivery
        ends up resolving to a visit whose stop area, journey and line are stored; the model
        stays sound, ready for the next delivery; and nothing is created if the objects of
        the batch were known. */
    method HandleDelivery(c: Context, visits: seq<XMLMonitoredStopVisit>, cancellations: seq<(string, string)>,
                          now: Time, ghost rank: string -> nat)
      returns (ghost rank': string -> nat, ghost order: seq<string>)
      requires Valid(c) && Ranked(Contents().areas, rank) && Attachable(Contents(), rank, c, StopPoints(visits))
      modifies this`issued, updateManager`lines, updateManager`vehicleJourneys, updateManager`stopVisits,
               updateManager.stopAreas`byIdentifier, updateManager.stopAreas.byObjectId
      ensures Valid(c) && Ranked(Contents().areas, rank') && Attachable(Contents(), rank', c, StopPoints(visits))
      ensures forall v :: v in visits ==> ItemResolves(Contents(), c, v.itemIdentifier)
      ensures Lists(order, StopPoints(visits))
      ensures DeliveryStored(old(Contents()), Contents(), c, visits, cancellations, order, now)
      ensures AllKnown(Contents(), WithVisits(c, NO_EVENTS, visits))
      ensures Progress(old(Contents()), Contents(), AllKnown(old(Contents()), WithVisits(c, NO_EVENTS, visits)))
    {
      ghost var w := Contents();
      var events := BuildBatch(c, visits, cancellations);
      StopPointsOfBatch(c, visits);
      ghost var merged;
      rank', order, merged := BroadcastUpdateEvents(events, now, c, rank);
      AllIsStored(w, merged, Contents(), c, visits, cancellations, order, now);
      CancellationsAside(w, WithVisits(c, NO_EVENTS, visits), events);
      CancellationsAside(Contents(), WithVisits(c, NO_EVENTS, visits), events);
      KnownBatchResolves(Contents(), c, visits);
    }

    /** The events of a delivery. */
    static method BuildBatch(c: Context, visits: seq<XMLMonitoredStopVisit>, cancellations: seq<(string,
                             string)>) returns (events: Events)
      ensures Closed(c, events) && OnlyCancels(WithVisits(c, NO_EVENTS, visits), events)
      ensures events.cancellations == Items(c.kind, cancellations)
      ensures forall o :: o in events.cancellations ==> o.kind == c.kind
    {
      var builder := new StopMonitoringUpdateEventBuilder(c);
      builder.SetUpdateEvents(visits);
      builder.SetStopVisitCancellationEvents(cancellations);
      events := builder.events;
      ItemsAreOfKind(c.kind, cancellations);
      NoCancellationsYet(c, visits);
      assert events.cancellations == Items(c.kind, cancellations);
      BatchIsClosed(c, visits);
      CancellationsKeepClosed(c, WithVisits(c, NO_EVENTS, visits), events);
    }

    /** The same delivery handled again creates no object. */
    method HandleAgain(c: Context, visits: seq<XMLMonitoredStopVisit>, cancellations: seq<(string, string)>,
                       now: Time, later: Time,
                       ghost rank: string -> nat) returns (ghost first: World, ghost rank': string -> nat)
      requires Valid(c) && Ranked(Contents().areas, rank) && Attachable(Contents(), rank, c, StopPoints(visits))
      modifies this`issued, updateManager`lines, updateManager`vehicleJourneys, updateManager`stopVisits,
               updateManager.stopAreas`byIdentifier, updateManager.stopAreas.byObjectId
      ensures Valid(c) && Ranked(Contents().areas, rank')
      ensures forall v :: v in visits ==> ItemResolves(first, c, v.itemIdentifier)
      ensures Persists(old(Contents()), first) && Persists(first, Contents()) && SameEntities(first, Contents())
    {
      ghost var order;
      rank', order := HandleDelivery(c, visits, cancellations, now, rank);
      first := Contents();
      rank', order := HandleDelivery(c, visits, cancellations, later, rank');
    }

    /** The events before those of the stop visits. */
    method BroadcastNetwork(events: Events, now: Time, ghost c: Context,
                            ghost rank: string -> nat) returns (ghost rank': string -> nat)
      requires Valid(c) && Ranked(Contents().areas, rank) && Closed(c, events)
      requires Attachable(Contents(), rank, c, events.stopAreas.Keys)
      modifies this`issued, updateManager`lines, updateManager`vehicleJourneys,
               updateManager.stopAreas`byIdentifier, updateManager.stopAreas.byObjectId
      ensures Valid(c) && Ranked(Contents().areas, rank') && Attachable(Contents(), rank', c, events.stopAreas.Keys)
      ensures NetworkKnown(Contents(), events)
      ensures Progress(old(Contents()), Contents(), NetworkKnown(old(Contents()), events))
      ensures Contents().visits == old(Contents()).visits
    {
      ghost var w0 := Contents();
      EventsAreOfKind(c, events);
      rank' := BroadcastStopAreas(events.stopAreas, now, c, rank);
      ghost var w1 := Contents();
      BroadcastLines(events.lines, now, c);
      ghost var w2 := Contents();
      JourneysAreOnLines(c, events, w2);
      BroadcastVehicleJourneys(events.vehicleJourneys, c);
      NetworkIsKnown(c, events, w0, w1, w2, Contents());
      SameAreasAreAttachable(w1, rank', c, events.stopAreas.Keys, Contents());
    }

    method BroadcastCancellations(cancellations: seq<ObjectId>, ghost c: Context)
      requires Valid(c) && forall o :: o in cancellations ==> o.kind == c.kind
      modifies updateManager`stopVisits
      ensures Valid(c) && Progress(old(Contents()), Contents(), true)
      ensures Contents() == old(Contents()).(visits := Contents().visits)
      ensures ItemsEnd(old(Contents()), Contents(), c.kind, cancellations)
    {
      ghost var w0 := Contents();
      ghost var w := w0;
      NothingIsProgress(w0, true);
      for i := 0 to |cancellations|
        invariant Valid(c) && w == Contents() && Progress(w0, w, true) && Contents() == w0.(visits := Contents().visits)
        invariant ItemsEnd(w0, w, c.kind, cancellations[..i])
      {
        ghost var before := w;
        assert cancellations[i] in cancellations;
        CancellationIsSound(before, cancellations[i], c.kind);
        updateManager.UpdateNotCollected(cancellations[i]);
        w := Contents();
        FreshStays(before, w, newUUID, issued);
        ProgressStep(w0, before, w, true);
        OneMoreEnds(w0, before, w, c.kind, cancellations[..i], cancellations[i]);
        assert cancellations[..i + 1] == cancellations[..i] + [cancellations[i]];
      }
      assert cancellations[..|cancellations|] == cancellations;
    }
  }

  /** The visit events lead to `mid`, and the cancellations from there to `w'`. */
  ghost predicate MergedThenEnded(w: World, mid: World, w': World, kind: string, events: Events, order: seq<string>,
                                  now: Time) {
    && AllMerged(w, mid, kind, events.stopVisits, order, now) && ItemsEnd(mid, w', kind, events.cancellations)
    && w'.areas == mid.areas && w'.areaIndex == mid.areaIndex && w'.journeys == mid.journeys
  }

  lemma SameVisitsMerge(w0: World, w1: World, w2: World, kind: string,
                        events: map<string, map<string, StopVisitUpdateEvent>>, order: seq<string>, now: Time)
    requires w1.visits == w0.visits && AllMerged(w1, w2, kind, events, order, now)
    ensures AllMerged(w0, w2, kind, events, order, now)
  {
    forall item
      ensures Merged(w2, VisitAt(w0, kind, item), EventsAbout(events, order, item), VisitAt(w2, kind, item), now)
    {
      assert VisitAt(w0, kind, item) == VisitAt(w1, kind, item);
    }
  }

  lemma VisitsAreFiled(c: Context, events: Events)
    requires Closed(c, events)
    ensures AllFiledByItem(c.kind, events.stopVisits)
  {
    forall stop, item | stop in events.stopVisits && item in events.stopVisits[stop]
      ensures events.stopVisits[stop][item].objectId == ObjectId(c.kind, item)
      ensures RefersTo(c.kind, events.stopVisits[stop][item])
    {
      assert VisitClosed(c, events, stop, item);
    }
  }

  // ---------------------------------------------------------------- deliveries

  /** The stop points that the visits mention. */
  function StopPoints(visits: seq<XMLMonitoredStopVisit>): set<string> {
    set v | v in visits :: v.stopPointRef
  }

  /** The item is found as a stop visit whose stop area, journey and line are stored. */
  ghost predicate ItemResolves(w: World, c: Context, item: string) {
    var o := ObjectId(c.kind, item);
    && VisitKnown(w, o)
    && var visit := Found(w.visits, o).value;
    && O.Has(visit.objectIds, o)
    && visit.stopAreaId in w.areas
    && visit.vehicleJourneyId in w.journeys.entities
    && w.journeys.entities[visit.vehicleJourneyId].lineId in w.lines.entities
  }

  lemma KnownItemResolves(w: World, c: Context, item: string)
    requires Sound(w, c.kind) && VisitKnown(w, ObjectId(c.kind, item))
    ensures ItemResolves(w, c, item)
  {
    var o := ObjectId(c.kind, item);
    var visit := Found(w.visits, o).value;
    UnknownIsFree(w.visits.index, VisitIds(w.visits.entities), c.kind, o);
    assert VisitLinked(w, visit);
  }

  ghost predicate FiledAt(events: Events, stops: set<string>) {
    events.stopAreas.Keys == stops && events.stopVisits.Keys == stops
  }

  lemma {:induction false} StopPointsOfBatch(c: Context, visits: seq<XMLMonitoredStopVisit>)
    ensures FiledAt(WithVisits(c, NO_EVENTS, visits), StopPoints(visits))
  {
    if visits != [] {
      var n := |visits| - 1;
      StopPointsOfBatch(c, visits[..n]);
      FiledOnceMore(c, WithVisits(c, NO_EVENTS, visits[..n]), StopPoints(visits[..n]), visits[n]);
      StopPointsOnceMore(visits);
    }
  }

  lemma StopPointsOnceMore(visits: seq<XMLMonitoredStopVisit>)
    requires visits != []
    ensures StopPoints(visits) == StopPoints(visits[..|visits| - 1]) + {visits[|visits| - 1].stopPointRef}
  {
    assert visits == visits[..|visits| - 1] + [visits[|visits| - 1]];
  }

  lemma FiledOnceMore(c: Context, events: Events, stops: set<string>, v: XMLMonitoredStopVisit)
    requires FiledAt(events, stops)
    ensures FiledAt(WithVisit(c, events, v), stops + {v.stopPointRef})
  {
  }

  /** Every item of the delivery resolves once the batch is known. */
  lemma KnownBatchResolves(w: World, c: Context, visits: seq<XMLMonitoredStopVisit>)
    requires Sound(w, c.kind) && AllKnown(w, WithVisits(c, NO_EVENTS, visits))
    ensures forall v :: v in visits ==> ItemResolves(w, c, v.itemIdentifier)
  {
    var events := WithVisits(c, NO_EVENTS, visits);
    forall v | v in visits ensures ItemResolves(w, c, v.itemIdentifier) {
      var i :| 0 <= i < |visits| && visits[i] == v;
      EveryVisitHasEvent(c, visits, i);
      BatchIsClosed(c, visits);
      assert VisitClosed(c, events, v.stopPointRef, v.itemIdentifier);
      assert VisitsKnown(w, events.stopVisits[v.stopPointRef]);
      KnownItemResolves(w, c, v.itemIdentifier);
    }
  }

  lemma {:induction false} NoCancellationsYet(c: Context, visits: seq<XMLMonitoredStopVisit>)
    ensures WithVisits(c, NO_EVENTS, visits).cancellations == []
  {
    if visits != [] {
      NoCancellationsYet(c, visits[..|visits| - 1]);
    }
  }

  lemma {:induction false} ItemsAreOfKind(kind: string, cancellations: seq<(string, string)>)
    ensures forall o :: o in Items(kind, cancellations) ==> o.kind == kind
  {
    if cancellations != [] {
      ItemsAreOfKind(kind, cancellations[..|cancellations| - 1]);
    }
  }

  predicate OnlyCancels(events: Events, events': Events) {
    events' == events.(cancellations := events'.cancellations, monitoringRefs := events'.monitoringRefs)
  }

  /** Cancellations do not matter for what a batch makes known. */
  lemma CancellationsAside(w: World, events: Events, events': Events)
    requires OnlyCancels(events, events')
    ensures AllKnown(w, events') <==> AllKnown(w, events)
  {
  }

  lemma CancellationsKeepClosed(c: Context, events: Events, events': Events)
    requires OnlyCancels(events, events') && Closed(c, events)
    ensures Closed(c, events')
  {
    forall ref | ref in events'.vehicleJourneys
        ensures JourneyFiled(c, events', ref) && JourneyClosed(c, events', ref) {
      assert JourneyFiled(c, events, ref) && JourneyClosed(c, events, ref);
      var line :| LineFiled(c, events, line) && events.vehicleJourneys[ref].lineObjectId == ObjectId(c.kind, line);
      assert LineFiled(c, events', line);
    }
    forall stop, item | stop in events'.stopVisits && item in events'.stopVisits[stop]
        ensures VisitClosed(c, events', stop, item) {
      assert VisitClosed(c, events, stop, item) && StopAreaFiled(c, events, stop) && StopAreaFiled(c, events', stop);
      var journey :| JourneyFiled(c, events, journey)
          && events.stopVisits[stop][item].vehicleJourneyObjectId == ObjectId(c.kind, journey);
      assert JourneyFiled(c, events', journey);
    }
    forall ref | ref in events'.stopAreas ensures StopAreaFiled(c, events', ref) {
      assert StopAreaFiled(c, events, ref);
    }
    forall ref | ref in events'.lines ensures LineFiled(c, events', ref) {
      assert LineFiled(c, events, ref);
    }
  }

  /** A line that an event creates is found under the event's identifier exactly if this is
      not of the default kind, or is its own hash: otherwise the same event creates another
      line each time it is handled. */
  lemma DefaultKindIsLost(lines: Collection<Line>, event: LineUpdateEvent, now: Time, newId: string, hash: Hash)
    requires Found(lines, event.objectId).None? && newId !in lines.index.byIdentifier
    requires O.Lookup(lines.index, event.objectId).None?
    ensures Found(LineHandled(lines, event, now, newId, hash), event.objectId).Some? <==>
            event.objectId.kind != DEFAULT_KIND || hash(event.objectId.value) == event.objectId.value
  {
    O.LookupIndexed(lines.index, newId, NewIds(event.objectId, hash), event.objectId);
  }

  // ---------------------------------------------------------------- the batch as a whole

  /** Lines and journeys are handled, the areas and visits are as before. */
  lemma JourneysAreOnLines(c: Context, events: Events, w: World)
    requires Closed(c, events) && LinesKnown(w, events.lines)
    ensures OnLines(w, c, events.vehicleJourneys)
  {
    forall ref | ref in events.vehicleJourneys
      ensures events.vehicleJourneys[ref].objectId.kind == c.kind
      ensures LineKnown(w, events.vehicleJourneys[ref].lineObjectId)
    {
      assert JourneyFiled(c, events, ref) && JourneyClosed(c, events, ref);
      var line :| LineFiled(c, events, line) && events.vehicleJourneys[ref].lineObjectId == ObjectId(c.kind, line);
      assert LineKnown(w, events.lines[line].objectId);
    }
  }

  lemma VisitsArePlaced(c: Context, events: Events, w: World)
    requires Closed(c, events) && AreasKnown(w, events.stopAreas) && JourneysKnown(w, events.vehicleJourneys)
    ensures AllPlaced(w, c, events.stopVisits)
  {
    forall stop | stop in events.stopVisits ensures VisitsPlaced(w, c, events.stopVisits[stop]) {
      StopIsPlaced(c, events, w, stop);
    }
  }

  lemma StopIsPlaced(c: Context, events: Events, w: World, stop: string)
    requires Closed(c, events) && AreasKnown(w, events.stopAreas) && JourneysKnown(w, events.vehicleJourneys)
    requires stop in events.stopVisits
    ensures VisitsPlaced(w, c, events.stopVisits[stop])
  {
    forall item | item in events.stopVisits[stop] ensures Placed(w, c, events.stopVisits[stop][item]) {
      assert VisitClosed(c, events, stop, item) && StopAreaFiled(c, events, stop);
      var journey :| JourneyFiled(c, events, journey)
          && events.stopVisits[stop][item].vehicleJourneyObjectId == ObjectId(c.kind, journey);
      assert AreaKnown(w, events.stopAreas[stop].objectId) && JourneyKnown(w, events.vehicleJourneys[journey].objectId);
    }
  }

  lemma EventsAreOfKind(c: Context, events: Events)
    requires Closed(c, events)
    ensures AllMadeFor(c, events.stopAreas) && LinesOfKind(c, events.lines)
  {
    forall ref | ref in events.stopAreas ensures MadeFor(c, events.stopAreas[ref], ref) {
      assert StopAreaFiled(c, events, ref);
    }
    forall ref | ref in events.lines ensures events.lines[ref].objectId.kind == c.kind {
      assert LineFiled(c, events, ref);
    }
  }

  lemma SameAreasAreAttachable(w: World, rank: string -> nat, c: Context, refs: set<string>, w': World)
    requires Ranked(w.areas, rank) && Attachable(w, rank, c, refs) && w'.areas == w.areas && w'.areaIndex == w.areaIndex
    ensures Attachable(w', rank, c, refs)
  {
    forall ref | ref in refs ensures RefAttachable(w', rank, c, ref) {
      assert RefAttachable(w, rank, c, ref);
    }
  }

  /** Stop areas, lines and journeys taken together. */
  lemma NetworkIsKnown(c: Context, events: Events, w0: World, w1: World, w2: World, w3: World)
    requires Closed(c, events) && Sound(w0, c.kind) && Sound(w1, c.kind) && Sound(w2, c.kind) && Sound(w3, c.kind)
    requires Progress(w0, w1, AreasKnown(w0, events.stopAreas)) && AreasKnown(w1, events.stopAreas)
    requires Progress(w1, w2, LinesKnown(w1, events.lines)) && LinesKnown(w2, events.lines)
    requires Progress(w2, w3, JourneysKnown(w2, events.vehicleJourneys)) && JourneysKnown(w3, events.vehicleJourneys)
    ensures NetworkKnown(w3, events) && Progress(w0, w3, NetworkKnown(w0, events))
  {
    KnownStays(c, events, w0, w1);
    KnownStays(c, events, w1, w2);
    KnownStays(c, events, w2, w3);
    PersistsTransitive(w0, w1, w2);
    PersistsTransitive(w0, w2, w3);
  }

  /** The whole batch taken together. */
  lemma BatchIsKnown(c: Context, events: Events, w0: World, w1: World, w2: World, w3: World)
    requires Closed(c, events) && Sound(w0, c.kind) && Sound(w1, c.kind) && Sound(w2, c.kind) && Sound(w3, c.kind)
    requires Progress(w0, w1, NetworkKnown(w0, events)) && NetworkKnown(w1, events)
    requires Progress(w1, w2, AllVisitsKnown(w1, events.stopVisits)) && AllVisitsKnown(w2, events.stopVisits)
    requires Progress(w2, w3, true)
    ensures AllKnown(w3, events) && Progress(w0, w3, AllKnown(w0, events))
  {
    KnownStays(c, events, w0, w1);
    KnownStays(c, events, w1, w2);
    KnownStays(c, events, w2, w3);
    PersistsTransitive(w0, w1, w2);
    PersistsTransitive(w0, w2, w3);
  }

  lemma LinesStayKnown(w: World, w': World, c: Context, events: map<string, LineUpdateEvent>)
    requires Sound(w, c.kind) && Sound(w', c.kind) && Persists(w, w')
    requires forall ref :: ref in events ==> events[ref].objectId.kind == c.kind
    ensures LinesKnown(w, events) ==> LinesKnown(w', events)
  {
    forall ref | ref in events ensures LineKnown(w, events[ref].objectId) ==> LineKnown(w', events[ref].objectId) {
      LineStaysKnown(w, w', c.kind, events[ref].objectId);
    }
  }

  /** What is known of the batch stays known, part by part. */
  lemma KnownStays(c: Context, events: Events, w: World, w': World)
    requires Closed(c, events) && Sound(w, c.kind) && Sound(w', c.kind) && Persists(w, w')
    ensures AreasKnown(w, events.stopAreas) ==> AreasKnown(w', events.stopAreas)
    ensures LinesKnown(w, events.lines) ==> LinesKnown(w', events.lines)
    ensures JourneysKnown(w, events.vehicleJourneys) ==> JourneysKnown(w', events.vehicleJourneys)
    ensures AllVisitsKnown(w, events.stopVisits) ==> AllVisitsKnown(w', events.stopVisits)
  {
    EventsAreOfKind(c, events);
    AreasStayKnown(w, w', c, events.stopAreas);
    LinesStayKnown(w, w', c, events.lines);
    forall ref | ref in events.vehicleJourneys ensures events.vehicleJourneys[ref].objectId.kind == c.kind {
      assert JourneyFiled(c, events, ref);
    }
    JourneysStayKnown(w, w', c, events.vehicleJourneys);
    forall stop | stop in events.stopVisits
        ensures VisitsKnown(w, events.stopVisits[stop]) ==> VisitsKnown(w', events.stopVisits[stop]) {
      forall item | item in events.stopVisits[stop] ensures events.stopVisits[stop][item].objectId.kind == c.kind {
        assert VisitClosed(c, events, stop, item);
      }
      VisitsStayKnown(w, w', c, events.stopVisits[stop]);
    }
  }

  /** The visit event can be handled. */
  predicate Placed(w: World, c: Context, event: StopVisitUpdateEvent) {
    && event.objectId.kind == c.kind && event.stopAreaObjectId.kind == c.kind
        && event.vehicleJourneyObjectId.kind == c.kind
    && VisitIsPlaced(w, event)
  }

  /** What lookups of stop areas and journeys need. */
  ghost predicate PlacesSound(w: World, c: Context) {
    AreasSound(w.areas, w.areaIndex, c.kind) && JourneysSound(w.journeys, c.kind)
  }

  lemma StaysPlaced(w: World, w': World, c: Context, event: StopVisitUpdateEvent)
    requires PlacesSound(w, c) && PlacesSound(w', c) && Persists(w, w') && Placed(w, c, event)
    ensures Placed(w', c, event)
  {
    AreaStaysKnown(w, w', c.kind, event.stopAreaObjectId);
    JourneyStaysKnown(w, w', c.kind, event.vehicleJourneyObjectId);
  }

  lemma VisitsStayPlaced(w: World, w': World, c: Context, events: map<string, StopVisitUpdateEvent>)
    requires PlacesSound(w, c) && PlacesSound(w', c) && Persists(w, w') && VisitsPlaced(w, c, events)
    ensures VisitsPlaced(w', c, events)
  {
    forall item | item in events ensures Placed(w', c, events[item]) {
      StaysPlaced(w, w', c, events[item]);
    }
  }

  lemma OneMoreVisitKnown(w0: World, before: World, w: World, c: Context, events: map<string, StopVisitUpdateEvent>,
                          done: set<string>, item: string)
    requires VisitsSound(w0.visits, c.kind) && VisitsSound(before.visits, c.kind) && VisitsSound(w.visits, c.kind)
    requires PlacesSound(before, c) && PlacesSound(w, c)
    requires VisitsPlaced(before, c, events) && KnownAmong(before, events, done) && item in events
    requires Progress(w0, before, VisitsKnown(w0, events)) && Persists(before, w)
    requires VisitKnown(w, events[item].objectId)
             && (VisitKnown(before, events[item].objectId) ==> SameEntities(before, w))
    ensures Progress(w0, w, VisitsKnown(w0, events)) && VisitsPlaced(w, c, events)
    ensures KnownAmong(w, events, done + {item})
  {
    assert Placed(before, c, events[item]);
    VisitProgress(w0, before, w, c, events, item);
    VisitsStayPlaced(before, w, c, events);
    StillKnownAmong(before, w, c, events, done);
  }

  lemma VisitProgress(w0: World, before: World, w: World, c: Context, events: map<string, StopVisitUpdateEvent>,
                      item: string)
    requires VisitsSound(w0.visits, c.kind) && VisitsSound(before.visits, c.kind) && item in events
    requires events[item].objectId.kind == c.kind
    requires Progress(w0, before, VisitsKnown(w0, events)) && Persists(before, w)
    requires VisitKnown(before, events[item].objectId) ==> SameEntities(before, w)
    ensures Progress(w0, w, VisitsKnown(w0, events))
  {
    VisitStaysKnown(w0, before, c.kind, events[item].objectId);
    ProgressStep(w0, before, w, VisitsKnown(w0, events));
  }

  lemma StillKnownAmong(w: World, w': World, c: Context, events: map<string, StopVisitUpdateEvent>, done: set<string>)
    requires VisitsSound(w.visits, c.kind) && VisitsSound(w'.visits, c.kind) && Persists(w, w')
    requires VisitsPlaced(w, c, events) && KnownAmong(w, events, done)
    ensures KnownAmong(w', events, done)
  {
    forall other | other in done ensures other in events && VisitKnown(w', events[other].objectId) {
      assert Placed(w, c, events[other]);
      VisitStaysKnown(w, w', c.kind, events[other].objectId);
    }
  }

  lemma OneMoreStopKnown(w0: World, before: World, w: World, c: Context, events: map<string, map<string,
                         StopVisitUpdateEvent>>, done: set<string>,
                         stop: string)
    requires Sound(w0, c.kind) && Sound(before, c.kind) && Sound(w, c.kind)
    requires AllPlaced(before, c, events) && AllKnownAmong(before, events, done) && stop in events
    requires Progress(w0, before, AllVisitsKnown(w0, events)) && VisitsKnown(w, events[stop])
    requires Progress(before, w, VisitsKnown(before, events[stop]))
    ensures Progress(w0, w, AllVisitsKnown(w0, events)) && AllPlaced(w, c, events)
    ensures AllKnownAmong(w, events, done + {stop})
  {
    assert VisitsPlaced(before, c, events[stop]);
    PlacedAreOfKind(before, c, events[stop]);
    VisitsStayKnown(w0, before, c, events[stop]);
    ProgressStep(w0, before, w, AllVisitsKnown(w0, events));
    AllStayPlaced(before, w, c, events);
    KnownStayKnown(before, w, c, events, done);
    OneMoreKnown(w, events, done, stop);
  }

  /** What handling the first `n` stop area events has done. */
  ghost predicate AreasHandled(w0: World, w: World, c: Context, events: map<string, StopAreaUpdateEvent>,
                               refs: seq<string>, n: nat) {
    && n <= |refs| && Lists(refs, events.Keys) && AllMadeFor(c, events)
    && Progress(w0, w, AreasKnown(w0, events))
    && forall ref :: ref in Prefix(refs, n) ==> ref in events && AreaKnown(w, events[ref].objectId)
  }

  lemma NoAreaHandled(w: World, c: Context, events: map<string, StopAreaUpdateEvent>)
    requires AllMadeFor(c, events)
    ensures forall refs :: Lists(refs, events.Keys) ==> AreasHandled(w, w, c, events, refs, 0)
  {
    NothingIsProgress(w, AreasKnown(w, events));
  }

  lemma OneMoreAreaHandled(w0: World, before: World, w: World, c: Context, events: map<string, StopAreaUpdateEvent>,
                           refs: seq<string>, n: nat)
    requires Sound(w0, c.kind) && Sound(before, c.kind) && Sound(w, c.kind)
    requires AreasHandled(w0, before, c, events, refs, n) && n < |refs| && refs[n] in events
    requires Persists(before, w) && AreaKnown(w, events[refs[n]].objectId)
    requires AreaKnown(before, events[refs[n]].objectId) ==> SameEntities(before, w)
    ensures AreasHandled(w0, w, c, events, refs, n + 1)
  {
    PrefixGrows(refs, n);
    assert MadeFor(c, events[refs[n]], refs[n]);
    AreaStaysKnown(w0, before, c.kind, events[refs[n]].objectId);
    ProgressStep(w0, before, w, AreasKnown(w0, events));
    forall other | other in Prefix(refs, n) ensures other in events && AreaKnown(w, events[other].objectId) {
      assert MadeFor(c, events[other], other);
      AreaStaysKnown(before, w, c.kind, events[other].objectId);
    }
  }

  /** What handling some items of a stop point has done. */
  ghost predicate ItemsHandled(w0: World, w: World, c: Context, events: map<string, StopVisitUpdateEvent>,
                               items: seq<string>, n: nat, now: Time) {
    && n <= |items| && Lists(items, events.Keys) && FiledByItem(c.kind, events)
    && Progress(w0, w, VisitsKnown(w0, events)) && VisitsPlaced(w, c, events)
    && KnownAmong(w, events, Prefix(items, n)) && StopMerged(w0, w, c.kind, events, Prefix(items, n), now)
  }

  lemma NoItemHandled(w: World, c: Context, events: map<string, StopVisitUpdateEvent>, now: Time)
    requires VisitsPlaced(w, c, events) && FiledByItem(c.kind, events)
    ensures forall items :: Lists(items, events.Keys) ==> ItemsHandled(w, w, c, events, items, 0, now)
  {
    NothingIsProgress(w, VisitsKnown(w, events));
  }

  lemma ItemIsNext(w0: World, w: World, c: Context, events: map<string, StopVisitUpdateEvent>, items: seq<string>,
                   n: nat, now: Time)
    requires ItemsHandled(w0, w, c, events, items, n, now) && n < |items|
    ensures items[n] in events && Placed(w, c, events[items[n]]) && RefersTo(c.kind, events[items[n]])
  {
    assert items[n] in events.Keys;
  }

  lemma AllItemsHandled(w0: World, w: World, c: Context, events: map<string, StopVisitUpdateEvent>, items: seq<string>,
                        now: Time)
    requires ItemsHandled(w0, w, c, events, items, |items|, now)
    ensures VisitsKnown(w, events) && Progress(w0, w, VisitsKnown(w0, events))
    ensures StopMerged(w0, w, c.kind, events, events.Keys, now)
  {
    PrefixIsAll(items, events.Keys);
  }

  lemma OneMoreItemHandled(w0: World, before: World, w: World, c: Context, events: map<string, StopVisitUpdateEvent>,
                           items: seq<string>, n: nat, now: Time)
    requires Sound(w0, c.kind) && Sound(before, c.kind) && Sound(w, c.kind)
    requires ItemsHandled(w0, before, c, events, items, n, now) && n < |items| && items[n] in events
    requires Persists(before, w) && VisitKnown(w, events[items[n]].objectId)
    requires VisitKnown(before, events[items[n]].objectId) ==> SameEntities(before, w)
    requires ItemMerged(before, w, c.kind, events[items[n]], now)
    ensures ItemsHandled(w0, w, c, events, items, n + 1, now)
  {
    PrefixGrows(items, n);
    assert items[n] !in Prefix(items, n);
    OneMoreVisitKnown(w0, before, w, c, events, Prefix(items, n), items[n]);
    OneMoreItemMerged(w0, before, w, c.kind, events, Prefix(items, n), items[n], now);
  }

  /** What handling the first `n` stop points has done. */
  ghost predicate StopsHandled(w0: World, w: World, c: Context, events: map<string, map<string, StopVisitUpdateEvent>>,
                               stops: seq<string>, n: nat, now: Time) {
    && n <= |stops| && Lists(stops, events.Keys) && AllFiledByItem(c.kind, events)
    && Progress(w0, w, AllVisitsKnown(w0, events)) && AllPlaced(w, c, events)
    && AllKnownAmong(w, events, Prefix(stops, n)) && AllMerged(w0, w, c.kind, events, stops[..n], now)
  }

  lemma NoStopHandled(w: World, c: Context, events: map<string, map<string, StopVisitUpdateEvent>>, now: Time)
    requires AllPlaced(w, c, events) && AllFiledByItem(c.kind, events)
    ensures forall stops :: Lists(stops, events.Keys) ==> StopsHandled(w, w, c, events, stops, 0, now)
  {
    NothingIsProgress(w, AllVisitsKnown(w, events));
  }

  lemma StopIsNext(w0: World, w: World, c: Context, events: map<string, map<string, StopVisitUpdateEvent>>,
                   stops: seq<string>, n: nat, now: Time)
    requires StopsHandled(w0, w, c, events, stops, n, now) && n < |stops|
    ensures stops[n] in events && VisitsPlaced(w, c, events[stops[n]]) && FiledByItem(c.kind, events[stops[n]])
  {
    assert stops[n] in events.Keys;
  }

  lemma OneMoreStopHandled(w0: World, before: World, w: World, c: Context,
                           events: map<string, map<string, StopVisitUpdateEvent>>, stops: seq<string>, n: nat,
                               now: Time)
    requires Sound(w0, c.kind) && Sound(before, c.kind) && Sound(w, c.kind)
    requires StopsHandled(w0, before, c, events, stops, n, now) && n < |stops| && stops[n] in events
    requires VisitsKnown(w, events[stops[n]]) && Progress(before, w, VisitsKnown(before, events[stops[n]]))
    requires StopMerged(before, w, c.kind, events[stops[n]], events[stops[n]].Keys, now)
    ensures StopsHandled(w0, w, c, events, stops, n + 1, now)
  {
    NextStopKnown(w0, before, w, c, events, stops, n);
    NextStopMerged(w0, before, w, c.kind, events, stops, n, now);
  }

  lemma NextStopKnown(w0: World, before: World, w: World, c: Context,
                      events: map<string, map<string, StopVisitUpdateEvent>>, stops: seq<string>, n: nat)
    requires Sound(w0, c.kind) && Sound(before, c.kind) && Sound(w, c.kind)
    requires n < |stops| && stops[n] in events && AllPlaced(before, c, events)
    requires AllKnownAmong(before, events, Prefix(stops, n)) && Progress(w0, before, AllVisitsKnown(w0, events))
    requires VisitsKnown(w, events[stops[n]]) && Progress(before, w, VisitsKnown(before, events[stops[n]]))
    ensures Progress(w0, w, AllVisitsKnown(w0, events)) && AllPlaced(w, c, events)
    ensures AllKnownAmong(w, events, Prefix(stops, n + 1))
  {
    PrefixGrows(stops, n);
    OneMoreStopKnown(w0, before, w, c, events, Prefix(stops, n), stops[n]);
  }

  lemma NextStopMerged(w0: World, before: World, w: World, kind: string,
                       events: map<string, map<string, StopVisitUpdateEvent>>, stops: seq<string>, n: nat, now: Time)
    requires Sound(before, kind) && Sound(w, kind) && Persists(before, w)
    requires n < |stops| && stops[n] in events && AllFiledByItem(kind, events)
    requires AllMerged(w0, before, kind, events, stops[..n], now)
    requires StopMerged(before, w, kind, events[stops[n]], events[stops[n]].Keys, now)
    ensures AllMerged(w0, w, kind, events, stops[..n + 1], now)
  {
    OneMoreStopMerged(w0, before, w, kind, events, stops[..n], stops[n], now);
    assert stops[..n + 1] == stops[..n] + [stops[n]];
  }

  lemma AllStopsHandled(w0: World, w: World, c: Context, events: map<string, map<string, StopVisitUpdateEvent>>,
                        stops: seq<string>, now: Time)
    requires StopsHandled(w0, w, c, events, stops, |stops|, now)
    ensures AllVisitsKnown(w, events) && Progress(w0, w, AllVisitsKnown(w0, events))
    ensures AllMerged(w0, w, c.kind, events, stops, now)
  {
    PrefixIsAll(stops, events.Keys);
    assert stops[..|stops|] == stops;
  }

  lemma OneMoreKnown(w: World, events: map<string, map<string, StopVisitUpdateEvent>>, done: set<string>, stop: string)
    requires AllKnownAmong(w, events, done) && stop in events && VisitsKnown(w, events[stop])
    ensures AllKnownAmong(w, events, done + {stop})
  {
  }

  lemma AllStayPlaced(before: World, w: World, c: Context, events: map<string, map<string, StopVisitUpdateEvent>>)
    requires Sound(before, c.kind) && Sound(w, c.kind) && Persists(before, w) && AllPlaced(before, c, events)
    ensures AllPlaced(w, c, events)
  {
    forall other | other in events ensures VisitsPlaced(w, c, events[other]) {
      VisitsStayPlaced(before, w, c, events[other]);
    }
  }

  lemma KnownStayKnown(before: World, w: World, c: Context, events: map<string, map<string, StopVisitUpdateEvent>>,
                       done: set<string>)
    requires Sound(before, c.kind) && Sound(w, c.kind) && Persists(before, w) && AllPlaced(before, c, events)
    requires AllKnownAmong(before, events, done)
    ensures AllKnownAmong(w, events, done)
  {
    forall other | other in done ensures other in events && VisitsKnown(w, events[other]) {
      PlacedAreOfKind(before, c, events[other]);
      VisitsStayKnown(before, w, c, events[other]);
    }
  }

  lemma PlacedAreOfKind(w: World, c: Context, events: map<string, StopVisitUpdateEvent>)
    requires VisitsPlaced(w, c, events)
    ensures forall item :: item in events ==> events[item].objectId.kind == c.kind
  {
    forall item | item in events ensures events[item].objectId.kind == c.kind {
      assert Placed(w, c, events[item]);
    }
  }
}
