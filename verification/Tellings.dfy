/** What a delivery leaves in the stored visits, item by item, in terms of what the partner
    told: the fields of the visits of the delivery, whatever the order of the events. */
module Tellings {
  import opened Common
  import opened StopVisit
  import opened MemoryStopAreas
  import opened UpdateEventBuilder
  import opened UpdateManager
  import opened Ingestion
  import O = ObjectIdIndex

  /** The visit that an identifier of the kind leads to. */
  function VisitAt(w: World, kind: string, item: string): Option<StopVisit> {
    Found(w.visits, ObjectId(kind, item))
  }

  // ---------------------------------------------------------------- events about one visit

  function ScheduleIn(schedules: Schedules, kind: ScheduleKind): Option<Schedule> {
    if kind in schedules then Some(schedules[kind]) else None
  }

  /** The schedule of the kind in the last event that has one, else the one there was before. */
  function LastOf(before: Option<StopVisit>, events: seq<StopVisitUpdateEvent>, kind: ScheduleKind): Option<Schedule> {
    if events == [] then if before.Some? then ScheduleIn(before.value.schedules, kind) else None
    else if kind in events[|events| - 1].schedules then Some(events[|events| - 1].schedules[kind])
    else LastOf(before, events[..|events| - 1], kind)
  }

  /** Same object at the same place, told by the same partner. */
  predicate SameObject(a: StopVisit, b: StopVisit) {
    && a.id == b.id && a.objectIds == b.objectIds && a.stopAreaId == b.stopAreaId
    && a.vehicleJourneyId == b.vehicleJourneyId && a.origin == b.origin
    && a.passageOrder == b.passageOrder && a.dataFrameRef == b.dataFrameRef
  }

  /** The visit tells what the last event told, at `now`. */
  predicate TellsLast(v: StopVisit, last: StopVisitUpdateEvent, now: Time) {
    && v.arrivalStatus == last.arrivalStatus && v.departureStatus == last.departureStatus
    && v.vehicleAtStop == last.vehicleAtStop && v.collected && v.collectedAt == now
  }

  /** What a new visit has from its first event: where it stands, and for which journey. */
  predicate MadeFrom(w: World, v: StopVisit, first: StopVisitUpdateEvent) {
    && v.origin == first.origin && v.passageOrder == first.passageOrder && v.dataFrameRef == first.dataFrameRef
    && VisitIsPlaced(w, first)
    && v.stopAreaId == AreaFound(w.areas, w.areaIndex, first.stopAreaObjectId).value.id
    && v.vehicleJourneyId == Found(w.journeys, first.vehicleJourneyObjectId).value.id
  }

  /** The visit after the events, handled one after the other at `now`, in the world they leave. */
  ghost predicate Merged(w: World, before: Option<StopVisit>, events: seq<StopVisitUpdateEvent>,
                         after: Option<StopVisit>, now: Time) {
    if events == [] then after == before
    else
      && after.Some? && TellsLast(after.value, events[|events| - 1], now)
      && (forall kind :: ScheduleIn(after.value.schedules, kind) == LastOf(before, events, kind))
      && (if before.Some? then SameObject(before.value, after.value) else MadeFrom(w, after.value, events[0]))
  }

  /** The objects that the event refers to are found as before. */
  predicate StaysPlaced(w: World, w': World, event: StopVisitUpdateEvent) {
    VisitIsPlaced(w, event) ==>
      && VisitIsPlaced(w', event)
      && AreaFound(w'.areas, w'.areaIndex, event.stopAreaObjectId).value.id ==
         AreaFound(w.areas, w.areaIndex, event.stopAreaObjectId).value.id
      && Found(w'.journeys, event.vehicleJourneyObjectId).value.id ==
         Found(w.journeys, event.vehicleJourneyObjectId).value.id
  }

  predicate RefersTo(kind: string, event: StopVisitUpdateEvent) {
    event.stopAreaObjectId.kind == kind && event.vehicleJourneyObjectId.kind == kind
  }

  lemma PersistsPlaces(w: World, w': World, event: StopVisitUpdateEvent, kind: string)
    requires Sound(w, kind) && Sound(w', kind) && Persists(w, w') && RefersTo(kind, event)
    ensures StaysPlaced(w, w', event)
  {
    AreaStaysKnown(w, w', kind, event.stopAreaObjectId);
    JourneyStaysKnown(w, w', kind, event.vehicleJourneyObjectId);
  }

  lemma MergedOnceMore(w: World, w': World, a: Option<StopVisit>, events: seq<StopVisitUpdateEvent>,
                       b: Option<StopVisit>, more: seq<StopVisitUpdateEvent>, c: Option<StopVisit>, now: Time)
    requires Merged(w, a, events, b, now) && Merged(w', b, more, c, now) && |more| <= 1
    requires events != [] ==> StaysPlaced(w, w', events[0])
    ensures Merged(w', a, events + more, c, now)
  {
    if more == [] {
      assert events + more == events;
    } else {
      assert (events + more)[..|events|] == events && more[..0] == [];
      forall kind ensures LastOf(b, more, kind) == LastOf(a, events + more, kind) {
        assert events == [] ==> b == a;
      }
      assert events == [] ==> events + more == more;
    }
  }

  // ---------------------------------------------------------------- one event

  function Only(event: StopVisitUpdateEvent, kind: string, item: string): seq<StopVisitUpdateEvent> {
    if event.objectId == ObjectId(kind, item) then [event] else []
  }

  /** One event changes the visit of its item as it tells, and no other visit of the kind. */
  ghost predicate ItemMerged(w: World, w': World, kind: string, event: StopVisitUpdateEvent, now: Time) {
    forall item :: Merged(w', VisitAt(w, kind, item), Only(event, kind, item), VisitAt(w', kind, item), now)
  }

  lemma EventMerges(w: World, w': World, event: StopVisitUpdateEvent, now: Time, newId: string, hash: Hash,
                    kind: string)
    requires Sound(w, kind) && event.objectId.kind == kind && kind != DEFAULT_KIND && Unused(w, newId)
    requires VisitIsPlaced(w, event) && w'.visits == VisitHandled(w, event, now, newId, hash)
    requires StaysPlaced(w, w', event)
    ensures ItemMerged(w, w', kind, event, now)
  {
    NewVisitIsAdmitted(w, event, now, newId, hash, kind);
    var visit := RecordedVisit(w, event, now, newId, hash);
    assert w'.visits == Saved(w.visits, visit.id, visit, visit.objectIds);
    forall item ensures Merged(w', VisitAt(w, kind, item), Only(event, kind, item), VisitAt(w', kind, item), now) {
      if ObjectId(kind, item) == event.objectId {
        OwnItemMerges(w, w', event, now, newId, hash, kind);
      } else {
        OtherItemStays(w, w', visit, event.objectId, ObjectId(kind, item), kind);
      }
    }
  }

  lemma OwnItemMerges(w: World, w': World, event: StopVisitUpdateEvent, now: Time, newId: string, hash: Hash,
                      kind: string)
    requires event.objectId.kind == kind && VisitIsPlaced(w, event) && StaysPlaced(w, w', event)
    requires var visit := RecordedVisit(w, event, now, newId, hash);
             w'.visits == Saved(w.visits, visit.id, visit, visit.objectIds) && O.Has(visit.objectIds, event.objectId)
    ensures Merged(w', Found(w.visits, event.objectId), [event], Found(w'.visits, event.objectId), now)
  {
    var visit := RecordedVisit(w, event, now, newId, hash);
    O.LookupIndexed(w.visits.index, visit.id, visit.objectIds, event.objectId);
    var before := Found(w.visits, event.objectId);
    assert [event][..0] == [];
    forall k ensures ScheduleIn(visit.schedules, k) == LastOf(before, [event], k) {
    }
  }

  lemma OtherItemStays(w: World, w': World, visit: StopVisit, own: ObjectId, o: ObjectId, kind: string)
    requires VisitsSound(w.visits, kind) && own.kind == kind && o.kind == kind && o != own
    requires O.Has(visit.objectIds, own) && O.Admits(VisitIds(w.visits.entities), visit.id, visit.objectIds, kind)
    requires w'.visits == Saved(w.visits, visit.id, visit, visit.objectIds)
    ensures Found(w'.visits, o) == Found(w.visits, o)
  {
    var ids := VisitIds(w.visits.entities);
    O.LookupIndexed(w.visits.index, visit.id, visit.objectIds, o);
    O.RemembersHas(w.visits.index, visit.id, o);
    assert !O.Has(visit.objectIds, o);
    assert O.Remembers(w.visits.index, visit.id, o) ==> O.Holds(ids, visit.id, o);
    assert O.Lookup(w.visits.index, o) == Some(visit.id) <==> O.Holds(ids, visit.id, o);
  }

  // ---------------------------------------------------------------- the events of a delivery

  /** Visit events are filed under their items. */
  ghost predicate FiledByItem(kind: string, events: map<string, StopVisitUpdateEvent>) {
    forall item :: item in events ==> events[item].objectId == ObjectId(kind, item) && RefersTo(kind, events[item])
  }

  function AmongDone(events: map<string, StopVisitUpdateEvent>, done: set<string>,
                     item: string): seq<StopVisitUpdateEvent> {
    if item in events && item in done then [events[item]] else []
  }

  /** The events of one stop point, for the items that are done. */
  ghost predicate StopMerged(w: World, w': World, kind: string, events: map<string, StopVisitUpdateEvent>,
                             done: set<string>, now: Time) {
    forall item :: Merged(w', VisitAt(w, kind, item), AmongDone(events, done, item), VisitAt(w', kind, item), now)
  }

  lemma OneMoreItemMerged(w0: World, w: World, w': World, kind: string, events: map<string, StopVisitUpdateEvent>,
                          done: set<string>, item: string, now: Time)
    requires FiledByItem(kind, events) && item in events && item !in done
    requires Sound(w, kind) && Sound(w', kind) && Persists(w, w')
    requires StopMerged(w0, w, kind, events, done, now) && ItemMerged(w, w', kind, events[item], now)
    ensures StopMerged(w0, w', kind, events, done + {item}, now)
  {
    forall other
      ensures Merged(w', VisitAt(w0, kind, other), AmongDone(events, done + {item}, other), VisitAt(w', kind, other),
                     now)
    {
      assert events[item].objectId == ObjectId(kind, item);
      var earlier, more := AmongDone(events, done, other), Only(events[item], kind, other);
      if earlier != [] {
        PersistsPlaces(w, w', earlier[0], kind);
      }
      MergedOnceMore(w, w', VisitAt(w0, kind, other), earlier, VisitAt(w, kind, other), more, VisitAt(w', kind, other),
                     now);
      assert AmongDone(events, done + {item}, other) == earlier + more;
    }
  }

  /** The events about the item, in the order in which the stop points are handled. */
  function EventsAbout(events: map<string, map<string, StopVisitUpdateEvent>>, stops: seq<string>,
                       item: string): seq<StopVisitUpdateEvent> {
    if stops == [] then []
    else
      var stop := stops[|stops| - 1];
      EventsAbout(events, stops[..|stops| - 1], item)
      + if stop in events && item in events[stop] then [events[stop][item]] else []
  }

  ghost predicate AllFiledByItem(kind: string, events: map<string, map<string, StopVisitUpdateEvent>>) {
    forall stop :: stop in events ==> FiledByItem(kind, events[stop])
  }

  lemma {:induction false} EventsAboutReferTo(kind: string, events: map<string, map<string, StopVisitUpdateEvent>>,
                                              stops: seq<string>, item: string)
    requires AllFiledByItem(kind, events)
    ensures forall event :: event in EventsAbout(events, stops, item) ==> RefersTo(kind, event)
  {
    if stops != [] {
      EventsAboutReferTo(kind, events, stops[..|stops| - 1], item);
      var stop := stops[|stops| - 1];
      assert stop in events ==> FiledByItem(kind, events[stop]);
    }
  }

  ghost predicate AllMerged(w: World, w': World, kind: string, events: map<string, map<string, StopVisitUpdateEvent>>,
                            stops: seq<string>, now: Time) {
    forall item :: Merged(w', VisitAt(w, kind, item), EventsAbout(events, stops, item), VisitAt(w', kind, item), now)
  }

  lemma OneMoreStopMerged(w0: World, w: World, w': World, kind: string,
                          events: map<string, map<string, StopVisitUpdateEvent>>, stops: seq<string>, stop: string,
                          now: Time)
    requires stop in events && AllMerged(w0, w, kind, events, stops, now) && AllFiledByItem(kind, events)
    requires Sound(w, kind) && Sound(w', kind) && Persists(w, w')
    requires StopMerged(w, w', kind, events[stop], events[stop].Keys, now)
    ensures AllMerged(w0, w', kind, events, stops + [stop], now)
  {
    forall item
      ensures Merged(w', VisitAt(w0, kind, item), EventsAbout(events, stops + [stop], item), VisitAt(w', kind, item),
                     now)
    {
      var earlier, more := EventsAbout(events, stops, item), AmongDone(events[stop], events[stop].Keys, item);
      if earlier != [] {
        EventsAboutReferTo(kind, events, stops, item);
        PersistsPlaces(w, w', earlier[0], kind);
      }
      MergedOnceMore(w, w', VisitAt(w0, kind, item), earlier, VisitAt(w, kind, item), more, VisitAt(w', kind, item),
                     now);
      assert (stops + [stop])[..|stops|] == stops;
      assert EventsAbout(events, stops + [stop], item) == earlier + more;
    }
  }

  // ---------------------------------------------------------------- cancellations

  /** A cancelled visit is not collected any more, its arrival cancelled and its departure past. */
  function Ended(v: StopVisit): StopVisit {
    v.(collected := false, arrivalStatus := "cancelled", departureStatus := "departed")
  }

  /** The visits of the cancelled items end, and no others change. */
  ghost predicate ItemsEnd(w: World, w': World, kind: string, cancellations: seq<ObjectId>) {
    forall item ::
      VisitAt(w', kind, item) ==
      match VisitAt(w, kind, item)
      case None => None
      case Some(v) => Some(if ObjectId(kind, item) in cancellations then Ended(v) else v)
  }

  lemma OneMoreEnds(w0: World, w: World, w': World, kind: string, cancellations: seq<ObjectId>, o: ObjectId)
    requires VisitsSound(w.visits, kind) && o.kind == kind && ItemsEnd(w0, w, kind, cancellations)
    requires w'.visits == CancellationHandled(w.visits, o)
    ensures ItemsEnd(w0, w', kind, cancellations + [o])
  {
    forall item
      ensures VisitAt(w', kind, item) ==
              match VisitAt(w0, kind, item)
              case None => None
              case Some(v) => Some(if ObjectId(kind, item) in cancellations + [o] then Ended(v) else v)
    {
      OneEnds(w, w', kind, o, item);
    }
  }

  lemma OneEnds(w: World, w': World, kind: string, o: ObjectId, item: string)
    requires VisitsSound(w.visits, kind) && o.kind == kind && w'.visits == CancellationHandled(w.visits, o)
    ensures VisitAt(w', kind, item) ==
            if ObjectId(kind, item) == o && VisitAt(w, kind, item).Some? then Some(Ended(VisitAt(w, kind, item).value))
            else VisitAt(w, kind, item)
  {
    if Found(w.visits, o).Some? {
      var v := Found(w.visits, o).value;
      assert O.Holds(VisitIds(w.visits.entities), v.id, o);
      if ObjectId(kind, item) == o {
        O.LookupIndexed(w.visits.index, v.id, v.objectIds, o);
      } else {
        assert O.Admits(VisitIds(w.visits.entities), v.id, v.objectIds, kind);
        OtherItemStays(w, w', NotCollected(v), o, ObjectId(kind, item), kind);
      }
    }
  }

  // ---------------------------------------------------------------- in the words of the delivery

  /** What the delivery tells first about the item at each stop point, in the order in which
      the stop points are handled. */
  function ToldAbout(visits: seq<XMLMonitoredStopVisit>, stops: seq<string>, item: string): seq<XMLMonitoredStopVisit> {
    if stops == [] then []
    else
      ToldAbout(visits, stops[..|stops| - 1], item)
      + match FirstWith(visits, Item(stops[|stops| - 1]), item) case Some(v) => [v] case None => []
  }

  /** The schedule of the kind, if one of its times is told. */
  function ToldSchedule(v: XMLMonitoredStopVisit, kind: ScheduleKind): Option<Schedule> {
    var schedule := match kind case Actual => v.actual case Expected => v.expected case Aimed => v.aimed;
    if schedule.arrivalTime != 0 || schedule.departureTime != 0 then Some(schedule) else None
  }

  /** The schedule told last, else the one there was before. */
  function LastTold(before: Option<StopVisit>, told: seq<XMLMonitoredStopVisit>, kind: ScheduleKind): Option<Schedule> {
    if told == [] then if before.Some? then ScheduleIn(before.value.schedules, kind) else None
    else if ToldSchedule(told[|told| - 1], kind).Some? then ToldSchedule(told[|told| - 1], kind)
    else LastTold(before, told[..|told| - 1], kind)
  }

  /** Where and for which journey a new visit stands. */
  predicate StandsAs(w: World, c: Context, v: StopVisit, first: XMLMonitoredStopVisit) {
    var area := AreaFound(w.areas, w.areaIndex, ObjectId(c.kind, first.stopPointRef));
    var journey := Found(w.journeys, ObjectId(c.kind, first.datedVehicleJourneyRef));
    && area.Some? && v.stopAreaId == area.value.id
    && journey.Some? && v.vehicleJourneyId == journey.value.id
    && v.origin == c.slug && v.passageOrder == first.order && v.dataFrameRef == first.dataFrameRef
  }

  /** The visit of an item after a delivery: its statuses are those told last, unless it was
      cancelled; each of its schedules was told last or was there before; a new visit stands
      at the stop area and for the journey that were told first, and a known one stays. */
  ghost predicate ItemStored(w: World, c: Context, before: Option<StopVisit>, told: seq<XMLMonitoredStopVisit>,
                             cancelled: bool, after: Option<StopVisit>, now: Time) {
    if told == [] && before.None? then after.None?
    else
      && after.Some?
      && var v := after.value;
      && (if cancelled then v.arrivalStatus == "cancelled" && v.departureStatus == "departed" && !v.collected
          else if told == [] then
            v.arrivalStatus == before.value.arrivalStatus && v.departureStatus == before.value.departureStatus
            && v.collected == before.value.collected
          else
            v.arrivalStatus == told[|told| - 1].arrivalStatus && v.departureStatus == told[|told| - 1].departureStatus
            && v.collected)
      && (if told == [] then v.vehicleAtStop == before.value.vehicleAtStop && v.collectedAt == before.value.collectedAt
          else v.vehicleAtStop == told[|told| - 1].vehicleAtStop && v.collectedAt == now)
      && (forall kind :: ScheduleIn(v.schedules, kind) == LastTold(before, told, kind))
      && (if before.Some? then SameObject(before.value, v) else StandsAs(w, c, v, told[0]))
  }

  ghost predicate IsCancelled(cancellations: seq<(string, string)>, item: string) {
    exists i :: 0 <= i < |cancellations| && cancellations[i].1 == item
  }

  /** Every item of the kind, whether told, cancelled, both or neither. */
  ghost predicate DeliveryStored(w: World, w': World, c: Context, visits: seq<XMLMonitoredStopVisit>,
                                 cancellations: seq<(string, string)>, stops: seq<string>, now: Time) {
    forall item ::
      ItemStored(w', c, VisitAt(w, c.kind, item), ToldAbout(visits, stops, item), IsCancelled(cancellations, item),
                 VisitAt(w', c.kind, item), now)
  }

  lemma {:induction false} ItemsAreCancelled(kind: string, cancellations: seq<(string, string)>, item: string)
    ensures ObjectId(kind, item) in Items(kind, cancellations) <==> IsCancelled(cancellations, item)
  {
    if cancellations != [] {
      var n := |cancellations| - 1;
      ItemsAreCancelled(kind, cancellations[..n], item);
      assert IsCancelled(cancellations, item) <==> IsCancelled(cancellations[..n], item) || cancellations[n].1 == item;
    }
  }

  /** The events about an item are made from what is told about it. */
  lemma {:induction false} EventsAreTold(c: Context, visits: seq<XMLMonitoredStopVisit>, stops: seq<string>,
                                         item: string)
    ensures var events := EventsAbout(WithVisits(c, NO_EVENTS, visits).stopVisits, stops, item);
            var told := ToldAbout(visits, stops, item);
            |events| == |told| && forall k :: 0 <= k < |told| ==> events[k] == StopVisitEvent(c, told[k])
  {
    if stops != [] {
      EventsAreTold(c, visits, stops[..|stops| - 1], item);
      FirstVisitCounts(c, visits, stops[|stops| - 1], item);
    }
  }

  lemma EventTellsVisit(c: Context, v: XMLMonitoredStopVisit, kind: ScheduleKind)
    ensures ScheduleIn(StopVisitEvent(c, v).schedules, kind) == ToldSchedule(v, kind)
  {
  }

  lemma {:induction false} LastOfIsLastTold(c: Context, before: Option<StopVisit>, events: seq<StopVisitUpdateEvent>,
                                            told: seq<XMLMonitoredStopVisit>, kind: ScheduleKind)
    requires |events| == |told| && forall k :: 0 <= k < |told| ==> events[k] == StopVisitEvent(c, told[k])
    ensures LastOf(before, events, kind) == LastTold(before, told, kind)
  {
    if told != [] {
      var n := |told| - 1;
      EventTellsVisit(c, told[n], kind);
      LastOfIsLastTold(c, before, events[..n], told[..n], kind);
    }
  }

  lemma MergedIsStored(w: World, w': World, c: Context, before: Option<StopVisit>, events: seq<StopVisitUpdateEvent>,
                       told: seq<XMLMonitoredStopVisit>, merged: Option<StopVisit>, cancelled: bool, now: Time)
    requires |events| == |told| && forall k :: 0 <= k < |told| ==> events[k] == StopVisitEvent(c, told[k])
    requires Merged(w, before, events, merged, now)
    requires w'.areas == w.areas && w'.areaIndex == w.areaIndex && w'.journeys == w.journeys
    ensures ItemStored(w', c, before, told, cancelled,
                       if cancelled && merged.Some? then Some(Ended(merged.value)) else merged, now)
  {
    forall kind ensures LastOf(before, events, kind) == LastTold(before, told, kind) {
      LastOfIsLastTold(c, before, events, told, kind);
    }
  }

  /** Events and cancellations together. */
  lemma AllIsStored(w0: World, w: World, w': World, c: Context, visits: seq<XMLMonitoredStopVisit>,
                    cancellations: seq<(string, string)>, stops: seq<string>, now: Time)
    requires AllMerged(w0, w, c.kind, WithVisits(c, NO_EVENTS, visits).stopVisits, stops, now)
    requires ItemsEnd(w, w', c.kind, Items(c.kind, cancellations))
    requires w'.areas == w.areas && w'.areaIndex == w.areaIndex && w'.journeys == w.journeys
    ensures DeliveryStored(w0, w', c, visits, cancellations, stops, now)
  {
    var events := WithVisits(c, NO_EVENTS, visits).stopVisits;
    forall item
      ensures ItemStored(w', c, VisitAt(w0, c.kind, item), ToldAbout(visits, stops, item),
                         IsCancelled(cancellations, item), VisitAt(w', c.kind, item), now)
    {
      EventsAreTold(c, visits, stops, item);
      ItemsAreCancelled(c.kind, cancellations, item);
      assert Merged(w, VisitAt(w0, c.kind, item), EventsAbout(events, stops, item), VisitAt(w, c.kind, item), now);
      MergedIsStored(w, w', c, VisitAt(w0, c.kind, item), EventsAbout(events, stops, item),
                     ToldAbout(visits, stops, item), VisitAt(w, c.kind, item), IsCancelled(cancellations, item), now);
    }
  }

  // ---------------------------------------------------------------- which visits count

  /** The first visit of the delivery for the item at the stop point. */
  ghost predicate FirstFor(visits: seq<XMLMonitoredStopVisit>, stop: string, item: string, i: int) {
    && 0 <= i < |visits| && visits[i].stopPointRef == stop && visits[i].itemIdentifier == item
    && forall j :: 0 <= j < i ==> visits[j].stopPointRef != stop || visits[j].itemIdentifier != item
  }

  lemma {:induction false} FirstWithIsFirst(visits: seq<XMLMonitoredStopVisit>, stop: string, item: string)
    ensures forall i :: FirstFor(visits, stop, item, i) ==> FirstWith(visits, Item(stop), item) == Some(visits[i])
    ensures FirstWith(visits, Item(stop), item).Some? ==> exists i :: FirstFor(visits, stop, item, i)
  {
    if visits != [] {
      FirstWithIsFirst(visits[1..], stop, item);
      if visits[0].stopPointRef == stop && visits[0].itemIdentifier == item {
        assert FirstFor(visits, stop, item, 0);
        assert forall i :: FirstFor(visits, stop, item, i) ==> i == 0;
      } else {
        forall i | FirstFor(visits, stop, item, i) ensures FirstFor(visits[1..], stop, item, i - 1) {
          assert i > 0;
          forall j | 0 <= j < i - 1
            ensures visits[1..][j].stopPointRef != stop || visits[1..][j].itemIdentifier != item
          {
            assert visits[1..][j] == visits[j + 1];
          }
        }
        if FirstWith(visits, Item(stop), item).Some? {
          var i :| FirstFor(visits[1..], stop, item, i);
          forall j | 0 <= j < i + 1 ensures visits[j].stopPointRef != stop || visits[j].itemIdentifier != item {
            assert j > 0 ==> visits[j] == visits[1..][j - 1];
          }
          assert FirstFor(visits, stop, item, i + 1);
        }
      }
    }
  }

  /** An item told at one stop point only is told by its first visit there. */
  lemma {:induction false} ToldAtOneStop(visits: seq<XMLMonitoredStopVisit>, stops: seq<string>, stop: string,
                                         item: string, i: int)
    requires NoDuplicates(stops) && FirstFor(visits, stop, item, i)
    requires forall v :: v in visits && v.itemIdentifier == item ==> v.stopPointRef == stop
    ensures ToldAbout(visits, stops, item) == if stop in stops then [visits[i]] else []
  {
    if stops != [] {
      var n := |stops| - 1;
      assert stops == stops[..n] + [stops[n]] && stops[n] !in stops[..n];
      ToldAtOneStop(visits, stops[..n], stop, item, i);
      FirstWithIsFirst(visits, stops[n], item);
      assert forall k :: 0 <= k < |visits| ==> visits[k] in visits;
      assert stops[n] != stop ==> forall k :: !FirstFor(visits, stops[n], item, k);
    }
  }
}
