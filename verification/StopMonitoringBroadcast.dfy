/** Stop monitoring broadcast: events are compared with the last state told, queued for each
    subscription, and drained into notifications
    (core/siri_stop_monitoring_subscription_broadcaster.go, core/stop_monitoring_broadcaster.go). */
module StopMonitoringBroadcast {
  import opened Common
  import opened StopVisit
  import opened LastStates
  import opened Subscription

  /** The model as a connector reads it in one step. `ascendants` is
      FindAscendantsWithObjectIdKind for the kind of the partner and `family` is FindFamily;
      `journeyLine` answers the line of a journey and `lineOf` the line that a "kind:value"
      text refers to, both the empty identifier if there is none; `canCancel` and `canMonitor`
      tell which visits the notification builder accepts. */
  datatype World = World(
    now: Time,
    slug: string,
    visits: map<string, StopVisit>,
    ascendants: string -> seq<ObjectId>,
    family: string -> seq<string>,
    journeyLine: string -> string,
    lineOf: string -> string,
    canCancel: StopVisit -> bool,
    canMonitor: StopVisit -> bool)

  /** The subscriptions of the partner and the visits to broadcast to each. */
  datatype State = State(subs: Table, queue: map<string, seq<string>>)

  function Queue(s: State, sid: string): seq<string> {
    if sid in s.queue then s.queue[sid] else []
  }

  predicate Queued(s: State, sid: string, vid: string) {
    vid in Queue(s, sid)
  }

  /** The last state of a visit told to the resource `key` of a subscription. */
  function LastState(subs: Table, sid: string, key: string, vid: string): Option<LastChange> {
    if sid in subs && key in subs[sid].resources && vid in subs[sid].resources[key].lastStates
    then Some(subs[sid].resources[key].lastStates[vid]) else None
  }

  function WithLastState(subs: Table, sid: string, key: string, vid: string, last: LastChange): Table
    requires HasResource(subs, sid, key)
  {
    var sub := subs[sid];
    var resource := sub.resources[key];
    subs[sid := sub.(resources := sub.resources[key := resource.(lastStates := resource.lastStates[vid := last])])]
  }

  /** The two tables differ in last states only. */
  ghost predicate SameShape(a: Table, b: Table) {
    && a.Keys == b.Keys
    && forall sid :: sid in a ==> SameSubscription(a[sid], b[sid])
  }

  ghost predicate SameSubscription(a: Subscription, b: Subscription) {
    && a.kind == b.kind && a.externalId == b.externalId && a.options == b.options
    && a.resources.Keys == b.resources.Keys
    && forall key :: key in a.resources ==>
        a.resources[key] == b.resources[key].(lastStates := a.resources[key].lastStates)
  }

  lemma SameShapeTransitive(a: Table, b: Table, c: Table)
    requires SameShape(a, b) && SameShape(b, c)
    ensures SameShape(a, c)
  {
    forall sid | sid in a ensures SameSubscription(a[sid], c[sid]) {
      assert SameSubscription(a[sid], b[sid]) && SameSubscription(b[sid], c[sid]);
      forall key | key in a[sid].resources
          ensures a[sid].resources[key] == c[sid].resources[key].(lastStates := a[sid].resources[key].lastStates) {
        assert key in b[sid].resources.Keys;
      }
    }
  }

  lemma OneLastState(subs: Table, sid: string, key: string, vid: string, last: LastChange)
    requires HasResource(subs, sid, key)
    ensures SameShape(subs, WithLastState(subs, sid, key, vid, last))
    ensures forall s, k, v :: LastState(WithLastState(subs, sid, key, vid, last), s, k, v) ==
              if s == sid && k == key && v == vid then Some(last) else LastState(subs, s, k, v)
  {
  }

  lemma SameShapeSameResources(a: Table, b: Table, sid: string, key: string)
    requires SameShape(a, b)
    ensures HasResource(a, sid, key) <==> HasResource(b, sid, key)
    ensures sid in a ==> sid in b && a[sid].kind == b[sid].kind
    ensures HasResource(a, sid, key) ==> a[sid].resources[key].subscribedUntil == b[sid].resources[key].subscribedUntil
  {
    assert sid in a <==> sid in b.Keys;
    if sid in a {
      assert SameSubscription(a[sid], b[sid]);
      assert key in a[sid].resources <==> key in b[sid].resources.Keys;
    }
  }

  // ---------------------------------------------------------------- events

  /** lineRef: the line a subscription is restricted to, if it is. */
  function LineFilter(w: World, sub: Subscription): Option<string> {
    var text := OptionOf(sub, "LineRef");
    if text == "" || ':' !in text then None else Some(w.lineOf(text))
  }

  predicate PassesFilter(w: World, sub: Subscription, visit: StopVisit) {
    match LineFilter(w, sub)
    case None => true
    case Some(line) => line == w.journeyLine(visit.vehicleJourneyId)
  }

  /** The subscription listens to the visit through the resource `key`. */
  predicate Listens(w: World, subs: Table, sid: string, key: string, visit: StopVisit) {
    && HasResource(subs, sid, key)
    && subs[sid].kind == STOP_MONITORING_BROADCAST
    && subs[sid].resources[key].subscribedUntil >= w.now
    && PassesFilter(w, subs[sid], visit)
  }

  lemma SameShapeSameListeners(w: World, a: Table, b: Table, sid: string, key: string, visit: StopVisit)
    requires SameShape(a, b)
    ensures Listens(w, a, sid, key, visit) <==> Listens(w, b, sid, key, visit)
    ensures sid in a ==> OptionOf(a[sid], "ChangeBeforeUpdates") == OptionOf(b[sid], "ChangeBeforeUpdates")
  {
    SameShapeSameResources(a, b, sid, key);
    assert sid in a ==> SameSubscription(a[sid], b[sid]);
  }

  /** The visit is new to the resource, or has changed enough. */
  predicate Worth(subs: Table, sid: string, key: string, visit: StopVisit)
    requires sid in subs
  {
    match LastState(subs, sid, key, visit.id)
    case None => true
    case Some(last) => Changed(last, visit, OptionOf(subs[sid], "ChangeBeforeUpdates"))
  }

  function Keys(refs: seq<ObjectId>): set<string> {
    set o | o in refs :: o.Key()
  }

  /** The resources whose stop area is above the visit. */
  predicate Above(w: World, visit: StopVisit, key: string) {
    key in Keys(w.ascendants(visit.stopAreaId))
  }

  /** The pairs (subscription, resource) that have been looked at. */
  type Pairs = set<(string, string)>

  /** Among the pairs looked at, those that listen have a last state; nothing else changed. */
  ghost predicate Marked(w: World, before: Table, after: Table, visit: StopVisit, done: Pairs) {
    && SameShape(before, after)
    && forall sid, key, vid :: LastState(after, sid, key, vid) ==
         if vid == visit.id && (sid, key) in done && Listens(w, before, sid, key, visit)
             && LastState(before, sid, key, vid).None?
         then Some(Record(visit)) else LastState(before, sid, key, vid)
  }

  predicate Hit(w: World, subs: Table, sid: string, key: string, visit: StopVisit) {
    Listens(w, subs, sid, key, visit) && Worth(subs, sid, key, visit)
  }

  ghost predicate Hits(w: World, before: Table, visit: StopVisit, done: Pairs, ids: seq<string>) {
    forall sid :: sid in ids <==> exists key :: (sid, key) in done && Hit(w, before, sid, key, visit)
  }

  /** The subscriptions that are told about the visit. */
  ghost predicate Notified(w: World, subs: Table, sid: string, visit: StopVisit) {
    visit.origin != w.slug && exists key :: Above(w, visit, key) && Hit(w, subs, sid, key, visit)
  }

  /** What one checked visit does: last states are set where there was none, and the visit
      is queued for the subscriptions that are told. */
  ghost predicate Checked(w: World, s: State, visit: StopVisit, s': State) {
    && SameShape(s.subs, s'.subs)
    && (forall sid, key, vid :: LastState(s'.subs, sid, key, vid) ==
          if vid == visit.id && visit.origin != w.slug && Above(w, visit, key) && Listens(w, s.subs, sid, key, visit)
             && LastState(s.subs, sid, key, vid).None?
          then Some(Record(visit)) else LastState(s.subs, sid, key, vid))
    && (forall sid, vid :: Queued(s', sid, vid) <==>
        Queued(s, sid, vid) || (vid == visit.id && Notified(w, s.subs, sid, visit)))
  }

  /** The visits that a new resource is told about: those it has no state for, and on its line. */
  ghost predicate New(w: World, s: State, sid: string, key: string, vid: string, visits: seq<StopVisit>)
    requires HasResource(s.subs, sid, key)
  {
    && LastState(s.subs, sid, key, vid).None? && vid in w.visits && w.visits[vid] in visits
    && PassesFilter(w, s.subs[sid], w.visits[vid])
  }

  /** The new visits have a last state and are queued for the subscription; nothing else changed. */
  ghost predicate Introduced(w: World, s: State, s': State, sid: string, key: string, visits: seq<StopVisit>)
    requires HasResource(s.subs, sid, key)
  {
    && SameShape(s.subs, s'.subs)
    && (forall d, k, vid :: LastState(s'.subs, d, k, vid) ==
          if d == sid && k == key && New(w, s, sid, key, vid, visits)
          then Some(Record(w.visits[vid])) else LastState(s.subs, d, k, vid))
    && (forall d, vid :: Queued(s', d, vid) <==> Queued(s, d, vid) || (d == sid && New(w, s, sid, key, vid, visits)))
  }

  /** Several visits checked one after the other. */
  ghost predicate CheckedAll(w: World, s: State, visits: seq<StopVisit>, s': State)
    decreases |visits|
  {
    if visits == [] then s == s'
    else
      var first, last := visits[..|visits| - 1], visits[|visits| - 1];
      exists mid :: CheckedAll(w, s, first, mid) && Checked(w, mid, last, s')
  }

  // ---------------------------------------------------------------- notifications

  /** The visits told under one monitoring reference. */
  datatype Delivery = Delivery(monitored: seq<string>, cancelled: seq<string>)

  /** The deliveries of one notification, by monitoring reference. */
  type Deliveries = map<string, Delivery>

  /** The visits that handledStopVisitAppend files among the cancelled ones. */
  predicate TerminalVisit(visit: StopVisit) {
    || visit.arrivalStatus == ARRIVAL_CANCELLED
    || visit.departureStatus == DEPARTURE_CANCELLED
    || visit.departureStatus == DEPARTURE_DEPARTED
  }

  /** findResource: the first ascendant that the subscription holds. */
  function FirstHeld(resources: set<string>, refs: seq<ObjectId>): Option<ObjectId> {
    if refs == [] then None
    else if refs[0].Key() in resources then Some(refs[0])
    else FirstHeld(resources, refs[1..])
  }

  function Picked(w: World, resources: set<string>, vid: string): Option<ObjectId> {
    if vid in w.visits then FirstHeld(resources, w.ascendants(w.visits[vid].stopAreaId)) else None
  }

  predicate Buildable(w: World, visit: StopVisit) {
    if TerminalVisit(visit) then w.canCancel(visit) else w.canMonitor(visit)
  }

  /** The visit is found, a resource is found, and the builder succeeds. */
  predicate Resolves(w: World, resources: set<string>, vid: string) {
    Picked(w, resources, vid).Some? && Buildable(w, w.visits[vid])
  }

  predicate Lists1(deliveries: Deliveries, ref: string, vid: string, terminal: bool) {
    ref in deliveries && vid in (if terminal then deliveries[ref].cancelled else deliveries[ref].monitored)
  }

  /** The deliveries list exactly the visits of `told`, each once, under the reference picked
      for it, among the cancelled ones if it is terminal. */
  ghost predicate Tells(w: World, resources: set<string>, told: set<string>, deliveries: Deliveries) {
    && (forall ref :: ref in deliveries ==>
        NoDuplicates(deliveries[ref].monitored) && NoDuplicates(deliveries[ref].cancelled))
    && (forall ref, vid, terminal :: Lists1(deliveries, ref, vid, terminal) <==>
          && vid in told && vid in w.visits && TerminalVisit(w.visits[vid]) == terminal
          && Picked(w, resources, vid).Some? && Picked(w, resources, vid).value.value == ref)
  }

  /** The last states of the told visits are up to date, on the resource picked for each. */
  ghost predicate Updated(w: World, before: Table, after: Table, sid: string, told: set<string>)
    requires sid in before
  {
    && SameShape(before, after)
    && forall s, key, vid :: LastState(after, s, key, vid) ==
         if s == sid && vid in told && vid in w.visits && LastState(before, s, key, vid).Some?
            && Picked(w, before[sid].resources.Keys, vid).Some?
                && Picked(w, before[sid].resources.Keys, vid).value.Key() == key
         then Some(Record(w.visits[vid])) else LastState(before, s, key, vid)
  }

  /** The visits a drain tells to a subscription. */
  predicate Told(w: World, s: State, sid: string, vid: string) {
    sid in s.subs && vid in Queue(s, sid) && Resolves(w, s.subs[sid].resources.Keys, vid)
  }

  /** What draining does: every queued visit that resolves is told exactly once to each
      subscription, under the reference findResource picks; nothing else is told, nothing
      empty is sent, the queue is emptied, and the told states become the last states. */
  ghost predicate Drained(w: World, s: State, s': State, sent: map<string, Deliveries>) {
    && s'.queue == map[]
    && SameShape(s.subs, s'.subs)
    && (forall sid :: sid in sent ==> sid in s.subs && sent[sid] != map[] && NoEmptyDelivery(sent[sid]))
    && (forall sid :: sid in s.subs ==> TellsQueue(w, s, sid, sent))
    && StatesTold(w, s, s'.subs, s.queue.Keys)
  }

  /** The notification to `sid` tells its queue. */
  ghost predicate TellsQueue(w: World, s: State, sid: string, sent: map<string, Deliveries>)
    requires sid in s.subs
  {
    Tells(w, s.subs[sid].resources.Keys, Resolved(w, s.subs[sid].resources.Keys, Queue(s, sid)),
          if sid in sent then sent[sid] else map[])
  }

  /** The states told to the subscriptions of `done` are their last states. */
  ghost predicate StatesTold(w: World, s: State, after: Table, done: set<string>) {
    forall sid, key, vid :: LastState(after, sid, key, vid) ==
      if sid in done && Told(w, s, sid, vid) && LastState(s.subs, sid, key, vid).Some?
         && Picked(w, s.subs[sid].resources.Keys, vid).value.Key() == key
      then Some(Record(w.visits[vid])) else LastState(s.subs, sid, key, vid)
  }

  ghost predicate NoEmptyDelivery(deliveries: Deliveries) {
    forall ref :: ref in deliveries ==> deliveries[ref].monitored != [] || deliveries[ref].cancelled != []
  }

  // ---------------------------------------------------------------- in the terms of the protocol

  /** The option LineRef, if it names a line, names the line of the visit. */
  ghost predicate OnItsLine(w: World, sub: Subscription, visit: StopVisit) {
    "LineRef" in sub.options && ':' in sub.options["LineRef"] ==>
      w.lineOf(sub.options["LineRef"]) == w.journeyLine(visit.vehicleJourneyId)
  }

  /** The subscription broadcasts the resource, which has not ended, and the line of the visit. */
  ghost predicate Hears(w: World, subs: Table, sid: string, key: string, visit: StopVisit) {
    && sid in subs && subs[sid].kind == "StopMonitoringBroadcast"
    && key in subs[sid].resources && subs[sid].resources[key].subscribedUntil >= w.now
    && OnItsLine(w, subs[sid], visit)
  }

  /** The visit was never told through the resource, or is worth telling again. */
  ghost predicate HasNews(subs: Table, sid: string, key: string, visit: StopVisit)
    requires sid in subs && key in subs[sid].resources
  {
    var told, options := subs[sid].resources[key].lastStates, subs[sid].options;
    visit.id in told ==>
      WorthTelling(told[visit.id], visit,
                   if "ChangeBeforeUpdates" in options then options["ChangeBeforeUpdates"] else "")
  }

  /** The resource stands for the stop area of the visit or for one above it. */
  ghost predicate StandsFor(w: World, visit: StopVisit, key: string) {
    exists o :: o in w.ascendants(visit.stopAreaId) && o.kind + ":" + o.value == key
  }

  /** The visit, which the partner did not send itself, gets queued exactly where it has news
      for a subscription that hears it, and its state is kept where there was none. */
  ghost predicate QueuesNews(w: World, s: State, visit: StopVisit, s': State) {
    && (forall sid, vid :: Queued(s', sid, vid) <==>
          || Queued(s, sid, vid)
          || (vid == visit.id && visit.origin != w.slug
              && exists key :: StandsFor(w, visit, key) && Hears(w, s.subs, sid, key, visit)
                               && HasNews(s.subs, sid, key, visit)))
    && (forall sid, key, vid :: LastState(s'.subs, sid, key, vid) ==
          if vid == visit.id && visit.origin != w.slug && StandsFor(w, visit, key) && Hears(w, s.subs, sid, key, visit)
             && LastState(s.subs, sid, key, vid).None?
          then Some(LastChange(visit.schedules, visit.departureStatus, visit.arrivalStatus))
          else LastState(s.subs, sid, key, vid))
  }

  lemma CheckedQueuesNews(w: World, s: State, visit: StopVisit, s': State)
    requires Checked(w, s, visit, s')
    ensures QueuesNews(w, s, visit, s')
  {
    forall key ensures Above(w, visit, key) <==> StandsFor(w, visit, key) {
    }
    forall sid, key
      ensures Listens(w, s.subs, sid, key, visit) <==> Hears(w, s.subs, sid, key, visit)
      ensures Listens(w, s.subs, sid, key, visit) ==>
              (Worth(s.subs, sid, key, visit) <==> HasNews(s.subs, sid, key, visit))
    {
      HearsIfListens(w, s.subs, sid, key, visit);
    }
  }

  lemma HearsIfListens(w: World, subs: Table, sid: string, key: string, visit: StopVisit)
    ensures Listens(w, subs, sid, key, visit) <==> Hears(w, subs, sid, key, visit)
    ensures Listens(w, subs, sid, key, visit) ==> (Worth(subs, sid, key, visit) <==> HasNews(subs, sid, key, visit))
  {
    if sid in subs {
      var sub := subs[sid];
      var text := OptionOf(sub, "LineRef");
      assert text == "" ==> ':' !in text;
      if key in sub.resources && visit.id in sub.resources[key].lastStates {
        ChangedIffWorthTelling(sub.resources[key].lastStates[visit.id], visit, OptionOf(sub, "ChangeBeforeUpdates"));
      }
    }
  }

  /** The visit was queued for the subscription, which first holds the reference at `i` of
      those of its stop area and the ones above. */
  ghost predicate Due(w: World, s: State, sid: string, vid: string, i: int) {
    && sid in s.subs && sid in s.queue && vid in s.queue[sid] && vid in w.visits
    && FirstHeldAt(s.subs[sid].resources.Keys, w.ascendants(w.visits[vid].stopAreaId), i)
  }

  ghost predicate DueUnder(w: World, s: State, sid: string, ref: string, vid: string) {
    exists i :: Due(w, s, sid, vid, i) && w.ascendants(w.visits[vid].stopAreaId)[i].value == ref
  }

  ghost predicate DueThrough(w: World, s: State, sid: string, key: string, vid: string) {
    exists i :: Due(w, s, sid, vid, i)
                && var o := w.ascendants(w.visits[vid].stopAreaId)[i]; o.kind + ":" + o.value == key
  }

  ghost predicate ListsCancelled(sent: map<string, Deliveries>, sid: string, ref: string, vid: string) {
    sid in sent && ref in sent[sid] && vid in sent[sid][ref].cancelled
  }

  ghost predicate ListsMonitored(sent: map<string, Deliveries>, sid: string, ref: string, vid: string) {
    sid in sent && ref in sent[sid] && vid in sent[sid][ref].monitored
  }

  ghost predicate IsOver(visit: StopVisit) {
    visit.arrivalStatus == "cancelled" || visit.departureStatus == "cancelled" || visit.departureStatus == "departed"
  }

  /** Each due visit that the builder accepts is sent under its first held reference, among
      the cancelled ones exactly if it is over, and nothing else is sent; what was sent is
      the state told last. */
  ghost predicate SendsDue(w: World, s: State, s': State, sent: map<string, Deliveries>) {
    && (forall sid, ref, vid :: ListsCancelled(sent, sid, ref, vid) <==>
          DueUnder(w, s, sid, ref, vid) && IsOver(w.visits[vid]) && w.canCancel(w.visits[vid]))
    && (forall sid, ref, vid :: ListsMonitored(sent, sid, ref, vid) <==>
          DueUnder(w, s, sid, ref, vid) && !IsOver(w.visits[vid]) && w.canMonitor(w.visits[vid]))
    && (forall sid, ref :: sid in sent && ref in sent[sid] ==>
          NoDuplicates(sent[sid][ref].cancelled) && NoDuplicates(sent[sid][ref].monitored))
    && (forall sid, key, vid :: LastState(s'.subs, sid, key, vid) ==
          if DueThrough(w, s, sid, key, vid) && LastState(s.subs, sid, key, vid).Some?
             && (if IsOver(w.visits[vid]) then w.canCancel(w.visits[vid]) else w.canMonitor(w.visits[vid]))
          then Some(LastChange(w.visits[vid].schedules, w.visits[vid].departureStatus, w.visits[vid].arrivalStatus))
          else LastState(s.subs, sid, key, vid))
  }

  lemma DueUnderIsPicked(w: World, s: State, sid: string, vid: string)
    requires sid in s.subs
    ensures forall ref :: DueUnder(w, s, sid, ref, vid) <==>
              vid in Queue(s, sid) && Picked(w, s.subs[sid].resources.Keys, vid).Some?
              && Picked(w, s.subs[sid].resources.Keys, vid).value.value == ref
    ensures forall key :: DueThrough(w, s, sid, key, vid) <==>
              vid in Queue(s, sid) && Picked(w, s.subs[sid].resources.Keys, vid).Some?
              && Picked(w, s.subs[sid].resources.Keys, vid).value.Key() == key
  {
    if vid in w.visits {
      var resources, refs := s.subs[sid].resources.Keys, w.ascendants(w.visits[vid].stopAreaId);
      var first := FirstHeldIsFirst(resources, refs);
      assert Picked(w, resources, vid) == FirstHeld(resources, refs);
      forall i | Due(w, s, sid, vid, i)
          ensures FirstHeldAt(resources, refs, i) && i == first && FirstHeld(resources, refs).Some? {
      }
      assert vid in Queue(s, sid) && FirstHeld(resources, refs).Some? ==> Due(w, s, sid, vid, first);
    }
  }

  lemma DrainedSendsDue(w: World, s: State, s': State, sent: map<string, Deliveries>)
    requires Drained(w, s, s', sent)
    ensures SendsDue(w, s, s', sent)
  {
    forall sid, ref, vid
      ensures ListsCancelled(sent, sid, ref, vid) <==>
              DueUnder(w, s, sid, ref, vid) && IsOver(w.visits[vid]) && w.canCancel(w.visits[vid])
      ensures ListsMonitored(sent, sid, ref, vid) <==>
              DueUnder(w, s, sid, ref, vid) && !IsOver(w.visits[vid]) && w.canMonitor(w.visits[vid])
    {
      SentItemIsDue(w, s, s', sent, sid, ref, vid);
    }
    forall sid, ref | sid in sent && ref in sent[sid]
      ensures NoDuplicates(sent[sid][ref].cancelled) && NoDuplicates(sent[sid][ref].monitored)
    {
      assert TellsQueue(w, s, sid, sent);
    }
    forall sid, key, vid
      ensures LastState(s'.subs, sid, key, vid) ==
          if DueThrough(w, s, sid, key, vid) && LastState(s.subs, sid, key, vid).Some?
             && (if IsOver(w.visits[vid]) then w.canCancel(w.visits[vid]) else w.canMonitor(w.visits[vid]))
          then Some(LastChange(w.visits[vid].schedules, w.visits[vid].departureStatus, w.visits[vid].arrivalStatus))
          else LastState(s.subs, sid, key, vid)
    {
      if sid in s.subs {
        DueUnderIsPicked(w, s, sid, vid);
      }
    }
  }

  lemma SentItemIsDue(w: World, s: State, s': State, sent: map<string, Deliveries>, sid: string, ref: string,
                      vid: string)
    requires Drained(w, s, s', sent)
    ensures ListsCancelled(sent, sid, ref, vid) <==>
            DueUnder(w, s, sid, ref, vid) && IsOver(w.visits[vid]) && w.canCancel(w.visits[vid])
    ensures ListsMonitored(sent, sid, ref, vid) <==>
            DueUnder(w, s, sid, ref, vid) && !IsOver(w.visits[vid]) && w.canMonitor(w.visits[vid])
  {
    if sid in s.subs {
      assert TellsQueue(w, s, sid, sent);
      DueUnderIsPicked(w, s, sid, vid);
      var deliveries := if sid in sent then sent[sid] else map[];
      assert ListsCancelled(sent, sid, ref, vid) <==> Lists1(deliveries, ref, vid, true);
      assert ListsMonitored(sent, sid, ref, vid) <==> Lists1(deliveries, ref, vid, false);
    }
  }

  class Broadcaster {
    var subscriptions: Table
    var toBroadcast: map<string, seq<string>>

    constructor (subscriptions: Table)
      ensures Contents() == State(subscriptions, map[])
    {
      this.subscriptions := subscriptions;
      toBroadcast := map[];
    }

    ghost function Contents(): State
      reads this
    {
      State(subscriptions, toBroadcast)
    }

    /** The body of the inner loop of checkEvent, for one subscription and one resource. */
    method CheckResource(w: World, visit: StopVisit, sid: string, key: string, ids: seq<string>,
                         ghost before: Table, ghost done: Pairs)
      returns (ids': seq<string>)
      requires HasResource(before, sid, key) && before[sid].kind == STOP_MONITORING_BROADCAST
      requires Marked(w, before, subscriptions, visit, done) && Hits(w, before, visit, done, ids)
      modifies this`subscriptions
      ensures Marked(w, before, subscriptions, visit, done + {(sid, key)})
      ensures Hits(w, before, visit, done + {(sid, key)}, ids')
    {
      ids' := ids;
      ghost var subs := subscriptions;
      SameShapeSameResources(before, subs, sid, key);
      var sub := subscriptions[sid];
      var resource := sub.resources[key];
      SameShapeSameListeners(w, before, subs, sid, key, visit);
      if resource.subscribedUntil < w.now {
        return;
      }
      var filter := LineFilter(w, sub);
      if filter.Some? && filter.value != w.journeyLine(visit.vehicleJourneyId) {
        return;
      }
      if visit.id in resource.lastStates {
        var changed := HasChanged(resource.lastStates[visit.id], visit, OptionOf(sub, "ChangeBeforeUpdates"));
        if !changed {
          return;
        }
      } else {
        OneLastState(subs, sid, key, visit.id, Record(visit));
        subscriptions := WithLastState(subscriptions, sid, key, visit.id, Record(visit));
        SameShapeTransitive(before, subs, subscriptions);
      }
      ids' := ids + [sid];
    }

    /** checkEvent: every resource above the visit, in every subscription that holds it. */
    method CheckEvent(w: World, visit: StopVisit) returns (ids: seq<string>)
      modifies this`subscriptions
      ensures visit.origin == w.slug ==> ids == [] && subscriptions == old(subscriptions)
      ensures visit.origin != w.slug ==> exists done ::
                && Covers(w, old(subscriptions), visit, done)
                && Marked(w, old(subscriptions), subscriptions, visit, done)
                && Hits(w, old(subscriptions), visit, done, ids)
    {
      ids := [];
      if visit.origin == w.slug {
        return;
      }
      ghost var before := subscriptions;
      var refs := w.ascendants(visit.stopAreaId);
      ghost var done: Pairs := {};
      for i := 0 to |refs|
        invariant Marked(w, before, subscriptions, visit, done)
        invariant Hits(w, before, visit, done, ids)
        invariant Visited(before, refs[..i], done)
      {
        ids, done := CheckReference(w, visit, refs[i].Key(), ids, before, done);
        assert refs[..i + 1] == refs[..i] + [refs[i]];
      }
      assert refs[..|refs|] == refs;
    }

    /** The inner loop of checkEvent: the subscriptions that hold one resource. */
    method CheckReference(w: World, visit: StopVisit, key: string, ids: seq<string>, ghost before: Table,
                          ghost done: Pairs)
      returns (ids': seq<string>, ghost done': Pairs)
      requires Marked(w, before, subscriptions, visit, done) && Hits(w, before, visit, done, ids)
      modifies this`subscriptions
      ensures Marked(w, before, subscriptions, visit, done') && Hits(w, before, visit, done', ids')
      ensures forall sid, k :: (sid, k) in done' <==>
                (sid, k) in done || (k == key && HasResource(before, sid, key)
                                     && before[sid].kind == STOP_MONITORING_BROADCAST)
    {
      ids', done' := ids, done;
      var found := Select(subscriptions, Holding(key, STOP_MONITORING_BROADCAST));
      FoundAsBefore(before, subscriptions, key, found);
      for j := 0 to |found|
        invariant Marked(w, before, subscriptions, visit, done') && Hits(w, before, visit, done', ids')
        invariant done' == done + PairsWith(found[..j], key)
      {
        PairsGrow(found, j, key);
        ids' := CheckResource(w, visit, found[j], key, ids', before, done');
        done' := done' + {(found[j], key)};
      }
      assert found[..|found|] == found;
    }

    /** addStopVisit. */
    method AddStopVisit(ids: seq<string>, vid: string)
      modifies this`toBroadcast
      ensures forall sid, v :: Queued(Contents(), sid, v) <==>
              Queued(old(Contents()), sid, v) || (v == vid && sid in ids)
      ensures forall sid :: Queue(old(Contents()), sid) <= Queue(Contents(), sid)
    {
      for i := 0 to |ids|
        invariant forall sid, v :: Queued(Contents(), sid, v) <==>
                  Queued(old(Contents()), sid, v) || (v == vid && sid in ids[..i])
        invariant forall sid :: Queue(old(Contents()), sid) <= Queue(Contents(), sid)
        invariant subscriptions == old(subscriptions)
      {
        assert ids[..i + 1] == ids[..i] + [ids[i]];
        toBroadcast := toBroadcast[ids[i] := (if ids[i] in toBroadcast then toBroadcast[ids[i]] else []) + [vid]];
      }
      assert ids[..|ids|] == ids;
    }

    /** The handling of one stop visit in HandleStopMonitoringBroadcastEvent. */
    method HandleVisit(w: World, visit: StopVisit)
      modifies this
      ensures Checked(w, old(Contents()), visit, Contents())
      ensures QueuesNews(w, old(Contents()), visit, Contents())
      ensures forall sid :: Queue(old(Contents()), sid) <= Queue(Contents(), sid)
    {
      ghost var s := Contents();
      var ids := CheckEvent(w, visit);
      if visit.origin != w.slug {
        ghost var done :| Covers(w, s.subs, visit, done) && Marked(w, s.subs, subscriptions, visit, done)
            && Hits(w, s.subs, visit, done, ids);
        HitsAreNotified(w, s.subs, visit, done, ids);
        MarkedIsChecked(w, s.subs, subscriptions, visit, done);
      } else {
        assert SameShape(s.subs, s.subs);
      }
      if |ids| != 0 {
        AddStopVisit(ids, visit.id);
      }
      CheckedQueuesNews(w, s, visit, Contents());
    }

    /** FindFollowingByVehicleJourneyId and FindFollowingByStopAreaId of the model. */
    static method FindFollowing(w: World, q: Query) returns (following: seq<StopVisit>)
      requires KeyedById(w.visits)
      ensures Scan(following, w.visits, q) && SortedByTime(following)
    {
      var ids := Enumerate(w.visits.Keys);
      var found: seq<StopVisit> := [];
      for i := 0 to |ids|
        invariant NoDuplicates(found)
        invariant forall v :: v in found ==> v.id in ids[..i] && v.id in w.visits && w.visits[v.id] == v && q.Selects(v)
        invariant forall j :: 0 <= j < i && ids[j] in w.visits && q.Selects(w.visits[ids[j]]) ==>
                  w.visits[ids[j]] in found
      {
        assert ids[i] in w.visits.Keys;
        if q.Selects(w.visits[ids[i]]) {
          found := found + [w.visits[ids[i]]];
        }
      }
      forall id | id in w.visits && q.Selects(w.visits[id]) ensures w.visits[id] in found {
        assert id in w.visits.Keys;
      }
      following := SortByTime(found);
      PermutedScan(found, following, w.visits, q);
    }

    /** HandleStopMonitoringBroadcastEvent, for a stop visit or a vehicle journey. */
    method HandleStopMonitoringBroadcastEvent(w: World, event: BroadcastEvent)
      requires KeyedById(w.visits)
      modifies this
      ensures event.OfStopVisit? && event.id in w.visits ==> Checked(w, old(Contents()), w.visits[event.id], Contents())
      ensures event.OfStopVisit? && event.id !in w.visits ==> Contents() == old(Contents())
      ensures event.OfVehicleJourney? ==> exists following ::
                && FollowOnJourney(w, event.id, following)
                && CheckedAll(w, old(Contents()), following, Contents())
    {
      match event
      case OfStopVisit(id) =>
        if id in w.visits {
          HandleVisit(w, w.visits[id]);
        }
      case OfVehicleJourney(id) =>
        var following := FindFollowing(w, FollowingOfVehicleJourney(id, w.now));
        ScanFollowsOnJourney(following, w.visits, id, w.now);
        HandleVisits(w, following);
    }

    /** The loop over the visits of a journey. */
    method HandleVisits(w: World, following: seq<StopVisit>)
      modifies this
      ensures CheckedAll(w, old(Contents()), following, Contents())
    {
      for i := 0 to |following|
        invariant CheckedAll(w, old(Contents()), following[..i], Contents())
      {
        ghost var mid := Contents();
        HandleVisit(w, following[i]);
        assert following[..i + 1][..i] == following[..i] && following[..i + 1][i] == following[i];
        assert CheckedAll(w, old(Contents()), following[..i + 1][..i], mid);
      }
      assert following[..|following|] == following;
    }

    /** addStopAreaStopVisits, for the stop area of a new resource; `visits` are those that
        are still to come in its family, area after area. */
    method AddStopAreaStopVisits(w: World, stopAreaId: string, sid: string, key: string)
      returns (ghost visits: seq<StopVisit>)
      requires HasResource(subscriptions, sid, key) && KeyedById(w.visits)
      modifies this
      ensures Introduced(w, old(Contents()), Contents(), sid, key, visits)
      ensures QueuesToCome(w, old(Contents()), Contents(), sid, key, w.family(stopAreaId))
    {
      visits := [];
      ghost var s := Contents();
      assert SameShape(s.subs, s.subs);
      var family := w.family(stopAreaId);
      for i := 0 to |family|
        invariant ListsToCome(w, family[..i], visits)
        invariant Introduced(w, s, Contents(), sid, key, visits)
      {
        ghost var following := IntroduceFollowing(w, family[i], sid, key, s, visits);
        MoreToCome(w, family, i, visits, following);
        visits := visits + following;
      }
      assert family[..|family|] == family;
      IntroducedIsToCome(w, s, Contents(), sid, key, visits, family);
    }

    /** The body of its loop. */
    method IntroduceFollowing(w: World, area: string, sid: string, key: string, ghost s: State,
                              ghost visits: seq<StopVisit>)
      returns (ghost following: seq<StopVisit>)
      requires HasResource(s.subs, sid, key) && Introduced(w, s, Contents(), sid, key, visits) && KeyedById(w.visits)
      modifies this
      ensures ListsToCome(w, [area], following)
      ensures Introduced(w, s, Contents(), sid, key, visits + following)
    {
      var found := FindFollowing(w, FollowingOfStopArea(area, w.now));
      ScanFollowsAtStopArea(found, w.visits, area, w.now);
      IntroduceVisits(w, sid, key, found, s, visits);
      following := found;
    }

    /** The inner loop: the visits of one stop area. */
    method IntroduceVisits(w: World, sid: string, key: string, following: seq<StopVisit>, ghost s: State,
                           ghost visits: seq<StopVisit>)
      requires HasResource(s.subs, sid, key) && Introduced(w, s, Contents(), sid, key, visits)
      requires KeyedById(w.visits) && forall v :: v in following ==> v.id in w.visits && w.visits[v.id] == v
      modifies this
      ensures Introduced(w, s, Contents(), sid, key, visits + following)
    {
      assert visits + following[..0] == visits;
      for i := 0 to |following|
        invariant Introduced(w, s, Contents(), sid, key, visits + following[..i])
      {
        assert following[i] in following;
        assert visits + following[..i + 1] == visits + following[..i] + [following[i]];
        IntroduceVisit(w, sid, key, following[i], s, visits + following[..i]);
      }
      assert following[..|following|] == following;
    }

    /** The body of its loop. */
    method IntroduceVisit(w: World, sid: string, key: string, visit: StopVisit, ghost s: State,
                          ghost visits: seq<StopVisit>)
      requires HasResource(s.subs, sid, key) && Introduced(w, s, Contents(), sid, key, visits)
      requires KeyedById(w.visits) && visit.id in w.visits && w.visits[visit.id] == visit
      modifies this
      ensures Introduced(w, s, Contents(), sid, key, visits + [visit])
    {
      ghost var mid := Contents();
      SameShapeSameResources(s.subs, mid.subs, sid, key);
      assert SameSubscription(s.subs[sid], mid.subs[sid]);
      if visit.id in subscriptions[sid].resources[key].lastStates || !PassesFilter(w, subscriptions[sid], visit) {
        assert LastState(mid.subs, sid, key, visit.id).Some? || !PassesFilter(w, s.subs[sid], visit);
        SkippedVisit(w, s, mid, sid, key, visits, visit);
        return;
      }
      OneLastState(mid.subs, sid, key, visit.id, Record(visit));
      subscriptions := WithLastState(subscriptions, sid, key, visit.id, Record(visit));
      AddStopVisit([sid], visit.id);
      IntroducedVisit(w, s, mid, Contents(), sid, key, visits, visit);
    }

    /** findResource. */
    method FindResource(w: World, stopAreaId: string, sid: string) returns (found: Option<ObjectId>)
      requires sid in subscriptions
      ensures found == FirstHeld(subscriptions[sid].resources.Keys, w.ascendants(stopAreaId))
      ensures forall o :: found == Some(o) <==>
                exists i :: FirstHeldAt(subscriptions[sid].resources.Keys, w.ascendants(stopAreaId), i)
                            && w.ascendants(stopAreaId)[i] == o
      ensures found.None? <==>
                forall j :: 0 <= j < |w.ascendants(stopAreaId)| ==>
                  w.ascendants(stopAreaId)[j].kind + ":"
                      + w.ascendants(stopAreaId)[j].value !in subscriptions[sid].resources
    {
      var refs := w.ascendants(stopAreaId);
      FirstHeldByPosition(subscriptions[sid].resources.Keys, refs);
      for i := 0 to |refs|
        invariant FirstHeld(subscriptions[sid].resources.Keys, refs) ==
                  FirstHeld(subscriptions[sid].resources.Keys, refs[i..])
      {
        if refs[i].Key() in subscriptions[sid].resources {
          return Some(refs[i]);
        }
      }
      return None;
    }

    /** One queued visit of one subscription: the body of the inner loop of the drain. */
    method TellVisit(w: World, sid: string, vid: string, monitoredStopVisits: set<string>, deliveries: Deliveries,
                     ghost before: Table)
      returns (monitored: set<string>, deliveries': Deliveries)
      requires sid in before && Updated(w, before, subscriptions, sid, monitoredStopVisits)
      requires Tells(w, before[sid].resources.Keys, monitoredStopVisits, deliveries)
      modifies this`subscriptions
      ensures Updated(w, before, subscriptions, sid, monitored)
      ensures Tells(w, before[sid].resources.Keys, monitored, deliveries')
      ensures monitored == monitoredStopVisits + if Resolves(w, before[sid].resources.Keys, vid) then {vid} else {}
    {
      monitored, deliveries' := monitoredStopVisits, deliveries;
      if vid in monitored {
        return;
      }
      if vid !in w.visits {
        return;
      }
      var visit := w.visits[vid];
      assert sid in subscriptions.Keys && SameSubscription(before[sid], subscriptions[sid]);
      var found := FindResource(w, visit.stopAreaId, sid);
      if found.None? {
        return;
      }
      var ref, key := found.value.value, found.value.Key();
      if ref !in deliveries' {
        deliveries' := deliveries'[ref := Delivery([], [])];
        EmptyDeliveryTellsNothing(w, before[sid].resources.Keys, monitored, deliveries, ref);
      }
      if !Buildable(w, visit) {
        return;
      }
      OneMoreTold(w, before[sid].resources.Keys, monitored, deliveries', vid);
      var delivery := deliveries'[ref];
      deliveries' := deliveries'[ref := if TerminalVisit(visit) then delivery.(cancelled := delivery.cancelled + [vid])
                                        else delivery.(monitored := delivery.monitored + [vid])];
      monitored := monitored + {vid};
      UpdateLastState(w, sid, key, vid, before, monitoredStopVisits);
    }

    /** lastState.UpdateState, when the resource has a last state for the visit. */
    method UpdateLastState(w: World, sid: string, key: string, vid: string, ghost before: Table,
                           ghost told: set<string>)
      requires sid in before && Updated(w, before, subscriptions, sid, told) && vid !in told && vid in w.visits
      requires Picked(w, before[sid].resources.Keys, vid).Some?
      requires Picked(w, before[sid].resources.Keys, vid).value.Key() == key
      modifies this`subscriptions
      ensures Updated(w, before, subscriptions, sid, told + {vid})
    {
      ghost var subs := subscriptions;
      SameShapeSameResources(before, subs, sid, key);
      FirstHeldIsHeld(before[sid].resources.Keys, w.ascendants(w.visits[vid].stopAreaId));
      assert HasResource(subs, sid, key);
      if vid in subscriptions[sid].resources[key].lastStates {
        OneLastState(subs, sid, key, vid, Record(w.visits[vid]));
        subscriptions := WithLastState(subscriptions, sid, key, vid, Record(w.visits[vid]));
        SameShapeTransitive(before, subs, subscriptions);
      }
    }

    /** The visits queued for one subscription. */
    method TellSubscription(w: World, sid: string, stopVisits: seq<string>,
                            ghost before: Table) returns (deliveries: Deliveries)
      requires sid in before && Updated(w, before, subscriptions, sid, {})
      modifies this`subscriptions
      ensures Updated(w, before, subscriptions, sid, Resolved(w, before[sid].resources.Keys, stopVisits))
      ensures Tells(w, before[sid].resources.Keys, Resolved(w, before[sid].resources.Keys, stopVisits), deliveries)
    {
      deliveries := map[];
      var monitored: set<string> := {};
      for i := 0 to |stopVisits|
        invariant monitored == Resolved(w, before[sid].resources.Keys, stopVisits[..i])
        invariant Updated(w, before, subscriptions, sid, monitored)
        invariant Tells(w, before[sid].resources.Keys, monitored, deliveries)
      {
        assert stopVisits[..i + 1] == stopVisits[..i] + [stopVisits[i]];
        monitored, deliveries := TellVisit(w, sid, stopVisits[i], monitored, deliveries, before);
      }
      assert stopVisits[..|stopVisits|] == stopVisits;
    }

    /** Only deliveries that are not empty are sent. */
    static method DropEmpty(deliveries: Deliveries) returns (sent: Deliveries)
      ensures NoEmptyDelivery(sent)
      ensures forall ref :: ref in sent ==> ref in deliveries && sent[ref] == deliveries[ref]
      ensures forall ref, vid, terminal :: Lists1(sent, ref, vid, terminal) <==> Lists1(deliveries, ref, vid, terminal)
    {
      sent := map[];
      var refs := Enumerate(deliveries.Keys);
      for i := 0 to |refs|
        invariant forall ref :: ref in sent <==>
                    ref in refs[..i] && ref in deliveries
                        && (deliveries[ref].monitored != [] || deliveries[ref].cancelled != [])
        invariant forall ref :: ref in sent ==> sent[ref] == deliveries[ref]
      {
        var ref := refs[i];
        assert ref in deliveries.Keys && refs[..i + 1] == refs[..i] + [ref];
        if |deliveries[ref].monitored| != 0 || |deliveries[ref].cancelled| != 0 {
          sent := sent[ref := deliveries[ref]];
        }
      }
      assert refs[..|refs|] == refs;
      forall ref | ref in deliveries ensures ref in refs {
        assert ref in deliveries.Keys;
      }
    }

    /** prepareSIRIStopMonitoringNotify: the notifications sent, one at most for each subscription. */
    method PrepareSIRIStopMonitoringNotify(w: World) returns (sent: map<string, Deliveries>)
      modifies this
      ensures Drained(w, old(Contents()), Contents(), sent)
      ensures SendsDue(w, old(Contents()), Contents(), sent)
    {
      ghost var s := Contents();
      var events := toBroadcast;
      toBroadcast := map[];
      sent := map[];
      var sids := Enumerate(events.Keys);
      assert SameShape(s.subs, s.subs);
      for i := 0 to |sids|
        invariant toBroadcast == map[]
        invariant DrainedFor(w, s, subscriptions, sent, Prefix(sids, i))
      {
        var sid := sids[i];
        assert sid in events.Keys;
        PrefixGrows(sids, i);
        if sid !in subscriptions {
          assert sid !in s.subs.Keys;
          continue;
        }
        ghost var before, sent' := subscriptions, sent;
        assert sid in before.Keys;
        var deliveries := TellSubscription(w, sid, events[sid], before);
        var notification := DropEmpty(deliveries);
        if |notification| != 0 {
          sent := sent[sid := notification];
        }
        OneMoreDrained(w, s, before, subscriptions, sent', sent, Prefix(sids, i), sid, deliveries, notification);
      }
      PrefixIsAll(sids, events.Keys);
      AllDrained(w, s, subscriptions, sent);
      DrainedSendsDue(w, s, Contents(), sent);
    }

    static lemma FoundAsBefore(before: Table, after: Table, key: string, found: seq<string>)
      requires SameShape(before, after) && Finds(after, Holding(key, STOP_MONITORING_BROADCAST), found)
      ensures forall sid :: sid in found <==>
                HasResource(before, sid, key) && before[sid].kind == STOP_MONITORING_BROADCAST
    {
      forall sid
        ensures sid in found <==> HasResource(before, sid, key) && before[sid].kind == STOP_MONITORING_BROADCAST
      {
        SameShapeSameResources(before, after, sid, key);
        assert sid in found <==> Found(after, Holding(key, STOP_MONITORING_BROADCAST), sid);
      }
    }

    static lemma PairsGrow(sids: seq<string>, j: nat, key: string)
      requires j < |sids|
      ensures sids[j] in sids && PairsWith(sids[..j + 1], key) == PairsWith(sids[..j], key) + {(sids[j], key)}
    {
      assert sids[..j + 1] == sids[..j] + [sids[j]];
    }

    static ghost function PairsWith(sids: seq<string>, key: string): Pairs {
      set sid | sid in sids :: (sid, key)
    }

    /** The pairs of some of the ascendants. */
    static ghost predicate Visited(subs: Table, refs: seq<ObjectId>, done: Pairs) {
      forall sid, key :: (sid, key) in done <==>
        key in Keys(refs) && HasResource(subs, sid, key) && subs[sid].kind == STOP_MONITORING_BROADCAST
    }
  }

  /** All the pairs above the visit have been looked at. */
  ghost predicate Covers(w: World, subs: Table, visit: StopVisit, done: Pairs) {
    Broadcaster.Visited(subs, w.ascendants(visit.stopAreaId), done)
  }

  datatype BroadcastEvent = OfStopVisit(id: string) | OfVehicleJourney(id: string)

  /** A stored visit of one of these stop areas, later than now. */
  ghost predicate StillToCome(w: World, areas: seq<string>, v: StopVisit) {
    v.id in w.visits && w.visits[v.id] == v && v.stopAreaId in areas && DecidingTime(v) > w.now
  }

  ghost predicate ListsToCome(w: World, areas: seq<string>, visits: seq<StopVisit>) {
    forall v :: v in visits <==> StillToCome(w, areas, v)
  }

  lemma MoreToCome(w: World, family: seq<string>, i: nat, visits: seq<StopVisit>, following: seq<StopVisit>)
    requires i < |family| && ListsToCome(w, family[..i], visits) && ListsToCome(w, [family[i]], following)
    ensures ListsToCome(w, family[..i + 1], visits + following)
  {
    assert family[..i + 1] == family[..i] + [family[i]];
  }

  /** The visits of the journey that are still to come, in their order. */
  ghost predicate FollowOnJourney(w: World, journeyId: string, following: seq<StopVisit>) {
    && NoDuplicates(following) && FollowInOrder(following, w.now)
    && forall v :: v in following <==>
         v.id in w.visits && w.visits[v.id] == v && v.vehicleJourneyId == journeyId && DecidingTime(v) > w.now
  }

  /** The visit is still to come at one of the stop areas, on the line of the subscription,
      and was never told through the resource. */
  ghost predicate ToCome(w: World, s: State, sid: string, key: string, areas: seq<string>, vid: string)
    requires HasResource(s.subs, sid, key)
  {
    && vid in w.visits && w.visits[vid].stopAreaId in areas && DecidingTime(w.visits[vid]) > w.now
    && vid !in s.subs[sid].resources[key].lastStates && OnItsLine(w, s.subs[sid], w.visits[vid])
  }

  /** Exactly those visits get queued for the subscription, and their states kept. */
  ghost predicate QueuesToCome(w: World, s: State, s': State, sid: string, key: string, areas: seq<string>)
    requires HasResource(s.subs, sid, key)
  {
    && (forall d, vid :: Queued(s', d, vid) <==> Queued(s, d, vid) || (d == sid && ToCome(w, s, sid, key, areas, vid)))
    && (forall d, k, vid :: LastState(s'.subs, d, k, vid) ==
          if d == sid && k == key && ToCome(w, s, sid, key, areas, vid)
          then Some(LastChange(w.visits[vid].schedules, w.visits[vid].departureStatus, w.visits[vid].arrivalStatus))
          else LastState(s.subs, d, k, vid))
  }

  lemma IntroducedIsToCome(w: World, s: State, s': State, sid: string, key: string, visits: seq<StopVisit>,
                           areas: seq<string>)
    requires HasResource(s.subs, sid, key) && Introduced(w, s, s', sid, key, visits)
    requires KeyedById(w.visits) && ListsToCome(w, areas, visits)
    ensures QueuesToCome(w, s, s', sid, key, areas)
  {
    forall vid ensures New(w, s, sid, key, vid, visits) <==> ToCome(w, s, sid, key, areas, vid) {
      if vid in w.visits {
        assert w.visits[vid] in visits <==> StillToCome(w, areas, w.visits[vid]);
        FilterIsOnItsLine(w, s.subs[sid], w.visits[vid]);
      }
    }
  }

  lemma FilterIsOnItsLine(w: World, sub: Subscription, visit: StopVisit)
    ensures PassesFilter(w, sub, visit) <==> OnItsLine(w, sub, visit)
  {
    var text := OptionOf(sub, "LineRef");
    assert text == "" ==> ':' !in text;
  }

  lemma HitsAreNotified(w: World, subs: Table, visit: StopVisit, done: Pairs, ids: seq<string>)
    requires visit.origin != w.slug && Covers(w, subs, visit, done) && Hits(w, subs, visit, done, ids)
    ensures forall sid :: sid in ids <==> Notified(w, subs, sid, visit)
  {
    forall sid ensures sid in ids <==> Notified(w, subs, sid, visit) {
      if key :| Above(w, visit, key) && Hit(w, subs, sid, key, visit) {
        assert (sid, key) in done;
      }
    }
  }

  lemma MarkedIsChecked(w: World, before: Table, after: Table, visit: StopVisit, done: Pairs)
    requires visit.origin != w.slug && Covers(w, before, visit, done) && Marked(w, before, after, visit, done)
    ensures forall sid, key, vid :: LastState(after, sid, key, vid) ==
              if vid == visit.id && Above(w, visit, key) && Listens(w, before, sid, key, visit)
                 && LastState(before, sid, key, vid).None?
              then Some(Record(visit)) else LastState(before, sid, key, vid)
  {
    forall sid, key ensures Listens(w, before, sid, key, visit) ==> ((sid, key) in done <==> Above(w, visit, key)) {
    }
  }

  /** The subscription holds a resource for the reference at that position, and for none before it. */
  ghost predicate FirstHeldAt(resources: set<string>, refs: seq<ObjectId>, i: int) {
    && 0 <= i < |refs| && refs[i].kind + ":" + refs[i].value in resources
    && forall j :: 0 <= j < i ==> refs[j].kind + ":" + refs[j].value !in resources
  }

  lemma {:induction false} FirstHeldIsFirst(resources: set<string>, refs: seq<ObjectId>) returns (i: int)
    ensures FirstHeld(resources, refs).None? ==>
              forall j :: 0 <= j < |refs| ==> refs[j].kind + ":" + refs[j].value !in resources
    ensures FirstHeld(resources, refs).Some? ==>
            FirstHeldAt(resources, refs, i) && FirstHeld(resources, refs).value == refs[i]
  {
    if refs == [] {
      i := 0;
    } else if refs[0].Key() in resources {
      i := 0;
    } else {
      i := FirstHeldIsFirst(resources, refs[1..]);
      forall j | 0 < j < |refs|
        ensures FirstHeld(resources, refs).None? || j <= i ==> refs[j].kind + ":" + refs[j].value !in resources
      {
        assert refs[j] == refs[1..][j - 1];
      }
      i := i + 1;
    }
  }

  lemma FirstHeldByPosition(resources: set<string>, refs: seq<ObjectId>)
    ensures FirstHeld(resources, refs).None? <==>
            forall j :: 0 <= j < |refs| ==> refs[j].kind + ":" + refs[j].value !in resources
    ensures forall o :: FirstHeld(resources, refs) == Some(o) <==>
            exists i :: FirstHeldAt(resources, refs, i) && refs[i] == o
  {
    var first := FirstHeldIsFirst(resources, refs);
    forall i | FirstHeldAt(resources, refs, i) ensures FirstHeld(resources, refs).Some? && i == first {
    }
  }

  lemma {:induction false} FirstHeldIsHeld(resources: set<string>, refs: seq<ObjectId>)
    ensures FirstHeld(resources, refs).Some? ==> FirstHeld(resources, refs).value.Key() in resources
    ensures FirstHeld(resources, refs).Some? ==> FirstHeld(resources, refs).value in refs
  {
    if refs != [] && refs[0].Key() !in resources {
      FirstHeldIsHeld(resources, refs[1..]);
    }
  }

  /** The queued visits that resolve. */
  function Resolved(w: World, resources: set<string>, vids: seq<string>): set<string> {
    set vid | vid in vids && Resolves(w, resources, vid)
  }

  lemma EmptyDeliveryTellsNothing(w: World, resources: set<string>, told: set<string>, deliveries: Deliveries,
                                  ref: string)
    requires Tells(w, resources, told, deliveries) && ref !in deliveries
    ensures Tells(w, resources, told, deliveries[ref := Delivery([], [])])
  {
    var after := deliveries[ref := Delivery([], [])];
    forall r, vid, terminal ensures Lists1(after, r, vid, terminal) <==> Lists1(deliveries, r, vid, terminal) {
    }
    forall r | r in after ensures NoDuplicates(after[r].monitored) && NoDuplicates(after[r].cancelled) {
      assert r != ref ==> after[r] == deliveries[r];
    }
  }

  lemma OneMoreTold(w: World, resources: set<string>, told: set<string>, deliveries: Deliveries, vid: string)
    requires Tells(w, resources, told, deliveries) && vid !in told && vid in w.visits
    requires Picked(w, resources, vid).Some? && Picked(w, resources, vid).value.value in deliveries
    ensures var ref := Picked(w, resources, vid).value.value;
            var delivery := deliveries[ref];
            Tells(w, resources, told + {vid},
                  deliveries[ref := if TerminalVisit(w.visits[vid])
                                    then delivery.(cancelled := delivery.cancelled + [vid])
                                    else delivery.(monitored := delivery.monitored + [vid])])
  {
    var ref := Picked(w, resources, vid).value.value;
    var delivery := deliveries[ref];
    var terminal := TerminalVisit(w.visits[vid]);
    var after := deliveries[ref := if terminal then delivery.(cancelled := delivery.cancelled + [vid])
                                   else delivery.(monitored := delivery.monitored + [vid])];
    assert !Lists1(deliveries, ref, vid, terminal);
    forall r, v, t
      ensures Lists1(after, r, v, t) <==> Lists1(deliveries, r, v, t) || (r == ref && v == vid && t == terminal)
    {
    }
  }

  /** The subscriptions of `done` have been drained, the others not yet. */
  ghost predicate DrainedFor(w: World, s: State, after: Table, sent: map<string, Deliveries>, done: set<string>) {
    && SameShape(s.subs, after)
    && StatesTold(w, s, after, done)
    && NotifiedFor(w, s, sent, done)
  }

  ghost predicate NotifiedFor(w: World, s: State, sent: map<string, Deliveries>, done: set<string>) {
    && (forall sid :: sid in sent ==> sid in s.subs && sid in done && sent[sid] != map[] && NoEmptyDelivery(sent[sid]))
    && (forall sid :: sid in s.subs && sid in done ==> TellsQueue(w, s, sid, sent))
  }

  lemma OneMoreNotified(w: World, s: State, sent: map<string, Deliveries>, sent': map<string, Deliveries>,
                        done: set<string>, sid: string, notification: Deliveries)
    requires NotifiedFor(w, s, sent, done) && sid in s.subs && sid !in done && NoEmptyDelivery(notification)
    requires Tells(w, s.subs[sid].resources.Keys, Resolved(w, s.subs[sid].resources.Keys, Queue(s, sid)), notification)
    requires sent' == if |notification| != 0 then sent[sid := notification] else sent
    ensures NotifiedFor(w, s, sent', done + {sid})
  {
    assert |notification| == 0 ==> notification == map[];
    assert sid !in sent;
    assert TellsQueue(w, s, sid, sent');
    forall other | other in s.subs && other in done ensures TellsQueue(w, s, other, sent') {
      assert TellsQueue(w, s, other, sent) && other != sid;
    }
  }

  lemma OneMoreStateTold(w: World, s: State, before: Table, after: Table, done: set<string>, sid: string)
    requires StatesTold(w, s, before, done) && sid in before && sid in s.subs && sid !in done && sid in s.queue
    requires s.subs[sid].resources.Keys == before[sid].resources.Keys
    requires Updated(w, before, after, sid, Resolved(w, before[sid].resources.Keys, s.queue[sid]))
    ensures StatesTold(w, s, after, done + {sid})
  {
    forall vid ensures vid in Resolved(w, before[sid].resources.Keys, s.queue[sid]) <==> Told(w, s, sid, vid) {
    }
  }

  lemma OneMoreDrained(w: World, s: State, before: Table, after: Table, sent: map<string, Deliveries>,
                       sent': map<string, Deliveries>,
                       done: set<string>, sid: string, deliveries: Deliveries, notification: Deliveries)
    requires DrainedFor(w, s, before, sent, done) && sid in before && sid !in done && sid in s.queue
    requires Updated(w, before, after, sid, Resolved(w, before[sid].resources.Keys, s.queue[sid]))
    requires Tells(w, before[sid].resources.Keys, Resolved(w, before[sid].resources.Keys, s.queue[sid]), deliveries)
    requires NoEmptyDelivery(notification)
    requires forall ref :: ref in notification ==> ref in deliveries && notification[ref] == deliveries[ref]
    requires forall ref, vid, terminal :: Lists1(notification, ref, vid, terminal) <==>
             Lists1(deliveries, ref, vid, terminal)
    requires sent' == if |notification| != 0 then sent[sid := notification] else sent
    ensures DrainedFor(w, s, after, sent', done + {sid})
  {
    assert sid in s.subs.Keys && SameSubscription(s.subs[sid], before[sid]);
    SameShapeTransitive(s.subs, before, after);
    OneMoreStateTold(w, s, before, after, done, sid);
    NotEmptiedTells(w, s.subs[sid].resources.Keys, Resolved(w, s.subs[sid].resources.Keys, s.queue[sid]), deliveries,
                    notification);
    OneMoreNotified(w, s, sent, sent', done, sid, notification);
  }

  /** Dropping the empty deliveries changes nothing in what is told. */
  lemma NotEmptiedTells(w: World, resources: set<string>, told: set<string>, deliveries: Deliveries,
                        notification: Deliveries)
    requires Tells(w, resources, told, deliveries)
    requires forall ref :: ref in notification ==> ref in deliveries && notification[ref] == deliveries[ref]
    requires forall ref, vid, terminal :: Lists1(notification, ref, vid, terminal) <==>
             Lists1(deliveries, ref, vid, terminal)
    ensures Tells(w, resources, told, notification)
  {
  }

  lemma AllDrained(w: World, s: State, after: Table, sent: map<string, Deliveries>)
    requires DrainedFor(w, s, after, sent, s.queue.Keys)
    ensures Drained(w, s, State(after, map[]), sent)
  {
    forall sid | sid in s.subs ensures TellsQueue(w, s, sid, sent) {
      if sid !in s.queue {
        assert Resolved(w, s.subs[sid].resources.Keys, []) == {};
      }
    }
  }

  lemma SkippedVisit(w: World, s: State, mid: State, sid: string, key: string, visits: seq<StopVisit>, visit: StopVisit)
    requires HasResource(s.subs, sid, key) && Introduced(w, s, mid, sid, key, visits)
    requires KeyedById(w.visits) && visit.id in w.visits && w.visits[visit.id] == visit
    requires LastState(mid.subs, sid, key, visit.id).Some? || !PassesFilter(w, s.subs[sid], visit)
    ensures Introduced(w, s, mid, sid, key, visits + [visit])
  {
    forall vid ensures New(w, s, sid, key, vid, visits + [visit]) <==> New(w, s, sid, key, vid, visits) {
      assert LastState(mid.subs, sid, key, visit.id) ==
             if New(w, s, sid, key, visit.id, visits) then Some(Record(visit))
                 else LastState(s.subs, sid, key, visit.id);
    }
  }

  lemma IntroducedVisit(w: World, s: State, mid: State, s': State, sid: string, key: string, visits: seq<StopVisit>,
                        visit: StopVisit)
    requires HasResource(s.subs, sid, key) && Introduced(w, s, mid, sid, key, visits)
    requires KeyedById(w.visits) && visit.id in w.visits && w.visits[visit.id] == visit
    requires LastState(mid.subs, sid, key, visit.id).None? && PassesFilter(w, s.subs[sid], visit)
    requires SameShape(mid.subs, s'.subs)
    requires forall d, k, vid :: LastState(s'.subs, d, k, vid) ==
               if d == sid && k == key && vid == visit.id then Some(Record(visit)) else LastState(mid.subs, d, k, vid)
    requires forall d, vid :: Queued(s', d, vid) <==> Queued(mid, d, vid) || (vid == visit.id && d in [sid])
    ensures Introduced(w, s, s', sid, key, visits + [visit])
  {
    SameShapeTransitive(s.subs, mid.subs, s'.subs);
    forall vid
      ensures New(w, s, sid, key, vid, visits + [visit]) <==> New(w, s, sid, key, vid, visits) || vid == visit.id
    {
      assert LastState(mid.subs, sid, key, visit.id) ==
             if New(w, s, sid, key, visit.id, visits) then Some(Record(visit))
                 else LastState(s.subs, sid, key, visit.id);
    }
  }
}
