/** Stop visits and their schedules (model/stop_visit.go, model/stop_visit_schedule.go). */
module StopVisit {
  import opened Common

  datatype ScheduleKind = Actual | Expected | Aimed

  datatype Schedule = Schedule(departureTime: Time, arrivalTime: Time)

  type Schedules = map<ScheduleKind, Schedule>

  const NO_SCHEDULE := Schedule(ZERO_TIME, ZERO_TIME)

  /** Reference times prefer actual times to expected ones, and these to aimed ones. */
  const SCHEDULE_ORDER := [Actual, Expected, Aimed]

  function ScheduleOf(schedules: Schedules, kind: ScheduleKind): Schedule {
    if kind in schedules then schedules[kind] else NO_SCHEDULE
  }

  const ARRIVAL_CANCELLED := "cancelled"
  const ARRIVAL_NOREPORT := "noreport"
  const ARRIVAL_MISSED := "missed"
  const ARRIVAL_NOT_EXPECTED := "notExpected"

  const DEPARTURE_CANCELLED := "cancelled"
  const DEPARTURE_NOREPORT := "noreport"
  const DEPARTURE_DEPARTED := "departed"

  datatype StopVisit = StopVisit(
    id: string,
    stopAreaId: string,
    vehicleJourneyId: string,
    objectIds: ObjectIds,
    origin: string,
    collected: bool,
    collectedAt: Time,
    recordedAt: Time,
    schedules: Schedules,
    departureStatus: string,
    arrivalStatus: string,
    vehicleAtStop: bool,
    passageOrder: int,
    dataFrameRef: string)

  function FirstArrival(schedules: Schedules, kinds: seq<ScheduleKind>): Time {
    if kinds == [] then ZERO_TIME
    else if !IsZero(ScheduleOf(schedules, kinds[0]).arrivalTime) then ScheduleOf(schedules, kinds[0]).arrivalTime
    else FirstArrival(schedules, kinds[1..])
  }

  function FirstDeparture(schedules: Schedules, kinds: seq<ScheduleKind>): Time {
    if kinds == [] then ZERO_TIME
    else if !IsZero(ScheduleOf(schedules, kinds[0]).departureTime) then ScheduleOf(schedules, kinds[0]).departureTime
    else FirstDeparture(schedules, kinds[1..])
  }

  function ReferenceArrivalTime(visit: StopVisit): Time {
    FirstArrival(visit.schedules, SCHEDULE_ORDER)
  }

  function ReferenceDepartureTime(visit: StopVisit): Time {
    FirstDeparture(visit.schedules, SCHEDULE_ORDER)
  }

  function ReferenceTime(visit: StopVisit): Time {
    if !IsZero(ReferenceArrivalTime(visit)) then ReferenceArrivalTime(visit) else ReferenceDepartureTime(visit)
  }

  // ---------------------------------------------------------------- the deciding time

  function ArrivalTold(schedules: Schedules, kind: ScheduleKind): Time {
    if kind in schedules then schedules[kind].arrivalTime else 0
  }

  function DepartureTold(schedules: Schedules, kind: ScheduleKind): Time {
    if kind in schedules then schedules[kind].departureTime else 0
  }

  /** The actual arrival counts, else the expected one, else the aimed one; zero if none is told. */
  function DecidingArrival(visit: StopVisit): Time {
    if ArrivalTold(visit.schedules, Actual) != 0 then ArrivalTold(visit.schedules, Actual)
    else if ArrivalTold(visit.schedules, Expected) != 0 then ArrivalTold(visit.schedules, Expected)
    else ArrivalTold(visit.schedules, Aimed)
  }

  function DecidingDeparture(visit: StopVisit): Time {
    if DepartureTold(visit.schedules, Actual) != 0 then DepartureTold(visit.schedules, Actual)
    else if DepartureTold(visit.schedules, Expected) != 0 then DepartureTold(visit.schedules, Expected)
    else DepartureTold(visit.schedules, Aimed)
  }

  /** Departures count only when no arrival is told. */
  function DecidingTime(visit: StopVisit): Time {
    if DecidingArrival(visit) != 0 then DecidingArrival(visit) else DecidingDeparture(visit)
  }

  /** The loops over the kinds of schedules compute the deciding times. */
  lemma ReferenceIsDeciding(visit: StopVisit)
    ensures ReferenceArrivalTime(visit) == DecidingArrival(visit)
    ensures ReferenceDepartureTime(visit) == DecidingDeparture(visit)
    ensures ReferenceTime(visit) == DecidingTime(visit)
  {
    FirstOfThree(visit.schedules, Actual, Expected, Aimed);
  }

  lemma FirstOfThree(schedules: Schedules, a: ScheduleKind, b: ScheduleKind, c: ScheduleKind)
    ensures FirstArrival(schedules, [a, b, c]) ==
            if ScheduleOf(schedules, a).arrivalTime != 0 then ScheduleOf(schedules, a).arrivalTime
            else if ScheduleOf(schedules, b).arrivalTime != 0 then ScheduleOf(schedules, b).arrivalTime
            else ScheduleOf(schedules, c).arrivalTime
    ensures FirstDeparture(schedules, [a, b, c]) ==
            if ScheduleOf(schedules, a).departureTime != 0 then ScheduleOf(schedules, a).departureTime
            else if ScheduleOf(schedules, b).departureTime != 0 then ScheduleOf(schedules, b).departureTime
            else ScheduleOf(schedules, c).departureTime
  {
    assert [a, b, c][1..] == [b, c] && [b, c][1..] == [c] && [c][1..] == [];
    assert FirstArrival(schedules, [c]) == ScheduleOf(schedules, c).arrivalTime;
    assert FirstDeparture(schedules, [c]) == ScheduleOf(schedules, c).departureTime;
  }

  /** The visits are later than `now` by their deciding times, and ordered by them. */
  ghost predicate FollowInOrder(visits: seq<StopVisit>, now: Time) {
    && (forall v :: v in visits ==> DecidingTime(v) > now)
    && (forall i, j :: 0 <= i < j < |visits| ==> DecidingTime(visits[i]) <= DecidingTime(visits[j]))
  }

  /** ByTime.Less: not after, so that visits at one time are "less" both ways. */
  predicate Less(a: StopVisit, b: StopVisit) {
    ReferenceTime(a) <= ReferenceTime(b)
  }

  ghost predicate SortedByTime(s: seq<StopVisit>) {
    forall i, j :: 0 <= i < j < |s| ==> Less(s[i], s[j])
  }

  /** sort.Sort(ByTime(visits)). */
  method SortByTime(visits: seq<StopVisit>) returns (sorted: seq<StopVisit>)
    ensures SortedByTime(sorted)
    ensures forall i, j :: 0 <= i < j < |sorted| ==> DecidingTime(sorted[i]) <= DecidingTime(sorted[j])
    ensures multiset(sorted) == multiset(visits)
  {
    var key := (v: StopVisit) => ReferenceTime(v);
    SortSorts(visits, key);
    sorted := SortByKey(visits, key);
    SortedIsInOrder(sorted);
  }

  // ---------------------------------------------------------------- listings of a store

  type Store = map<string, StopVisit>

  ghost predicate KeyedById(store: Store) {
    forall id :: id in store ==> store[id].id == id
  }

  /** The stop area, and the vehicle journey, of each stored visit. */
  ghost function StopAreas(store: Store): map<string, string> {
    map id | id in store :: store[id].stopAreaId
  }

  ghost function VehicleJourneys(store: Store): map<string, string> {
    map id | id in store :: store[id].vehicleJourneyId
  }

  lemma AttributesOnceSaved(store: Store, visit: StopVisit)
    ensures StopAreas(store[visit.id := visit]) == StopAreas(store)[visit.id := visit.stopAreaId]
    ensures VehicleJourneys(store[visit.id := visit]) == VehicleJourneys(store)[visit.id := visit.vehicleJourneyId]
    ensures KeyedById(store) ==> KeyedById(store[visit.id := visit])
  {
  }

  lemma AttributesOnceDeleted(store: Store, id: string)
    ensures StopAreas(store - {id}) == StopAreas(store) - {id}
    ensures VehicleJourneys(store - {id}) == VehicleJourneys(store) - {id}
  {
  }

  /** What a finder is asked for. */
  datatype Query =
    | Everything
    | After(time: Time)
    | OfStopArea(stopAreaId: string)
    | OfVehicleJourney(vehicleJourneyId: string)
    | FollowingOfStopArea(stopAreaId: string, now: Time)
    | FollowingOfVehicleJourney(vehicleJourneyId: string, now: Time)
    | Among(ids: seq<string>)
    | AmongAfter(ids: seq<string>, time: Time)
  {
    predicate Selects(visit: StopVisit) {
      match this
      case Everything => true
      case After(t) => ReferenceTime(visit) > t
      case OfStopArea(id) => visit.stopAreaId == id
      case OfVehicleJourney(id) => visit.vehicleJourneyId == id
      case FollowingOfStopArea(id, t) => visit.stopAreaId == id && ReferenceTime(visit) > t
      case FollowingOfVehicleJourney(id, t) => visit.vehicleJourneyId == id && ReferenceTime(visit) > t
      case Among(ids) => visit.id in ids
      case AmongAfter(ids, t) => visit.id in ids && ReferenceTime(visit) > t
    }
  }

  /** `listing` is what a scan of `store` for the visits `q` asks for finds: each one, once. */
  ghost predicate Scan(listing: seq<StopVisit>, store: Store, q: Query) {
    && NoDuplicates(listing)
    && (forall v :: v in listing ==> v.id in store && store[v.id] == v && q.Selects(v))
    && (forall id :: id in store && q.Selects(store[id]) ==> store[id] in listing)
  }

  lemma {:induction false} CountOfDistinct<T>(s: seq<T>, x: T)
    requires NoDuplicates(s)
    ensures multiset(s)[x] == if x in s then 1 else 0
  {
    if s != [] {
      CountOfDistinct(s[1..], x);
      assert s == [s[0]] + s[1..];
    }
  }

  lemma {:induction false} DistinctByCount<T>(s: seq<T>)
    requires forall x :: x in s ==> multiset(s)[x] == 1
    ensures NoDuplicates(s)
  {
    if s != [] {
      assert s == [s[0]] + s[1..];
      forall x | x in s[1..] ensures multiset(s[1..])[x] == 1 {
        assert x in s;
      }
      DistinctByCount(s[1..]);
      assert multiset(s)[s[0]] == 1 + multiset(s[1..])[s[0]];
      assert s[0] !in s[1..];
      NoDuplicatesPrepend(s[0], s[1..]);
    }
  }

  /** A scan determines the multiset that is found, whatever the order. */
  lemma ScansArePermutations(a: seq<StopVisit>, b: seq<StopVisit>, store: Store, q: Query)
    requires Scan(a, store, q) && Scan(b, store, q)
    ensures multiset(a) == multiset(b)
  {
    forall v ensures multiset(a)[v] == multiset(b)[v] {
      CountOfDistinct(a, v);
      CountOfDistinct(b, v);
      assert v in a ==> store[v.id] in b;
      assert v in b ==> store[v.id] in a;
    }
  }

  /** Reordering what a scan found gives a scan. */
  lemma PermutedScan(a: seq<StopVisit>, b: seq<StopVisit>, store: Store, q: Query)
    requires Scan(a, store, q) && multiset(a) == multiset(b)
    ensures Scan(b, store, q)
  {
    forall v ensures v in a <==> v in b {
      assert v in multiset(a) <==> v in multiset(b);
    }
    forall v | v in b ensures multiset(b)[v] == 1 {
      CountOfDistinct(a, v);
    }
    DistinctByCount(b);
  }

  /** What a finder of following visits lists, by schedules alone. */
  lemma ScanFollowsAtStopArea(visits: seq<StopVisit>, store: Store, id: string, now: Time)
    requires Scan(visits, store, FollowingOfStopArea(id, now)) && SortedByTime(visits)
    ensures FollowInOrder(visits, now)
    ensures forall v :: v in visits <==>
              v.id in store && store[v.id] == v && v.stopAreaId == id && DecidingTime(v) > now
  {
    SortedIsInOrder(visits);
  }

  lemma ScanFollowsOnJourney(visits: seq<StopVisit>, store: Store, id: string, now: Time)
    requires Scan(visits, store, FollowingOfVehicleJourney(id, now)) && SortedByTime(visits)
    ensures FollowInOrder(visits, now)
    ensures forall v :: v in visits <==>
              v.id in store && store[v.id] == v && v.vehicleJourneyId == id && DecidingTime(v) > now
  {
    SortedIsInOrder(visits);
  }

  lemma SortedIsInOrder(visits: seq<StopVisit>)
    requires SortedByTime(visits)
    ensures forall v :: ReferenceTime(v) == DecidingTime(v)
    ensures forall i, j :: 0 <= i < j < |visits| ==> DecidingTime(visits[i]) <= DecidingTime(visits[j])
  {
    forall v ensures ReferenceTime(v) == DecidingTime(v) {
      ReferenceIsDeciding(v);
    }
    forall i, j | 0 <= i < j < |visits| ensures DecidingTime(visits[i]) <= DecidingTime(visits[j]) {
      assert Less(visits[i], visits[j]);
    }
  }

  lemma ScanIsAfter(visits: seq<StopVisit>, store: Store, t: Time)
    requires Scan(visits, store, After(t))
    ensures forall v :: v in visits <==> v.id in store && store[v.id] == v && DecidingTime(v) > t
  {
    forall v ensures ReferenceTime(v) == DecidingTime(v) {
      ReferenceIsDeciding(v);
    }
  }
}
