/** The state last told about a stop visit, and the changes worth telling (core/last_states.go). */
module LastStates {
  import opened Common
  import opened StopVisit
  import opened Durations

  /** What a subscriber knows about a stop visit. */
  datatype LastChange = LastChange(schedules: Schedules, departureStatus: string, arrivalStatus: string)

  /** InitState and UpdateState record the visit as it is. */
  function Record(visit: StopVisit): LastChange {
    LastChange(visit.schedules, visit.departureStatus, visit.arrivalStatus)
  }

  /** A cancelled or departed visit has nothing more to tell. */
  predicate Terminal(last: LastChange) {
    || last.departureStatus == DEPARTURE_DEPARTED
    || last.departureStatus == DEPARTURE_CANCELLED
    || last.arrivalStatus == ARRIVAL_CANCELLED
  }

  predicate ArrivalStatusChanged(current: string, last: string) {
    && current != last
    && current in {ARRIVAL_MISSED, ARRIVAL_NOT_EXPECTED, ARRIVAL_CANCELLED, ARRIVAL_NOREPORT}
  }

  predicate DepartureStatusChanged(current: string, last: string) {
    && current != last
    && current in {DEPARTURE_NOREPORT, DEPARTURE_CANCELLED, DEPARTURE_DEPARTED}
  }

  /** handleArrivalTime and handleDepartedTime: outside the open interval around the last time. */
  predicate TimeChanged(current: Time, last: Time, duration: int) {
    if IsZero(current) then false
    else if IsZero(last) then true
    else !(current < last + duration && current > last - duration)
  }

  /** The width of the deadband; an option that reads as zero means one minute. */
  function Deadband(option: string): int {
    if OptionDuration(option) == 0 then MINUTE else OptionDuration(option)
  }

  predicate ScheduleChanged(current: Schedules, last: Schedules, kind: ScheduleKind, duration: int) {
    || TimeChanged(ScheduleOf(current, kind).arrivalTime, ScheduleOf(last, kind).arrivalTime, duration)
    || TimeChanged(ScheduleOf(current, kind).departureTime, ScheduleOf(last, kind).departureTime, duration)
  }

  predicate Changed(last: LastChange, visit: StopVisit, option: string) {
    && !Terminal(last)
    && (|| ArrivalStatusChanged(visit.arrivalStatus, last.arrivalStatus)
        || DepartureStatusChanged(visit.departureStatus, last.departureStatus)
        || option == ""
        || exists kind :: ScheduleChanged(visit.schedules, last.schedules, kind, Deadband(option)))
  }

  /** Haschanged, with the option ChangeBeforeUpdates of the subscription. */
  method HasChanged(last: LastChange, visit: StopVisit, option: string) returns (changed: bool)
    ensures changed <==> Changed(last, visit, option)
    ensures changed <==> WorthTelling(last, visit, option)
  {
    ChangedIffWorthTelling(last, visit, option);
    if last.departureStatus == DEPARTURE_DEPARTED || last.departureStatus == DEPARTURE_CANCELLED
       || last.arrivalStatus == ARRIVAL_CANCELLED {
      return false;
    }
    if ArrivalStatusChanged(visit.arrivalStatus, last.arrivalStatus)
       || DepartureStatusChanged(visit.departureStatus, last.departureStatus) {
      return true;
    }
    if option == "" {
      return true;
    }
    var duration := GetOptionDuration(option);
    if duration == 0 {
      duration := MINUTE;
    }
    for i := 0 to |SCHEDULE_ORDER|
      invariant forall j :: 0 <= j < i ==>
                !ScheduleChanged(visit.schedules, last.schedules, SCHEDULE_ORDER[j], duration)
    {
      if ScheduleChanged(visit.schedules, last.schedules, SCHEDULE_ORDER[i], duration) {
        assert duration == Deadband(option);
        assert ScheduleChanged(visit.schedules, last.schedules, SCHEDULE_ORDER[i], Deadband(option));
        return true;
      }
    }
    forall kind ensures !ScheduleChanged(visit.schedules, last.schedules, kind, duration) {
      var j := match kind case Actual => 0 case Expected => 1 case Aimed => 2;
      assert SCHEDULE_ORDER[j] == kind;
    }
    return false;
  }

  /** A time that is not zero is strictly within `duration` of the last one, which is not zero either. */
  predicate TimeWithin(current: Time, last: Time, duration: int) {
    !IsZero(current) ==> !IsZero(last) && -duration < current - last < duration
  }

  /** Every time of the visit is within the deadband around the recorded one. */
  ghost predicate Within(last: LastChange, visit: StopVisit, duration: int) {
    forall kind ::
      && TimeWithin(ArrivalTold(visit.schedules, kind), ArrivalTold(last.schedules, kind), duration)
      && TimeWithin(DepartureTold(visit.schedules, kind), DepartureTold(last.schedules, kind), duration)
  }

  /** The vehicle has left, or will not come. */
  ghost predicate Over(departureStatus: string, arrivalStatus: string) {
    departureStatus == "departed" || departureStatus == "cancelled" || arrivalStatus == "cancelled"
  }

  /** The deadband that the option asks for; one minute if it reads as zero. */
  ghost function Tolerance(option: string): int {
    if OptionDuration(option) == 0 then 60_000_000_000 else OptionDuration(option)
  }

  /** What is worth telling, in the terms of the protocol: nothing once the visit was told as
      over; otherwise a new status that is listed, and a time that leaves the tolerance, or
      anything at all if no tolerance is asked for. */
  ghost predicate WorthTelling(last: LastChange, visit: StopVisit, option: string) {
    && !Over(last.departureStatus, last.arrivalStatus)
    && (|| (visit.arrivalStatus != last.arrivalStatus
            && visit.arrivalStatus in ["missed", "notExpected", "cancelled", "noreport"])
        || (visit.departureStatus != last.departureStatus
            && visit.departureStatus in ["noreport", "cancelled", "departed"])
        || option == ""
        || !Within(last, visit, Tolerance(option)))
  }

  /** Exactly these changes are told. */
  lemma ChangedIffWorthTelling(last: LastChange, visit: StopVisit, option: string)
    ensures Changed(last, visit, option) <==> WorthTelling(last, visit, option)
  {
    StatusesAreListed(visit.arrivalStatus, visit.departureStatus, last.arrivalStatus, last.departureStatus);
    OutsideIffChanged(last, visit, Deadband(option));
  }

  lemma StatusesAreListed(arrival: string, departure: string, lastArrival: string, lastDeparture: string)
    ensures ArrivalStatusChanged(arrival, lastArrival) <==>
            arrival != lastArrival && arrival in ["missed", "notExpected", "cancelled", "noreport"]
    ensures DepartureStatusChanged(departure, lastDeparture) <==>
            departure != lastDeparture && departure in ["noreport", "cancelled", "departed"]
  {
  }

  lemma OutsideIffChanged(last: LastChange, visit: StopVisit, duration: int)
    ensures Within(last, visit, duration) <==>
            !exists kind :: ScheduleChanged(visit.schedules, last.schedules, kind, duration)
  {
    forall kind
      ensures ScheduleChanged(visit.schedules, last.schedules, kind, duration) <==>
              !(&& TimeWithin(ArrivalTold(visit.schedules, kind), ArrivalTold(last.schedules, kind), duration)
                && TimeWithin(DepartureTold(visit.schedules, kind), DepartureTold(last.schedules, kind), duration))
    {
    }
  }

  predicate HasTime(visit: StopVisit) {
    exists kind :: ArrivalTold(visit.schedules, kind) != 0 || DepartureTold(visit.schedules, kind) != 0
  }

  /** A visit is within the deadband of its own record exactly when the deadband is not
      empty, or the visit has no time at all. */
  lemma WithinOwnRecord(visit: StopVisit, duration: int)
    ensures Within(Record(visit), visit, duration) <==> duration > 0 || !HasTime(visit)
  {
    if HasTime(visit) {
      var kind :| ArrivalTold(visit.schedules, kind) != 0 || DepartureTold(visit.schedules, kind) != 0;
    }
  }
}
