/** The in-memory store of stop visits, read through three hand-kept indexes
    (model/stop_visit.go). Every index-backed finder is proved to find what a scan of all
    the visits would find. */
module MemoryStopVisits {
  import opened Common
  import opened StopVisit
  import I = Index
  import O = ObjectIdIndex

  class MemoryStopVisits {
    var byIdentifier: Store
    const byObjectId: O.ObjectIdIndex
    const byStopArea: I.Index
    const byVehicleJourney: I.Index

    ghost const Repr: set<object>

    constructor ()
      ensures Valid() && fresh(Repr)
      ensures byIdentifier == map[]
    {
      byIdentifier := map[];
      byObjectId := new O.ObjectIdIndex();
      var stopAreas := new I.Index();
      var journeys := new I.Index();
      byStopArea := stopAreas;
      byVehicleJourney := journeys;
      Repr := {this, byObjectId, stopAreas, journeys};
    }

    /** The indexes file every stored visit, and nothing else, under its current attributes. */
    ghost predicate Valid()
      reads this, byObjectId, byStopArea, byVehicleJourney
    {
      && Repr == {this, byObjectId, byStopArea, byVehicleJourney}
      && byStopArea != byVehicleJourney
      && KeyedById(byIdentifier)
      && I.Consistent(byStopArea.Contents()) && I.Consistent(byVehicleJourney.Contents())
      && byStopArea.byIdentifier == StopAreas(byIdentifier)
      && byVehicleJourney.byIdentifier == VehicleJourneys(byIdentifier)
      && O.Rooted(byObjectId.Contents()) && byObjectId.byIdentifier.Keys == byIdentifier.Keys
    }

    method Find(id: string) returns (found: Option<StopVisit>)
      ensures found == if id in byIdentifier then Some(byIdentifier[id]) else None
    {
      found := if id in byIdentifier then Some(byIdentifier[id]) else None;
    }

    /** The entry found in the index is always in the store: the lookup cannot fail halfway. */
    method FindByObjectId(o: ObjectId) returns (found: Option<StopVisit>)
      requires Valid()
      ensures found.Some? <==> O.Lookup(byObjectId.Contents(), o).Some?
      ensures found.Some? ==> found.value.id in byIdentifier && byIdentifier[found.value.id] == found.value
      ensures found.Some? ==> O.Lookup(byObjectId.Contents(), o) == Some(found.value.id)
    {
      var id, ok := byObjectId.Find(o);
      if !ok {
        return None;
      }
      assert O.Remembers(byObjectId.Contents(), id, o);
      found := Some(byIdentifier[id]);
    }

    method FindByStopAreaId(id: string) returns (visits: seq<StopVisit>)
      requires Valid()
      ensures Scan(visits, byIdentifier, OfStopArea(id))
    {
      var ids, _ := byStopArea.Find(id);
      forall v ensures v in ids <==> v in byIdentifier && byIdentifier[v].stopAreaId == id {
        I.BucketContents(byStopArea.Contents(), id, v);
      }
      visits := Fetch(ids);
    }

    method FindByVehicleJourneyId(id: string) returns (visits: seq<StopVisit>)
      requires Valid()
      ensures Scan(visits, byIdentifier, OfVehicleJourney(id))
    {
      var ids, _ := byVehicleJourney.Find(id);
      forall v ensures v in ids <==> v in byIdentifier && byIdentifier[v].vehicleJourneyId == id {
        I.BucketContents(byVehicleJourney.Contents(), id, v);
      }
      visits := Fetch(ids);
    }

    method FindFollowingByStopAreaId(id: string, now: Time) returns (visits: seq<StopVisit>)
      requires Valid()
      ensures Scan(visits, byIdentifier, FollowingOfStopArea(id, now))
      ensures SortedByTime(visits)
      ensures NoDuplicates(visits) && FollowInOrder(visits, now)
      ensures forall v :: v in visits <==>
                v.id in byIdentifier && byIdentifier[v.id] == v && v.stopAreaId == id && DecidingTime(v) > now
    {
      var ids, _ := byStopArea.Find(id);
      forall v ensures v in ids <==> v in byIdentifier && byIdentifier[v].stopAreaId == id {
        I.BucketContents(byStopArea.Contents(), id, v);
      }
      var found := FetchFollowing(ids, now);
      visits := SortByTime(found);
      PermutedScan(found, visits, byIdentifier, FollowingOfStopArea(id, now));
      ScanFollowsAtStopArea(visits, byIdentifier, id, now);
    }

    method FindFollowingByVehicleJourneyId(id: string, now: Time) returns (visits: seq<StopVisit>)
      requires Valid()
      ensures Scan(visits, byIdentifier, FollowingOfVehicleJourney(id, now))
      ensures SortedByTime(visits)
      ensures NoDuplicates(visits) && FollowInOrder(visits, now)
      ensures forall v :: v in visits <==>
                v.id in byIdentifier && byIdentifier[v.id] == v && v.vehicleJourneyId == id && DecidingTime(v) > now
    {
      var ids, _ := byVehicleJourney.Find(id);
      forall v ensures v in ids <==> v in byIdentifier && byIdentifier[v].vehicleJourneyId == id {
        I.BucketContents(byVehicleJourney.Contents(), id, v);
      }
      var found := FetchFollowing(ids, now);
      visits := SortByTime(found);
      PermutedScan(found, visits, byIdentifier, FollowingOfVehicleJourney(id, now));
      ScanFollowsOnJourney(visits, byIdentifier, id, now);
    }

    method Fetch(ids: seq<string>) returns (visits: seq<StopVisit>)
      requires KeyedById(byIdentifier) && NoDuplicates(ids)
      requires forall id :: id in ids ==> id in byIdentifier
      ensures Scan(visits, byIdentifier, Among(ids))
    {
      visits := [];
      for i := 0 to |ids|
        invariant |visits| == i
        invariant forall j :: 0 <= j < i ==> visits[j] == byIdentifier[ids[j]]
      {
        visits := visits + [byIdentifier[ids[i]]];
      }
    }

    method FetchFollowing(ids: seq<string>, now: Time) returns (visits: seq<StopVisit>)
      requires KeyedById(byIdentifier) && NoDuplicates(ids)
      requires forall id :: id in ids ==> id in byIdentifier
      ensures Scan(visits, byIdentifier, AmongAfter(ids, now))
    {
      visits := [];
      for i := 0 to |ids|
        invariant Scan(visits, byIdentifier, AmongAfter(ids[..i], now))
      {
        var visit := byIdentifier[ids[i]];
        assert ids[..i + 1] == ids[..i] + [ids[i]] && ids[i] !in ids[..i];
        if ReferenceTime(visit) > now {
          visits := visits + [visit];
        }
      }
      assert ids[..|ids|] == ids;
    }

    method FindAll() returns (visits: seq<StopVisit>)
      requires KeyedById(byIdentifier)
      ensures Scan(visits, byIdentifier, Everything)
    {
      var ids := Enumerate(byIdentifier.Keys);
      visits := Fetch(ids);
      forall id | id in byIdentifier ensures byIdentifier[id] in visits {
        assert id in byIdentifier.Keys;
      }
    }

    method FindAllAfter(t: Time) returns (visits: seq<StopVisit>)
      requires KeyedById(byIdentifier)
      ensures Scan(visits, byIdentifier, After(t))
      ensures forall v :: v in visits <==> v.id in byIdentifier && byIdentifier[v.id] == v && DecidingTime(v) > t
    {
      var ids := Enumerate(byIdentifier.Keys);
      visits := FetchFollowing(ids, t);
      forall id | id in byIdentifier && ReferenceTime(byIdentifier[id]) > t ensures byIdentifier[id] in visits {
        assert id in byIdentifier.Keys;
      }
      ScanIsAfter(visits, byIdentifier, t);
    }

    /** `newId` is what the identifier generator would answer. */
    method Save(visit: StopVisit, newId: string) returns (saved: StopVisit)
      requires Valid()
      modifies Repr
      ensures Valid()
      ensures saved == if visit.id == "" then visit.(id := newId) else visit
      ensures byIdentifier == old(byIdentifier)[saved.id := saved]
      ensures byObjectId.Contents() == O.Indexed(old(byObjectId.Contents()), saved.id, saved.objectIds)
    {
      saved := if visit.id == "" then visit.(id := newId) else visit;
      AttributesOnceSaved(byIdentifier, saved);
      byIdentifier := byIdentifier[saved.id := saved];
      I.IndexedIsConsistent(byStopArea.Contents(), saved.id, saved.stopAreaId);
      I.IndexedIsConsistent(byVehicleJourney.Contents(), saved.id, saved.vehicleJourneyId);
      O.IndexedIsRooted(byObjectId.Contents(), saved.id, saved.objectIds);
      byObjectId.Index(saved.id, saved.objectIds);
      byStopArea.Index(saved.id, saved.stopAreaId);
      byVehicleJourney.Index(saved.id, saved.vehicleJourneyId);
    }

    method Delete(id: string)
      requires Valid()
      modifies Repr
      ensures Valid()
      ensures byIdentifier == old(byIdentifier) - {id}
      ensures byObjectId.Contents() == O.Deleted(old(byObjectId.Contents()), id)
    {
      I.DeletedIsConsistent(byStopArea.Contents(), id);
      I.DeletedIsConsistent(byVehicleJourney.Contents(), id);
      O.DeletedIsRooted(byObjectId.Contents(), id);
      AttributesOnceDeleted(byIdentifier, id);
      byIdentifier := byIdentifier - {id};
      byObjectId.Delete(id);
      byStopArea.Delete(id);
      byVehicleJourney.Delete(id);
    }
  }
}
