/** The overlay of pending changes over the store of stop visits
    (model/transactional_stop_visits.go) and the transaction around it
    (model/transaction.go). */
module TransactionalStopVisits {
  import opened Common
  import opened StopVisit
  import opened MemoryStopVisits
  import O = ObjectIdIndex
  import C = IndexCommit

  // ---------------------------------------------------------------- what a commit means

  /** The base without the deleted visits, overridden by the saved ones. */
  function Committed(base: Store, saved: Store, deleted: Store): Store {
    (base - deleted.Keys) + saved
  }

  /** What most finders look at: pending deletions are not taken into account. */
  function Overlay(base: Store, saved: Store): Store {
    base + saved
  }

  function IdsOf(store: Store): map<string, ObjectIds> {
    map id | id in store :: store[id].objectIds
  }

  /** A store and its external identifiers, after a commit in some order of the two loops. */
  ghost predicate CommitsTo(base: Store, index: O.Table, saved: Store, deleted: Store, base': Store, index': O.Table) {
    base' == Committed(base, saved, deleted) && C.CommitsTo(index, IdsOf(saved), deleted.Keys, index')
  }

  ghost predicate SecondCommitKeepsAll(base: Store, index: O.Table, saved: Store, deleted: Store) {
    forall once, index1, twice, index2 ::
      CommitsTo(base, index, saved, deleted, once, index1) && CommitsTo(once, index1, saved, deleted, twice, index2) ==>
        twice == once && C.SameLookups(index1, index2)
  }

  /** Committing again leaves every visit and every lookup as it was, whatever the orders, if
      and only if no identifier of a saved visit belongs to another saved visit or is
      remembered by one that had it before. The visits never change; the lookups may. */
  lemma SecondCommitChangesNothingIff(base: Store, index: O.Table, saved: Store, deleted: Store)
    ensures SecondCommitKeepsAll(base, index, saved, deleted) <==> C.Uncontested(index, IdsOf(saved), deleted.Keys)
  {
    C.SecondCommitKeepsLookupsIff(index, IdsOf(saved), deleted.Keys);
    if SecondCommitKeepsAll(base, index, saved, deleted) {
      forall index1, index2 | C.CommitsTo(index, IdsOf(saved), deleted.Keys, index1)
                              && C.CommitsTo(index1, IdsOf(saved), deleted.Keys, index2)
        ensures C.SameLookups(index1, index2)
      {
        LookupsOfSecondCommit(base, index, saved, deleted, index1, index2);
      }
    } else {
      var once, index1, twice, index2 :|
        CommitsTo(base, index, saved, deleted, once, index1) && CommitsTo(once, index1, saved, deleted, twice, index2)
        && !(twice == once && C.SameLookups(index1, index2));
      CommittedTwice(base, saved, deleted);
    }
  }

  lemma CommittedTwice(base: Store, saved: Store, deleted: Store)
    ensures Committed(Committed(base, saved, deleted), saved, deleted) == Committed(base, saved, deleted)
  {
  }

  lemma LookupsOfSecondCommit(base: Store, index: O.Table, saved: Store, deleted: Store, index1: O.Table,
                              index2: O.Table)
    requires SecondCommitKeepsAll(base, index, saved, deleted)
    requires C.CommitsTo(index, IdsOf(saved), deleted.Keys, index1)
    requires C.CommitsTo(index1, IdsOf(saved), deleted.Keys, index2)
    ensures C.SameLookups(index1, index2)
  {
    var once := Committed(base, saved, deleted);
    assert CommitsTo(base, index, saved, deleted, once, index1);
    assert CommitsTo(once, index1, saved, deleted, Committed(once, saved, deleted), index2);
  }

  /** A pending deletion hides a visit from what a commit would leave. */
  predicate Hidden(base: Store, saved: Store, deleted: Store, id: string) {
    id in base && id in deleted && id !in saved
  }

  /** A finder that ignores pending deletions answers, before the commit, what the same
      finder answers after it, exactly when no visit it asks for is deleted and not saved. */
  lemma OverlayAgreesWithCommit(base: Store, saved: Store, deleted: Store, q: Query)
    requires KeyedById(base) && KeyedById(saved)
    ensures (forall r :: Scan(r, Overlay(base, saved), q) <==> Scan(r, Committed(base, saved, deleted), q))
       <==> (forall id :: Hidden(base, saved, deleted, id) ==> !q.Selects(base[id]))
  {
    if id :| Hidden(base, saved, deleted, id) && q.Selects(base[id]) {
      HiddenIsMissed(base, saved, deleted, q, id);
    } else {
      forall r ensures Scan(r, Overlay(base, saved), q) <==> Scan(r, Committed(base, saved, deleted), q) {
        NothingHiddenAgrees(base, saved, deleted, q, r);
      }
    }
  }

  lemma HiddenIsMissed(base: Store, saved: Store, deleted: Store, q: Query, id: string)
    requires KeyedById(base) && KeyedById(saved) && Hidden(base, saved, deleted, id) && q.Selects(base[id])
    ensures exists r :: Scan(r, Overlay(base, saved), q) && !Scan(r, Committed(base, saved, deleted), q)
  {
    var before, after := Overlay(base, saved), Committed(base, saved, deleted);
    var r := SomeScan(before, q);
    assert before[id] in r && before[id].id == id && id !in after;
    assert !Scan(r, after, q);
  }

  lemma NothingHiddenAgrees(base: Store, saved: Store, deleted: Store, q: Query, r: seq<StopVisit>)
    requires forall id :: Hidden(base, saved, deleted, id) ==> !q.Selects(base[id])
    ensures Scan(r, Overlay(base, saved), q) <==> Scan(r, Committed(base, saved, deleted), q)
  {
    var before, after := Overlay(base, saved), Committed(base, saved, deleted);
    forall id
      ensures id in after ==> id in before && after[id] == before[id]
      ensures id in before && q.Selects(before[id]) ==> id in after
    {
      assert Hidden(base, saved, deleted, id) || (id in before ==> id in after);
    }
    SameSelectionSameScans(r, before, after, q);
  }

  /** Two stores from which the query selects the same have the same scans. */
  lemma SameSelectionSameScans(r: seq<StopVisit>, a: Store, b: Store, q: Query)
    requires forall id :: id in b ==> id in a && b[id] == a[id]
    requires forall id :: id in a && q.Selects(a[id]) ==> id in b
    ensures Scan(r, a, q) <==> Scan(r, b, q)
  {
    forall v | v in r && q.Selects(v) ensures v.id in a && a[v.id] == v <==> v.id in b && b[v.id] == v {
    }
  }

  /** Some listing of the visits that a query asks for. */
  lemma SomeScan(store: Store, q: Query) returns (listing: seq<StopVisit>)
    requires KeyedById(store)
    ensures Scan(listing, store, q)
  {
    listing := SomeListing(store, q, store.Keys);
  }

  lemma {:induction false} SomeListing(store: Store, q: Query, ids: set<string>) returns (listing: seq<StopVisit>)
    requires KeyedById(store) && ids <= store.Keys
    ensures NoDuplicates(listing)
    ensures forall v :: v in listing ==> v.id in ids && store[v.id] == v && q.Selects(v)
    ensures forall id :: id in ids && q.Selects(store[id]) ==> store[id] in listing
    decreases ids
  {
    if ids == {} {
      listing := [];
    } else {
      var id :| id in ids;
      listing := SomeListing(store, q, ids - {id});
      if q.Selects(store[id]) {
        listing := listing + [store[id]];
      }
    }
  }

  // ---------------------------------------------------------------- committing key by key

  /** What the second loop of a commit has done after `n` of the saved visits. */
  ghost predicate SavedUpTo(base: Store, index: O.Table, saved: Store, ids: seq<string>, n: nat,
                            base': Store, index': O.Table) {
    && n <= |ids| && Lists(ids, saved.Keys)
    && base' == base + Restrict(saved, Prefix(ids, n))
    && C.IndexedUpTo(index, IdsOf(saved), ids, n, index')
  }

  lemma NothingSaved(base: Store, index: O.Table, saved: Store, ids: seq<string>)
    requires Lists(ids, saved.Keys)
    ensures SavedUpTo(base, index, saved, ids, 0, base, index)
  {
    assert base + Restrict(saved, Prefix(ids, 0)) == base;
    assert IdsOf(saved).Keys == saved.Keys;
  }

  lemma OneMoreSaved(base: Store, index: O.Table, saved: Store, ids: seq<string>, n: nat, base': Store, index': O.Table)
    requires SavedUpTo(base, index, saved, ids, n, base', index') && n < |ids|
    ensures ids[n] in saved
    ensures SavedUpTo(base, index, saved, ids, n + 1, base'[ids[n] := saved[ids[n]]],
                      O.Indexed(index', ids[n], saved[ids[n]].objectIds))
  {
    PrefixGrows(ids, n);
    C.OneMoreIndexed(index, IdsOf(saved), ids, n, index');
    RestrictGrows(base, saved, Prefix(ids, n), ids[n]);
  }

  lemma AllSaved(base: Store, index: O.Table, saved: Store, ids: seq<string>, base': Store, index': O.Table)
    requires SavedUpTo(base, index, saved, ids, |ids|, base', index')
    ensures base' == base + saved && C.IndexesTo(index, IdsOf(saved), index')
  {
    PrefixIsAll(ids, saved.Keys);
    RestrictAll(saved);
    C.AllIndexed(index, IdsOf(saved), ids, index');
  }

  // ---------------------------------------------------------------- the overlay

  class TransactionalStopVisits {
    const model: MemoryStopVisits
    var saved: Store
    var deleted: Store

    constructor (model: MemoryStopVisits)
      requires model.Valid()
      ensures this.model == model && saved == map[] && deleted == map[]
      ensures Valid()
    {
      this.model := model;
      saved := map[];
      deleted := map[];
    }

    ghost predicate Valid()
      reads this, model, model.byObjectId, model.byStopArea, model.byVehicleJourney
    {
      model.Valid() && this !in model.Repr && KeyedById(saved) && KeyedById(deleted)
    }

    method Find(id: string) returns (found: Option<StopVisit>)
      requires Valid()
      ensures found == var seen := Overlay(model.byIdentifier, saved); if id in seen then Some(seen[id]) else None
    {
      if id in saved {
        return Some(saved[id]);
      }
      found := model.Find(id);
    }

    /** The value an identifier of this kind has; the empty value if there is none. */
    static function ValueOfKind(ids: ObjectIds, kind: string): string {
      if kind in ids then ids[kind] else ""
    }

    /** Saved visits are searched first, by value: one without the kind matches the empty value. */
    method FindByObjectId(o: ObjectId) returns (found: Option<StopVisit>)
      requires Valid()
      ensures (exists id :: id in saved && MatchesValue(saved[id].objectIds, o)) ==>
                found.Some? && found.value.id in saved && saved[found.value.id] == found.value
                && MatchesValue(found.value.objectIds, o)
      ensures !(exists id :: id in saved && MatchesValue(saved[id].objectIds, o)) ==>
                found == match O.Lookup(model.byObjectId.Contents(), o)
                         case None => None
                         case Some(id) => if id in model.byIdentifier then Some(model.byIdentifier[id]) else None
    {
      var ids := Enumerate(saved.Keys);
      for i := 0 to |ids|
        invariant forall j :: 0 <= j < i ==> ids[j] in saved && ValueOfKind(saved[ids[j]].objectIds, o.kind) != o.value
      {
        assert ids[i] in saved.Keys;
        if ValueOfKind(saved[ids[i]].objectIds, o.kind) == o.value {
          return Some(saved[ids[i]]);
        }
      }
      forall id | id in saved ensures ValueOfKind(saved[id].objectIds, o.kind) != o.value {
        assert id in saved.Keys;
        var j :| 0 <= j < |ids| && ids[j] == id;
      }
      found := model.FindByObjectId(o);
    }

    method FindByStopAreaId(id: string) returns (visits: seq<StopVisit>)
      requires Valid()
      ensures Scan(visits, Overlay(model.byIdentifier, saved), OfStopArea(id))
    {
      var base := model.FindByStopAreaId(id);
      visits := OverlayScan(OfStopArea(id), base);
    }

    method FindByVehicleJourneyId(id: string) returns (visits: seq<StopVisit>)
      requires Valid()
      ensures Scan(visits, Overlay(model.byIdentifier, saved), OfVehicleJourney(id))
    {
      var base := model.FindByVehicleJourneyId(id);
      visits := OverlayScan(OfVehicleJourney(id), base);
    }

    method FindFollowingByStopAreaId(id: string, now: Time) returns (visits: seq<StopVisit>)
      requires Valid()
      ensures Scan(visits, Overlay(model.byIdentifier, saved), FollowingOfStopArea(id, now))
      ensures SortedByTime(visits)
      ensures NoDuplicates(visits) && FollowInOrder(visits, now)
      ensures var seen := Overlay(model.byIdentifier, saved);
              forall v :: v in visits <==>
                v.id in seen && seen[v.id] == v && v.stopAreaId == id && DecidingTime(v) > now
    {
      var base := model.FindFollowingByStopAreaId(id, now);
      var found := OverlayScan(FollowingOfStopArea(id, now), base);
      visits := SortByTime(found);
      PermutedScan(found, visits, Overlay(model.byIdentifier, saved), FollowingOfStopArea(id, now));
      ScanFollowsAtStopArea(visits, Overlay(model.byIdentifier, saved), id, now);
    }

    method FindFollowingByVehicleJourneyId(id: string, now: Time) returns (visits: seq<StopVisit>)
      requires Valid()
      ensures Scan(visits, Overlay(model.byIdentifier, saved), FollowingOfVehicleJourney(id, now))
      ensures SortedByTime(visits)
      ensures NoDuplicates(visits) && FollowInOrder(visits, now)
      ensures var seen := Overlay(model.byIdentifier, saved);
              forall v :: v in visits <==>
                v.id in seen && seen[v.id] == v && v.vehicleJourneyId == id && DecidingTime(v) > now
    {
      var base := model.FindFollowingByVehicleJourneyId(id, now);
      var found := OverlayScan(FollowingOfVehicleJourney(id, now), base);
      visits := SortByTime(found);
      PermutedScan(found, visits, Overlay(model.byIdentifier, saved), FollowingOfVehicleJourney(id, now));
      ScanFollowsOnJourney(visits, Overlay(model.byIdentifier, saved), id, now);
    }

    method FindAll() returns (visits: seq<StopVisit>)
      requires Valid()
      ensures Scan(visits, Overlay(model.byIdentifier, saved), Everything)
    {
      var base := model.FindAll();
      visits := OverlayScan(Everything, base);
    }

    /** The one finder that takes pending deletions into account: it answers what it will
        answer on the base after the commit. */
    method FindAllAfter(t: Time) returns (visits: seq<StopVisit>)
      requires Valid()
      ensures Scan(visits, Committed(model.byIdentifier, saved, deleted), After(t))
      ensures var left := Committed(model.byIdentifier, saved, deleted);
              forall v :: v in visits <==> v.id in left && left[v.id] == v && DecidingTime(v) > t
    {
      var pending := SavedVisits(After(t));
      var base := model.FindAll();
      var rest := Remaining(base, saved, deleted, t, model.byIdentifier);
      JoinScans(rest, pending, model.byIdentifier - (saved.Keys + deleted.Keys), saved, After(t));
      CommittedIsJoin(model.byIdentifier, saved, deleted);
      visits := pending + rest;
      ScanIsAfter(visits, Committed(model.byIdentifier, saved, deleted), t);
    }

    static lemma CommittedIsJoin(base: Store, saved: Store, deleted: Store)
      ensures (base - (saved.Keys + deleted.Keys)) + saved == Committed(base, saved, deleted)
      ensures (base - saved.Keys) + saved == Overlay(base, saved)
    {
    }

    /** The visits of the base that are neither saved again nor deleted, after `t`. */
    static method Remaining(base: seq<StopVisit>, saved: Store, deleted: Store, t: Time, ghost store: Store)
      returns (rest: seq<StopVisit>)
      requires KeyedById(store) && Scan(base, store, Everything)
      ensures Scan(rest, store - (saved.Keys + deleted.Keys), After(t))
    {
      rest := [];
      for i := 0 to |base|
        invariant NoDuplicates(rest)
        invariant forall v :: v in rest ==> v in base[..i] && v.id !in saved && v.id !in deleted && ReferenceTime(v) > t
        invariant forall v :: v in base[..i] && v.id !in saved && v.id !in deleted && ReferenceTime(v) > t ==> v in rest
      {
        assert base[..i + 1] == base[..i] + [base[i]];
        if base[i].id !in saved && base[i].id !in deleted && ReferenceTime(base[i]) > t {
          assert base[i] !in base[..i];
          rest := rest + [base[i]];
        }
      }
      assert base[..|base|] == base;
    }

    /** Saved visits first, then the visits of the base that are not saved again. */
    method OverlayScan(q: Query, base: seq<StopVisit>) returns (visits: seq<StopVisit>)
      requires Valid() && Scan(base, model.byIdentifier, q)
      ensures Scan(visits, Overlay(model.byIdentifier, saved), q)
    {
      var pending := SavedVisits(q);
      var rest := NotSaved(base, saved, q, model.byIdentifier);
      JoinScans(rest, pending, model.byIdentifier - saved.Keys, saved, q);
      CommittedIsJoin(model.byIdentifier, saved, deleted);
      visits := pending + rest;
    }

    static method NotSaved(base: seq<StopVisit>, saved: Store, ghost q: Query,
                           ghost store: Store) returns (rest: seq<StopVisit>)
      requires KeyedById(store) && Scan(base, store, q)
      ensures Scan(rest, store - saved.Keys, q)
    {
      rest := [];
      for i := 0 to |base|
        invariant NoDuplicates(rest)
        invariant forall v :: v in rest ==> v in base[..i] && v.id !in saved
        invariant forall v :: v in base[..i] && v.id !in saved ==> v in rest
      {
        assert base[..i + 1] == base[..i] + [base[i]];
        if base[i].id !in saved {
          assert base[i] !in base[..i];
          rest := rest + [base[i]];
        }
      }
      assert base[..|base|] == base;
    }

    static lemma JoinScans(a: seq<StopVisit>, b: seq<StopVisit>, base: Store, saved: Store, q: Query)
      requires base.Keys !! saved.Keys && KeyedById(base) && KeyedById(saved)
      requires Scan(a, base, q) && Scan(b, saved, q)
      ensures Scan(b + a, base + saved, q)
    {
      forall i, j | 0 <= i < j < |b + a| ensures (b + a)[i] != (b + a)[j] {
        if i < |b| && j >= |b| {
          assert b[i] in b && a[j - |b|] in a;
        }
      }
    }

    method SavedVisits(q: Query) returns (visits: seq<StopVisit>)
      requires KeyedById(saved)
      ensures Scan(visits, saved, q)
    {
      visits := [];
      var ids := Enumerate(saved.Keys);
      for i := 0 to |ids|
        invariant NoDuplicates(visits)
        invariant forall v :: v in visits ==> v.id in ids[..i] && v.id in saved && saved[v.id] == v && q.Selects(v)
        invariant forall j :: 0 <= j < i && ids[j] in saved && q.Selects(saved[ids[j]]) ==> saved[ids[j]] in visits
      {
        assert ids[i] in saved.Keys;
        if q.Selects(saved[ids[i]]) {
          visits := visits + [saved[ids[i]]];
        }
      }
      forall id | id in saved && q.Selects(saved[id]) ensures saved[id] in visits {
        assert id in saved.Keys;
      }
    }

    method Save(visit: StopVisit, newId: string) returns (ok: bool)
      requires Valid()
      modifies this`saved
      ensures Valid() && ok
      ensures var v := if visit.id == "" then visit.(id := newId) else visit;
              saved == old(saved)[v.id := v]
    {
      var v := if visit.id == "" then visit.(id := newId) else visit;
      saved := saved[v.id := v];
      ok := true;
    }

    method Delete(visit: StopVisit) returns (ok: bool)
      requires Valid()
      modifies this`deleted
      ensures Valid() && ok && deleted == old(deleted)[visit.id := visit]
    {
      deleted := deleted[visit.id := visit];
      ok := true;
    }

    method Commit()
      requires Valid()
      modifies model.Repr
      ensures Valid()
      ensures CommitsTo(old(model.byIdentifier), old(model.byObjectId.Contents()), saved, deleted,
                        model.byIdentifier, model.byObjectId.Contents())
    {
      CommitDeleted();
      CommitSaved();
    }

    method CommitDeleted()
      requires Valid()
      modifies model.Repr
      ensures Valid()
      ensures model.byIdentifier == old(model.byIdentifier) - deleted.Keys
      ensures C.DeletesTo(old(model.byObjectId.Contents()), deleted.Keys, model.byObjectId.Contents())
    {
      var ids := Enumerate(deleted.Keys);
      ghost var index := model.byObjectId.Contents();
      for i := 0 to |ids|
        invariant Valid()
        invariant model.byIdentifier == old(model.byIdentifier) - Prefix(ids, i)
        invariant model.byObjectId.Contents() == C.DeletedAll(index, ids[..i])
      {
        PrefixGrows(ids, i);
        MinusGrows(old(model.byIdentifier), Prefix(ids, i), ids[i]);
        assert ids[..i + 1][..i] == ids[..i];
        model.Delete(ids[i]);
      }
      PrefixIsAll(ids, deleted.Keys);
      assert ids[..|ids|] == ids;
    }

    method CommitSaved()
      requires Valid()
      modifies model.Repr
      ensures Valid()
      ensures model.byIdentifier == old(model.byIdentifier) + saved
      ensures C.IndexesTo(old(model.byObjectId.Contents()), IdsOf(saved), model.byObjectId.Contents())
    {
      var ids := Enumerate(saved.Keys);
      ghost var base, index := model.byIdentifier, model.byObjectId.Contents();
      NothingSaved(base, index, saved, ids);
      for i := 0 to |ids|
        invariant Valid()
        invariant SavedUpTo(base, index, saved, ids, i, model.byIdentifier, model.byObjectId.Contents())
      {
        assert ids[i] in saved;
        OneMoreSaved(base, index, saved, ids, i, model.byIdentifier, model.byObjectId.Contents());
        var kept := model.Save(saved[ids[i]], ids[i]);
      }
      AllSaved(base, index, saved, ids, model.byIdentifier, model.byObjectId.Contents());
    }

    method Rollback()
      modifies this
      ensures saved == map[] && deleted == map[]
    {
      saved := map[];
      deleted := map[];
    }
  }

  // ---------------------------------------------------------------- transactions

  datatype TransactionStatus = Pending | Commit | Rollback

  class Transaction {
    const visits: TransactionalStopVisits
    var status: TransactionStatus

    constructor (model: MemoryStopVisits)
      requires model.Valid()
      ensures status == Pending && fresh(visits) && visits.model == model
      ensures visits.saved == map[] && visits.deleted == map[] && Valid()
    {
      visits := new TransactionalStopVisits(model);
      status := Pending;
    }

    ghost predicate Valid()
      reads this, visits, visits.model, visits.model.byObjectId, visits.model.byStopArea, visits.model.byVehicleJourney
    {
      visits.Valid() && this !in visits.model.Repr
    }

    method Commit()
      requires Valid()
      modifies this`status, visits.model.Repr
      ensures Valid() && status == TransactionStatus.Commit
      ensures CommitsTo(old(visits.model.byIdentifier), old(visits.model.byObjectId.Contents()),
                        visits.saved, visits.deleted,
                        visits.model.byIdentifier, visits.model.byObjectId.Contents())
    {
      visits.Commit();
      status := TransactionStatus.Commit;
    }

    method Rollback()
      requires Valid()
      modifies this`status, visits
      ensures Valid() && status == TransactionStatus.Rollback
      ensures visits.saved == map[] && visits.deleted == map[]
    {
      visits.Rollback();
      status := TransactionStatus.Rollback;
    }

    /** Without a commit, closing drops the pending changes; the base is not in the frame. */
    method Close()
      requires Valid()
      modifies this`status, visits
      ensures Valid()
      ensures old(status) == TransactionStatus.Commit ==>
                status == old(status) && visits.saved == old(visits.saved) && visits.deleted == old(visits.deleted)
      ensures old(status) != TransactionStatus.Commit ==>
                status == TransactionStatus.Rollback && visits.saved == map[] && visits.deleted == map[]
    {
      if status != TransactionStatus.Commit {
        Rollback();
      }
    }
  }
}
