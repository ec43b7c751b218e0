/** The in-memory store of stop areas, its transaction overlay, and the propagation of a
    partner's status along the graph (model/stop_area.go, model/transactional_stop_areas.go,
    model/update_manager.go, core/collect_manager.go). */
module MemoryStopAreas {
  import opened Common
  import opened StopArea
  import O = ObjectIdIndex
  import C = IndexCommit

  ghost function IdsOf(areas: Areas): map<string, ObjectIds> {
    map id | id in areas :: areas[id].objectIds
  }

  lemma IdsOnceSaved(areas: Areas, area: StopArea)
    ensures IdsOf(areas[area.id := area]) == IdsOf(areas)[area.id := area.objectIds]
  {
  }

  /** The area that an index finds under an identifier. */
  function AreaFound(areas: Areas, index: O.Table, o: ObjectId): Option<StopArea> {
    match O.Lookup(index, o)
    case Some(id) => if id in areas then Some(areas[id]) else None
    case None => None
  }

  /** The saved areas keep their identifiers of the kind, and those of the new ones are free. */
  ghost predicate CommitAdmits(areas: Areas, saved: Areas, kind: string) {
    forall id :: id in saved ==> SaveAdmits(areas, saved, id, kind)
  }

  ghost predicate SaveAdmits(areas: Areas, saved: Areas, id: string, kind: string)
    requires id in saved
  {
    if id in areas then
      forall o: ObjectId :: o.kind == kind ==> (O.Has(areas[id].objectIds, o) <==> O.Has(saved[id].objectIds, o))
    else
      forall o: ObjectId, other ::
        o.kind == kind && O.Has(saved[id].objectIds, o) && O.Holds(IdsOf(areas + saved), other, o) ==> other == id
  }

  /** For every kind of which lookups were exact, and which the commit admits, they still are. */
  ghost predicate IndexKept(areas: Areas, index: O.Table, saved: Areas, areas': Areas, index': O.Table) {
    forall kind :: O.Owned(index, IdsOf(areas), kind) && CommitAdmits(areas, saved, kind) ==>
        O.Owned(index', IdsOf(areas'), kind)
  }

  /** Lookups of every kind that were exact still are. */
  ghost predicate StillOwned(areas: Areas, index: O.Table, areas': Areas, index': O.Table) {
    forall kind :: O.Owned(index, IdsOf(areas), kind) ==> O.Owned(index', IdsOf(areas'), kind)
  }

  class MemoryStopAreas {
    var byIdentifier: Areas
    const byObjectId: O.ObjectIdIndex

    constructor ()
      ensures Valid() && fresh(byObjectId) && byIdentifier == map[]
    {
      byIdentifier := map[];
      byObjectId := new O.ObjectIdIndex();
    }

    ghost predicate Valid()
      reads this, byObjectId
    {
      && KeyedById(byIdentifier)
      && O.Rooted(byObjectId.Contents()) && byObjectId.byIdentifier.Keys == byIdentifier.Keys
    }

    /** Lookups of the kind find exactly the stored areas. */
    ghost predicate Owned(kind: string)
      reads this, byObjectId
    {
      O.Owned(byObjectId.Contents(), IdsOf(byIdentifier), kind)
    }

    method Find(id: string) returns (found: Option<StopArea>)
      ensures found == if id in byIdentifier then Some(byIdentifier[id]) else None
    {
      found := if id in byIdentifier then Some(byIdentifier[id]) else None;
    }

    method FindByObjectId(o: ObjectId) returns (found: Option<StopArea>)
      ensures found == AreaFound(byIdentifier, byObjectId.Contents(), o)
    {
      var id, ok := byObjectId.Find(o);
      if ok {
        found := Find(id);
      } else {
        found := None;
      }
    }

    method FindByOrigin(origin: string) returns (ids: seq<string>)
      ensures Lists(ids, Mentioning(byIdentifier, origin))
    {
      ids := [];
      var all := Enumerate(byIdentifier.Keys);
      for i := 0 to |all|
        invariant NoDuplicates(ids)
        invariant forall id :: id in ids <==> id in all[..i] && id in byIdentifier && origin in byIdentifier[id].origins
      {
        assert all[i] in byIdentifier.Keys && all[..i + 1] == all[..i] + [all[i]] && all[i] !in all[..i];
        if origin in byIdentifier[all[i]].origins {
          ids := ids + [all[i]];
        }
      }
      assert all[..|all|] == all;
      forall id | id in byIdentifier ensures id in all {
        assert id in byIdentifier.Keys;
      }
    }

    method Save(area: StopArea, newId: string) returns (saved: StopArea)
      requires Valid()
      modifies this`byIdentifier, byObjectId
      ensures Valid()
      ensures saved == if area.id == NO_ID then area.(id := newId) else area
      ensures byIdentifier == old(byIdentifier)[saved.id := saved]
      ensures byObjectId.Contents() == O.Indexed(old(byObjectId.Contents()), saved.id, saved.objectIds)
    {
      IdsOnceSaved(byIdentifier, if area.id == NO_ID then area.(id := newId) else area);
      saved := if area.id == NO_ID then area.(id := newId) else area;
      O.IndexedIsRooted(byObjectId.Contents(), saved.id, saved.objectIds);
      byIdentifier := byIdentifier[saved.id := saved];
      byObjectId.Index(saved.id, saved.objectIds);
    }

    method Delete(id: string)
      requires Valid()
      modifies this`byIdentifier, byObjectId
      ensures Valid()
      ensures byIdentifier == old(byIdentifier) - {id}
      ensures byObjectId.Contents() == O.Deleted(old(byObjectId.Contents()), id)
    {
      O.DeletedIsRooted(byObjectId.Contents(), id);
      byIdentifier := byIdentifier - {id};
      byObjectId.Delete(id);
    }
  }

  /** The areas that have this partner among their origins. */
  ghost function Mentioning(areas: Areas, origin: string): set<string> {
    set id | id in areas && origin in areas[id].origins
  }

  // ---------------------------------------------------------------- the overlay

  class TransactionalStopAreas {
    const model: MemoryStopAreas
    var saved: Areas
    var deleted: Areas

    constructor (model: MemoryStopAreas)
      requires model.Valid()
      ensures this.model == model && saved == map[] && deleted == map[] && Valid()
    {
      this.model := model;
      saved := map[];
      deleted := map[];
    }

    ghost predicate Valid()
      reads this, model, model.byObjectId
    {
      model.Valid() && KeyedById(saved) && KeyedById(deleted)
    }

    method Find(id: string) returns (found: Option<StopArea>)
      ensures found == var seen := model.byIdentifier + saved; if id in seen then Some(seen[id]) else None
    {
      if id in saved {
        return Some(saved[id]);
      }
      found := model.Find(id);
    }

    method FindByObjectId(o: ObjectId) returns (found: Option<StopArea>)
      ensures if exists id :: id in saved && MatchesValue(saved[id].objectIds, o)
              then found.Some? && found.value in saved.Values && MatchesValue(found.value.objectIds, o)
              else found == AreaFound(model.byIdentifier, model.byObjectId.Contents(), o)
    {
      var ids := Enumerate(saved.Keys);
      for i := 0 to |ids|
        invariant forall j :: 0 <= j < i ==> ids[j] in saved && ValueOfKind(saved[ids[j]], o.kind) != o.value
      {
        assert ids[i] in saved.Keys;
        if ValueOfKind(saved[ids[i]], o.kind) == o.value {
          return Some(saved[ids[i]]);
        }
      }
      forall id | id in saved ensures ValueOfKind(saved[id], o.kind) != o.value {
        assert id in saved.Keys && id in ids;
      }
      found := model.FindByObjectId(o);
    }

    /** The value of an identifier that the area does not have is empty. */
    static function ValueOfKind(area: StopArea, kind: string): string {
      if kind in area.objectIds then area.objectIds[kind] else ""
    }

    /** The walk of the base, without the deleted areas and with the pending version of the saved ones. */
    method FindAscendants(id: string, ghost rank: string -> nat)
      returns (listing: seq<StopArea>, ghost positions: seq<int>)
      requires Ranked(model.byIdentifier, rank)
      ensures listing == Seen(Ascendants(model.byIdentifier, rank, id), saved, deleted)
      ensures ListsPending(Ascendants(model.byIdentifier, rank, id), saved, deleted, positions, listing)
    {
      listing := [];
      var walked := Ascendants(model.byIdentifier, rank, id);
      for i := 0 to |walked|
        invariant listing == Seen(walked[..i], saved, deleted)
      {
        assert walked[..i + 1][..i] == walked[..i];
        if walked[i].id in deleted {
          continue;
        }
        listing := listing + [if walked[i].id in saved then saved[walked[i].id] else walked[i]];
      }
      assert walked[..|walked|] == walked;
      positions := SeenByPosition(walked, saved, deleted);
    }

    static lemma {:induction false} SeenByPosition(walked: seq<StopArea>, saved: Areas, deleted: Areas)
      returns (positions: seq<int>)
      ensures ListsPending(walked, saved, deleted, positions, Seen(walked, saved, deleted))
    {
      if walked == [] {
        positions := [];
      } else {
        var before, last := walked[..|walked| - 1], walked[|walked| - 1];
        var earlier := SeenByPosition(before, saved, deleted);
        assert walked == before + [last];
        positions := OneMoreSeen(before, last, saved, deleted, earlier, Seen(before, saved, deleted));
      }
    }

    static lemma OneMoreSeen(before: seq<StopArea>, last: StopArea, saved: Areas, deleted: Areas, earlier: seq<int>,
                             listing: seq<StopArea>) returns (positions: seq<int>)
      requires ListsPending(before, saved, deleted, earlier, listing)
      ensures ListsPending(before + [last], saved, deleted, positions,
                           listing + if last.id in deleted then []
                                     else if last.id in saved then [saved[last.id]] else [last])
    {
      var walked := before + [last];
      MarksGrow(before, last, deleted);
      OneMorePosition(KeptOf(before, deleted), earlier, last.id !in deleted);
      forall k | 0 <= k < |earlier| ensures before[earlier[k]] == walked[earlier[k]] {
      }
      if last.id in deleted {
        positions := earlier;
        assert listing + [] == listing;
      } else {
        positions := earlier + [|before|];
        assert walked[|before|] == last;
      }
    }

    static lemma MarksGrow(before: seq<StopArea>, last: StopArea, deleted: Areas)
      ensures KeptOf(before + [last], deleted) == KeptOf(before, deleted) + [last.id !in deleted]
    {
    }

    /** Which of the walked areas are not deleted. */
    static ghost function KeptOf(walked: seq<StopArea>, deleted: Areas): seq<bool> {
      seq(|walked|, i requires 0 <= i < |walked| => walked[i].id !in deleted)
    }

    /** The listing has the walked areas that are not deleted, in their order, each in its
        pending version if there is one. */
    static ghost predicate ListsPending(walked: seq<StopArea>, saved: Areas, deleted: Areas, positions: seq<int>,
                                        listing: seq<StopArea>) {
      && IncreasingPositions(KeptOf(walked, deleted), positions) && |listing| == |positions|
      && forall k :: 0 <= k < |positions| ==>
           listing[k] == if walked[positions[k]].id in saved then saved[walked[positions[k]].id]
               else walked[positions[k]]
    }

    static function Seen(walked: seq<StopArea>, saved: Areas, deleted: Areas): seq<StopArea> {
      if walked == [] then []
      else
        var area := walked[|walked| - 1];
        Seen(walked[..|walked| - 1], saved, deleted)
        + if area.id in deleted then [] else if area.id in saved then [saved[area.id]] else [area]
    }

    static lemma {:induction false} NothingPending(walked: seq<StopArea>)
      ensures Seen(walked, map[], map[]) == walked
    {
      if walked != [] {
        NothingPending(walked[..|walked| - 1]);
      }
    }

    method Save(area: StopArea, newId: string)
      requires Valid()
      modifies this`saved
      ensures Valid()
      ensures var a := if area.id == NO_ID then area.(id := newId) else area;
              saved == old(saved)[a.id := a]
    {
      var a := if area.id == NO_ID then area.(id := newId) else area;
      saved := saved[a.id := a];
    }

    method Commit()
      requires Valid()
      modifies model`byIdentifier, model.byObjectId
      ensures Valid()
      ensures model.byIdentifier == (old(model.byIdentifier) - deleted.Keys) + saved
      ensures C.CommitsTo(old(model.byObjectId.Contents()), IdsOf(saved), deleted.Keys, model.byObjectId.Contents())
      ensures deleted == map[] ==>
                IndexKept(old(model.byIdentifier), old(model.byObjectId.Contents()), saved,
                          model.byIdentifier, model.byObjectId.Contents())
    {
      CommitDeleted();
      CommitSaved();
      assert deleted == map[] ==> old(model.byIdentifier) - deleted.Keys == old(model.byIdentifier);
    }

    method CommitDeleted()
      requires Valid()
      modifies model`byIdentifier, model.byObjectId
      ensures Valid()
      ensures model.byIdentifier == old(model.byIdentifier) - deleted.Keys
      ensures C.DeletesTo(old(model.byObjectId.Contents()), deleted.Keys, model.byObjectId.Contents())
      ensures deleted == map[] ==> model.byObjectId.Contents() == old(model.byObjectId.Contents())
    {
      var ids := Enumerate(deleted.Keys);
      ghost var index := model.byObjectId.Contents();
      for i := 0 to |ids|
        invariant Valid()
        invariant model.byIdentifier == old(model.byIdentifier) - Prefix(ids, i)
        invariant model.byObjectId.Contents() == C.DeletedAll(index, ids[..i])
        invariant deleted == map[] ==> model.byObjectId.Contents() == old(model.byObjectId.Contents())
      {
        assert ids[i] in deleted.Keys;
        PrefixGrows(ids, i);
        MinusGrows(old(model.byIdentifier), Prefix(ids, i), ids[i]);
        assert ids[..i + 1][..i] == ids[..i];
        model.Delete(ids[i]);
      }
      PrefixIsAll(ids, deleted.Keys);
      assert ids[..|ids|] == ids;
    }

    /** The body of the loop of CommitSaved. */
    method CommitOne(id: string, ghost areas: Areas, ghost index: O.Table, ghost done: set<string>)
      requires Valid() && id in saved && id !in done && model.byIdentifier == areas + Restrict(saved, done)
      requires IndexKept(areas, index, saved, model.byIdentifier, model.byObjectId.Contents())
      modifies model`byIdentifier, model.byObjectId
      ensures Valid() && model.byIdentifier == (areas + Restrict(saved, done))[id := saved[id]]
      ensures model.byObjectId.Contents() == O.Indexed(old(model.byObjectId.Contents()), id, saved[id].objectIds)
      ensures IndexKept(areas, index, saved, model.byIdentifier, model.byObjectId.Contents())
    {
      ghost var current, before := model.byIdentifier, model.byObjectId.Contents();
      IdsOnceSaved(current, saved[id]);
      var kept := model.Save(saved[id], id);
      forall kind | O.Owned(index, IdsOf(areas), kind) && CommitAdmits(areas, saved, kind) ensures model.Owned(kind) {
        AdmittedStep(areas, saved, done, id, kind);
        O.OwnedOnceIndexed(before, IdsOf(current), id, saved[id].objectIds, kind);
      }
    }

    method CommitSaved()
      requires Valid()
      modifies model`byIdentifier, model.byObjectId
      ensures Valid()
      ensures model.byIdentifier == old(model.byIdentifier) + saved
      ensures C.IndexesTo(old(model.byObjectId.Contents()), IdsOf(saved), model.byObjectId.Contents())
      ensures IndexKept(old(model.byIdentifier), old(model.byObjectId.Contents()), saved,
                        model.byIdentifier, model.byObjectId.Contents())
    {
      var ids := Enumerate(saved.Keys);
      ghost var areas, index := model.byIdentifier, model.byObjectId.Contents();
      assert IdsOf(saved).Keys == saved.Keys;
      for i := 0 to |ids|
        invariant Valid()
        invariant model.byIdentifier == areas + Restrict(saved, Prefix(ids, i))
        invariant C.IndexedUpTo(index, IdsOf(saved), ids, i, model.byObjectId.Contents())
        invariant IndexKept(areas, index, saved, model.byIdentifier, model.byObjectId.Contents())
      {
        assert ids[i] in saved.Keys && ids[i] !in Prefix(ids, i);
        C.OneMoreIndexed(index, IdsOf(saved), ids, i, model.byObjectId.Contents());
        PrefixGrows(ids, i);
        RestrictGrows(areas, saved, Prefix(ids, i), ids[i]);
        CommitOne(ids[i], areas, index, Prefix(ids, i));
      }
      PrefixIsAll(ids, saved.Keys);
      RestrictAll(saved);
      C.AllIndexed(index, IdsOf(saved), ids, model.byObjectId.Contents());
    }
  }

  lemma AdmittedStep(areas: Areas, saved: Areas, done: set<string>, id: string, kind: string)
    requires CommitAdmits(areas, saved, kind) && id in saved && id !in done
    ensures O.Admits(IdsOf(areas + Restrict(saved, done)), id, saved[id].objectIds, kind)
  {
    assert SaveAdmits(areas, saved, id, kind);
    var current := areas + Restrict(saved, done);
    if id !in areas {
      forall o: ObjectId | o.kind == kind && O.Has(saved[id].objectIds, o) ensures !O.Taken(IdsOf(current), o) {
        if O.Taken(IdsOf(current), o) {
          var m :| m in IdsOf(current) && O.Has(IdsOf(current)[m], o);
          HeldByNow(areas, saved, done, m, o, kind);
          assert false;
        }
      }
    }
  }

  /** An identifier that some stored area has during a commit belongs to an area of the result
      that has it too. */
  lemma HeldByNow(areas: Areas, saved: Areas, done: set<string>, m: string, o: ObjectId, kind: string)
    requires CommitAdmits(areas, saved, kind) && o.kind == kind && O.Holds(IdsOf(areas + Restrict(saved, done)), m, o)
    ensures O.Holds(IdsOf(areas + saved), m, o)
  {
    if m in saved {
      assert SaveAdmits(areas, saved, m, kind);
    }
  }

  // ---------------------------------------------------------------- propagation of a status

  /** The areas listed by findAscendants. */
  ghost function AscendantIds(areas: Areas, rank: string -> nat, id: string): set<string>
    requires Ranked(areas, rank)
  {
    set a | a in Ids(Ascendants(areas, rank, id))
  }

  /** These areas with the partner at this status; all others as they were. */
  ghost function WithStatus(areas: Areas, touched: set<string>, partner: string, status: bool): Areas {
    map id | id in areas :: if id in touched then WithPartnerStatus(areas[id], partner, status) else areas[id]
  }

  ghost predicate SameGraph(a: Areas, b: Areas) {
    && a.Keys == b.Keys
    && forall id :: id in a ==> a[id].parentId == b[id].parentId && a[id].referentId == b[id].referentId
  }

  lemma SameGraphSameRank(a: Areas, b: Areas, rank: string -> nat)
    requires SameGraph(a, b) && Ranked(a, rank)
    ensures Ranked(b, rank)
  {
    forall id | id in b ensures RankedAt(b, rank, id) {
      assert RankedAt(a, rank, id);
    }
  }

  /** Which areas are walked depends on the graph only. */
  lemma {:induction false} SameGraphSameWalk(a: Areas, b: Areas, rank: string -> nat, id: string)
    requires SameGraph(a, b) && Ranked(a, rank) && Ranked(b, rank) && KeyedById(a) && KeyedById(b)
    ensures Ids(Ascendants(a, rank, id)) == Ids(Ascendants(b, rank, id))
    decreases rank(id)
  {
    if id in a {
      assert RankedAt(a, rank, id);
      SameGraphSameWalk(a, b, rank, a[id].parentId);
      SameGraphSameWalk(a, b, rank, a[id].referentId);
      WalkIds(a, rank, id);
      WalkIds(b, rank, id);
    }
  }

  lemma WalkIds(areas: Areas, rank: string -> nat, id: string)
    requires Ranked(areas, rank) && KeyedById(areas) && id in areas
    ensures Ids(Ascendants(areas, rank, id)) ==
            [id] + (if areas[id].parentId != NO_ID then Ids(Ascendants(areas, rank, areas[id].parentId)) else [])
                 + (if areas[id].referentId != NO_ID then Ids(Ascendants(areas, rank, areas[id].referentId)) else [])
  {
    assert RankedAt(areas, rank, id);
    var up1 := if areas[id].parentId != NO_ID then Ascendants(areas, rank, areas[id].parentId) else [];
    var up2 := if areas[id].referentId != NO_ID then Ascendants(areas, rank, areas[id].referentId) else [];
    IdsConcat([areas[id]] + up1, up2);
    IdsConcat([areas[id]], up1);
    assert Ids([areas[id]]) == [id];
  }

  /** Every listed area is the stored one. */
  lemma {:induction false} WalkListsStored(areas: Areas, rank: string -> nat, id: string)
    requires Ranked(areas, rank) && KeyedById(areas)
    ensures forall a :: a in Ascendants(areas, rank, id) ==> a.id in areas && areas[a.id] == a
    decreases rank(id)
  {
    if id in areas {
      assert RankedAt(areas, rank, id);
      WalkListsStored(areas, rank, areas[id].parentId);
      WalkListsStored(areas, rank, areas[id].referentId);
    }
  }

  lemma StatusTwice(areas: Areas, s: set<string>, t: set<string>, partner: string, status: bool)
    ensures WithStatus(WithStatus(areas, s, partner, status), t, partner, status) ==
            WithStatus(areas, s + t, partner, status)
    ensures SameGraph(areas, WithStatus(areas, s, partner, status))
    ensures KeyedById(areas) ==> KeyedById(WithStatus(areas, s, partner, status))
  {
    forall area: StopArea ensures WithPartnerStatus(WithPartnerStatus(area, partner, status), partner, status)
                               == WithPartnerStatus(area, partner, status) {
      assert area.origins[partner := status][partner := status] == area.origins[partner := status];
    }
  }

  /** The subscriber of update events and the manager that reports partner statuses. */
  class StatusPropagation {
    const stopAreas: MemoryStopAreas

    constructor (stopAreas: MemoryStopAreas)
      ensures this.stopAreas == stopAreas
    {
      this.stopAreas := stopAreas;
    }

    /** updateStatus: in one transaction, every ascendant gets the partner's status. */
    method UpdateStatus(stopAreaId: string, partner: string, status: bool, ghost rank: string -> nat)
      requires stopAreas.Valid() && Ranked(stopAreas.byIdentifier, rank)
      requires NO_ID !in stopAreas.byIdentifier
      modifies stopAreas`byIdentifier, stopAreas.byObjectId
      ensures stopAreas.Valid() && Ranked(stopAreas.byIdentifier, rank)
      ensures stopAreas.byIdentifier ==
              WithStatus(old(stopAreas.byIdentifier), AscendantIds(old(stopAreas.byIdentifier), rank, stopAreaId),
                         partner, status)
      ensures StillOwned(old(stopAreas.byIdentifier), old(stopAreas.byObjectId.Contents()), stopAreas.byIdentifier,
                         stopAreas.byObjectId.Contents())
    {
      var tx := new TransactionalStopAreas(stopAreas);
      ghost var areas := stopAreas.byIdentifier;
      var ascendants, _ := tx.FindAscendants(stopAreaId, rank);
      TransactionalStopAreas.NothingPending(Ascendants(areas, rank, stopAreaId));
      WalkListsStored(areas, rank, stopAreaId);
      ghost var touched := AscendantIds(areas, rank, stopAreaId);
      SaveWithStatus(tx, ascendants, partner, status, touched);
      OverlayIsWithStatus(areas, tx.saved, tx.deleted, touched, partner, status);
      StatusTwice(areas, touched, {}, partner, status);
      SameGraphSameRank(areas, WithStatus(areas, touched, partner, status), rank);
      StatusIsAdmitted(areas, touched, partner, status);
      tx.Commit();
    }

    static lemma StatusIsAdmitted(areas: Areas, touched: set<string>, partner: string, status: bool)
      ensures forall kind :: CommitAdmits(areas, Restrict(WithStatus(areas, touched, partner, status), touched), kind)
    {
      var saved := Restrict(WithStatus(areas, touched, partner, status), touched);
      forall kind, id | id in saved ensures SaveAdmits(areas, saved, id, kind) {
      }
    }

    /** The loop of updateStatus: the copies of the ascendants, saved with the new status. */
    method SaveWithStatus(tx: TransactionalStopAreas, ascendants: seq<StopArea>, partner: string, status: bool,
                          ghost touched: set<string>)
      requires touched == set a | a in Ids(ascendants)
      requires tx.Valid() && tx.saved == map[] && NO_ID !in tx.model.byIdentifier
      requires forall a :: a in ascendants ==> a.id in tx.model.byIdentifier && tx.model.byIdentifier[a.id] == a
      modifies tx`saved
      ensures tx.Valid()
      ensures tx.saved == Restrict(WithStatus(tx.model.byIdentifier, touched, partner, status), touched)
    {
      ghost var areas, ids := tx.model.byIdentifier, Ids(ascendants);
      for i := 0 to |ascendants|
        invariant tx.Valid()
        invariant tx.saved == Restrict(WithStatus(areas, Prefix(ids, i), partner, status), Prefix(ids, i))
      {
        assert ascendants[i] in ascendants;
        OneMoreTouched(areas, Prefix(ids, i), ids[i], partner, status);
        PrefixGrows(ids, i);
        tx.Save(WithPartnerStatus(ascendants[i], partner, status), ascendants[i].id);
      }
      assert Prefix(ids, |ids|) == touched;
    }

    static lemma OneMoreTouched(areas: Areas, touched: set<string>, id: string, partner: string, status: bool)
      requires id in areas
      ensures Restrict(WithStatus(areas, touched + {id}, partner, status), touched + {id}) ==
              Restrict(WithStatus(areas, touched, partner, status),
                       touched)[id := WithPartnerStatus(areas[id], partner, status)]
    {
    }

    static lemma OverlayIsWithStatus(areas: Areas, saved: Areas, deleted: Areas, touched: set<string>,
                                     partner: string, status: bool)
      requires deleted == map[] && saved == Restrict(WithStatus(areas, touched, partner, status), touched)
      ensures (areas - deleted.Keys) + saved == WithStatus(areas, touched, partner, status)
    {
    }

    /** HandlePartnerStatusChange: one status event for each area that mentions the partner. */
    method HandlePartnerStatusChange(partner: string, status: bool, ghost rank: string -> nat)
      requires stopAreas.Valid() && Ranked(stopAreas.byIdentifier, rank)
      requires NO_ID !in stopAreas.byIdentifier
      modifies stopAreas`byIdentifier, stopAreas.byObjectId
      ensures stopAreas.Valid() && Ranked(stopAreas.byIdentifier, rank)
      ensures stopAreas.byIdentifier == AfterStatusChange(old(stopAreas.byIdentifier), rank, partner, status)
    {
      ghost var areas := stopAreas.byIdentifier;
      var ids := stopAreas.FindByOrigin(partner);
      ghost var touched: set<string> := {};
      StatusTwice(areas, {}, {}, partner, status);
      assert WithStatus(areas, {}, partner, status) == areas;
      for i := 0 to |ids|
        invariant stopAreas.Valid() && Ranked(stopAreas.byIdentifier, rank)
        invariant touched == AscendantsOfAny(areas, rank, Prefix(ids, i))
        invariant stopAreas.byIdentifier == WithStatus(areas, touched, partner, status)
      {
        StatusTwice(areas, touched, AscendantIds(areas, rank, ids[i]), partner, status);
        SameGraphSameWalk(areas, stopAreas.byIdentifier, rank, ids[i]);
        PrefixGrows(ids, i);
        AscendantsOfOneMore(areas, rank, Prefix(ids, i), ids[i]);
        touched := touched + AscendantIds(areas, rank, ids[i]);
        UpdateStatus(ids[i], partner, status, rank);
      }
      PrefixIsAll(ids, Mentioning(areas, partner));
    }
  }

  /** The ascendants of some of the areas. */
  ghost function AscendantsOfAny(areas: Areas, rank: string -> nat, ids: set<string>): set<string>
    requires Ranked(areas, rank)
  {
    set a | a in areas && exists id :: id in ids && a in AscendantIds(areas, rank, id)
  }

  lemma AscendantsOfOneMore(areas: Areas, rank: string -> nat, ids: set<string>, id: string)
    requires Ranked(areas, rank) && KeyedById(areas)
    ensures AscendantsOfAny(areas, rank, ids + {id}) == AscendantsOfAny(areas, rank, ids)
            + AscendantIds(areas, rank, id)
  {
    forall a | a in AscendantIds(areas, rank, id) ensures a in areas {
      WalkListsStored(areas, rank, id);
      var walked := Ascendants(areas, rank, id);
      var i :| 0 <= i < |walked| && Ids(walked)[i] == a;
      assert walked[i] in walked;
    }
  }

  /** What a change of a partner's status leaves. */
  ghost function AfterStatusChange(areas: Areas, rank: string -> nat, partner: string, status: bool): Areas
    requires Ranked(areas, rank)
  {
    WithStatus(areas, AscendantsOfAny(areas, rank, Mentioning(areas, partner)), partner, status)
  }

  /** After HandlePartnerStatusChange every area that mentions the partner has it at the new
      status, including the ascendants that mention it from now on; their Monitored flag is
      the conjunction of their origins; other partners, and areas that are not above an
      affected one, are as they were. */
  lemma StatusIsSettled(areas: Areas, rank: string -> nat, partner: string, status: bool, id: string)
    requires Ranked(areas, rank) && KeyedById(areas) && id in areas
    ensures AfterStatusChange(areas, rank, partner, status).Keys == areas.Keys
    ensures Settled(areas[id], AfterStatusChange(areas, rank, partner, status)[id], partner, status)
    ensures partner in AfterStatusChange(areas, rank, partner, status)[id].origins <==>
            exists below :: below in areas && partner in areas[below].origins && id in AscendantIds(areas, rank, below)
  {
    var mentioning := Mentioning(areas, partner);
    if partner in areas[id].origins {
      WalkIds(areas, rank, id);
      assert Ids(Ascendants(areas, rank, id))[0] == id;
      assert id in mentioning && id in AscendantIds(areas, rank, id);
    }
    if below :| below in areas && partner in areas[below].origins && id in AscendantIds(areas, rank, below) {
      assert below in mentioning;
    }
  }

  /** How one area stands after the change, compared with before. */
  ghost predicate Settled(before: StopArea, after: StopArea, partner: string, status: bool) {
    && (if partner in after.origins
        then after.origins[partner] == status && (after.monitored <==> AllUp(after.origins))
        else after == before)
    && (forall p :: p in before.origins && p != partner ==> p in after.origins && after.origins[p] == before.origins[p])
    && (forall p :: p in after.origins && p != partner ==> p in before.origins)
    && after.(origins := before.origins, monitored := before.monitored) == before
  }
}
