/** Giving a parent to a stop area: when the graph stays without cycles (model/update_manager.go). */
module ParentAssignment {
  import opened Common
  import opened StopArea
  import opened MemoryStopAreas

  /** Some rank shows that no walk goes round. */
  ghost predicate Acyclic(areas: Areas) {
    exists rank: string -> nat :: Ranked(areas, rank)
  }

  /** No stored area has an edge to this identifier. */
  ghost predicate Unmentioned(areas: Areas, id: string) {
    forall x :: x in areas ==> areas[x].parentId != id && areas[x].referentId != id
  }

  /** `area` is a stored one without a parent, or a new one, that gets its parent; it is not
      above this parent. */
  ghost predicate ParentAllowed(areas: Areas, rank: string -> nat, area: StopArea)
    requires Ranked(areas, rank)
  {
    if area.id in areas then
      && areas[area.id].referentId == area.referentId
      && (areas[area.id].parentId == area.parentId
          || (areas[area.id].parentId == NO_ID && area.id !in AscendantIds(areas, rank, area.parentId)))
    else
      && area.id != NO_ID && Unmentioned(areas, area.id)
      && area.referentId == NO_ID && (area.parentId == NO_ID || area.parentId in areas)
  }

  /** Everything above an ascendant is an ascendant. */
  lemma {:induction false} AscendantsAreClosed(areas: Areas, rank: string -> nat, p: string, x: string)
    requires Ranked(areas, rank) && KeyedById(areas) && NO_ID !in areas
    requires x in AscendantIds(areas, rank, p)
    ensures x in areas
    ensures areas[x].parentId in areas ==> areas[x].parentId in AscendantIds(areas, rank, p)
    ensures areas[x].referentId in areas ==> areas[x].referentId in AscendantIds(areas, rank, p)
    decreases rank(p)
  {
    assert p in areas;
    WalkIds(areas, rank, p);
    assert RankedAt(areas, rank, p);
    if x == p {
      StartsWalk(areas, rank, areas[p].parentId);
      StartsWalk(areas, rank, areas[p].referentId);
    } else if areas[p].parentId != NO_ID && x in AscendantIds(areas, rank, areas[p].parentId) {
      AscendantsAreClosed(areas, rank, areas[p].parentId, x);
    } else {
      AscendantsAreClosed(areas, rank, areas[p].referentId, x);
    }
  }

  lemma StartsWalk(areas: Areas, rank: string -> nat, p: string)
    requires Ranked(areas, rank) && KeyedById(areas)
    ensures p in areas ==> p in AscendantIds(areas, rank, p)
    ensures p !in areas ==> AscendantIds(areas, rank, p) == {}
  {
    if p in areas {
      WalkIds(areas, rank, p);
      assert Ids(Ascendants(areas, rank, p))[0] == p;
    }
  }

  /** The areas that are moved above: the one with the new parent and all that are not above
      this parent. */
  ghost function Moved(areas: Areas, rank: string -> nat, area: StopArea): set<string>
    requires Ranked(areas, rank)
  {
    (set x | x in areas && x !in AscendantIds(areas, rank, area.parentId)) + {area.id}
  }

  ghost function Lifted(rank: string -> nat, moved: set<string>, lift: nat): string -> nat {
    (x: string) => if x in moved then rank(x) + lift else rank(x)
  }

  /** An allowed parent leaves the graph without cycles. */
  lemma AllowedParentIsRanked(areas: Areas, rank: string -> nat, area: StopArea) returns (rank': string -> nat)
    requires Ranked(areas, rank) && KeyedById(areas) && NO_ID !in areas && ParentAllowed(areas, rank, area)
    ensures Ranked(areas[area.id := area], rank')
  {
    var after := areas[area.id := area];
    if area.id in areas && areas[area.id].parentId == area.parentId {
      rank' := rank;
      forall x | x in after ensures RankedAt(after, rank', x) {
        assert RankedAt(areas, rank, x);
      }
    } else {
      rank' := Lifted(rank, Moved(areas, rank, area), rank(area.parentId) + rank(NO_ID) + 1);
      forall x | x in after ensures RankedAt(after, rank', x) {
        LiftedAt(areas, rank, area, x);
      }
    }
  }

  lemma LiftedAt(areas: Areas, rank: string -> nat, area: StopArea, x: string)
    requires Ranked(areas, rank) && KeyedById(areas) && NO_ID !in areas && ParentAllowed(areas, rank, area)
    requires area.id in areas ==>
             areas[area.id].parentId == NO_ID && area.id !in AscendantIds(areas, rank, area.parentId)
    requires x in areas[area.id := area]
    ensures RankedAt(areas[area.id := area],
                     Lifted(rank, Moved(areas, rank, area), rank(area.parentId) + rank(NO_ID) + 1), x)
  {
    if x == area.id {
      StartsWalk(areas, rank, area.parentId);
      assert area.parentId !in Moved(areas, rank, area);
      if x in areas {
        assert RankedAt(areas, rank, x);
      }
    } else {
      assert RankedAt(areas, rank, x);
      if x in AscendantIds(areas, rank, area.parentId) {
        AscendantsAreClosed(areas, rank, area.parentId, x);
        assert x !in Moved(areas, rank, area);
        assert areas[x].parentId !in Moved(areas, rank, area) && areas[x].referentId !in Moved(areas, rank, area);
      } else {
        assert x in Moved(areas, rank, area);
      }
    }
  }

  /** Every rank of a graph with all these edges goes down along the walk. */
  lemma {:induction false} WalkGoesDown(areas: Areas, rank: string -> nat, after: Areas, rank': string -> nat,
                                        p: string, y: string)
    requires Ranked(areas, rank) && KeyedById(areas) && Ranked(after, rank') && areas.Keys == after.Keys
    requires forall x :: x in areas ==> areas[x].referentId == after[x].referentId
                                        && (areas[x].parentId == after[x].parentId || areas[x].parentId == NO_ID)
    requires y in AscendantIds(areas, rank, p)
    ensures rank'(y) <= rank'(p)
    decreases rank(p)
  {
    assert p in areas && p in after.Keys;
    WalkIds(areas, rank, p);
    assert RankedAt(areas, rank, p) && RankedAt(after, rank', p);
    if y == p {
    } else if areas[p].parentId != NO_ID && y in AscendantIds(areas, rank, areas[p].parentId) {
      WalkGoesDown(areas, rank, after, rank', areas[p].parentId, y);
    } else {
      WalkGoesDown(areas, rank, after, rank', areas[p].referentId, y);
    }
  }

  /** A stored area without a parent can get one exactly if it is not above it: otherwise the
      graph has a cycle, on which the walks do not end. */
  lemma ParentAcyclicIff(areas: Areas, rank: string -> nat, id: string, parentId: string)
    requires Ranked(areas, rank) && KeyedById(areas) && NO_ID !in areas
    requires id in areas && areas[id].parentId == NO_ID && parentId in areas
    ensures Acyclic(areas[id := areas[id].(parentId := parentId)]) <==> id !in AscendantIds(areas, rank, parentId)
  {
    var area := areas[id].(parentId := parentId);
    var after := areas[id := area];
    if id !in AscendantIds(areas, rank, parentId) {
      var rank' := AllowedParentIsRanked(areas, rank, area);
      assert Ranked(after, rank');
    } else if Acyclic(after) {
      var rank': string -> nat :| Ranked(after, rank');
      assert RankedAt(after, rank', id);
      WalkGoesDown(areas, rank, after, rank', parentId, id);
      assert false;
    }
  }

  /** A walk that does not meet an area does not see it change. */
  lemma {:induction false} WalkAvoids(areas: Areas, rank: string -> nat, area: StopArea, rank': string -> nat,
                                      p: string)
    requires Ranked(areas, rank) && KeyedById(areas) && Ranked(areas[area.id := area], rank')
    requires p != area.id && area.id !in AscendantIds(areas, rank, p)
    requires area.id in areas || Unmentioned(areas, area.id)
    ensures Ascendants(areas[area.id := area], rank', p) == Ascendants(areas, rank, p)
    decreases rank(p)
  {
    var after := areas[area.id := area];
    if p in areas {
      WalkIds(areas, rank, p);
      assert RankedAt(areas, rank, p) && RankedAt(after, rank', p);
      AvoidsParent(areas, rank, area, p);
      if areas[p].parentId != NO_ID {
        WalkAvoids(areas, rank, area, rank', areas[p].parentId);
      }
      if areas[p].referentId != NO_ID {
        WalkAvoids(areas, rank, area, rank', areas[p].referentId);
      }
    }
  }

  lemma AvoidsParent(areas: Areas, rank: string -> nat, area: StopArea, p: string)
    requires Ranked(areas, rank) && KeyedById(areas) && p in areas
    requires p != area.id && area.id !in AscendantIds(areas, rank, p)
    requires area.id in areas || Unmentioned(areas, area.id)
    ensures areas[p].parentId != NO_ID ==>
            areas[p].parentId != area.id && area.id !in AscendantIds(areas, rank, areas[p].parentId)
    ensures areas[p].referentId != NO_ID ==>
            areas[p].referentId != area.id && area.id !in AscendantIds(areas, rank, areas[p].referentId)
  {
    WalkIds(areas, rank, p);
    StartsWalk(areas, rank, areas[p].parentId);
    StartsWalk(areas, rank, areas[p].referentId);
  }
}
