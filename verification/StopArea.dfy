/** Stop areas, the origins that feed them, and the walks along their Parent and Referent
    edges (model/stop_area.go, model/stop_area_origin.go). */
module StopArea {
  import opened Common

  /** The partners that feed a stop area, with their last known status. */
  type Origins = map<string, bool>

  datatype StopArea = StopArea(
    id: string,
    parentId: string,
    referentId: string,
    objectIds: ObjectIds,
    name: string,
    collectedAlways: bool,
    collectGeneralMessages: bool,
    collectedAt: Time,
    monitored: bool,
    origins: Origins,
    lineIds: seq<string>)

  /** The zero identifier: no stop area. */
  const NO_ID := ""

  type Areas = map<string, StopArea>

  ghost predicate KeyedById(areas: Areas) {
    forall id :: id in areas ==> areas[id].id == id
  }

  // ---------------------------------------------------------------- origins

  /** A stop area is monitored when no origin is lost. */
  predicate AllUp(origins: Origins) {
    forall p :: p in origins ==> origins[p]
  }

  function WithPartnerStatus(area: StopArea, partner: string, status: bool): StopArea {
    var origins := area.origins[partner := status];
    area.(origins := origins, monitored := AllUp(origins))
  }

  /** The loop of Monitored. */
  method Monitored(origins: Origins) returns (monitored: bool)
    ensures monitored <==> AllUp(origins)
  {
    monitored := true;
    var partners := Enumerate(origins.Keys);
    for i := 0 to |partners|
      invariant monitored <==> forall j :: 0 <= j < i ==> partners[j] in origins && origins[partners[j]]
    {
      assert partners[i] in origins.Keys;
      if !origins[partners[i]] {
        monitored := false;
        assert !origins[partners[i]];
        break;
      }
    }
    forall p | p in origins ensures p in partners {
      assert p in origins.Keys;
    }
  }

  /** The partners that were up in `origins` and are not up in `compared`. */
  method PartnersLost(origins: Origins, compared: Option<Origins>) returns (lost: seq<string>, any: bool)
    ensures NoDuplicates(lost) && (any <==> lost != [])
    ensures forall p :: p in lost <==>
              compared.Some? && p in origins && origins[p] && !(p in compared.value && compared.value[p])
  {
    lost, any := [], false;
    if compared.None? {
      return;
    }
    var partners := Enumerate(origins.Keys);
    for i := 0 to |partners|
      invariant NoDuplicates(lost) && (any <==> lost != [])
      invariant forall p :: p in lost <==>
                  p in partners[..i] && p in origins && origins[p] && !(p in compared.value && compared.value[p])
    {
      var partner := partners[i];
      assert partner in origins.Keys && partners[..i + 1] == partners[..i] + [partner] && partner !in partners[..i];
      if origins[partner] && !(partner in compared.value && compared.value[partner]) {
        lost := lost + [partner];
        any := true;
      }
    }
    assert partners[..|partners|] == partners;
    forall p | p in origins ensures p in partners {
      assert p in origins.Keys;
    }
  }

  // ---------------------------------------------------------------- the graph

  /** The graph has no cycle: going up to a parent or a referent lowers the rank. */
  ghost predicate Ranked(areas: Areas, rank: string -> nat) {
    forall id :: id in areas ==> RankedAt(areas, rank, id)
  }

  ghost predicate RankedAt(areas: Areas, rank: string -> nat, id: string)
    requires id in areas
  {
    rank(areas[id].parentId) < rank(id) && rank(areas[id].referentId) < rank(id)
  }

  predicate IsChild(areas: Areas, child: string, id: string) {
    child in areas && (areas[child].parentId == id || areas[child].referentId == id)
  }

  /** findAscendants: the area, then everything above its parent, then everything above its referent. */
  function Ascendants(areas: Areas, ghost rank: string -> nat, id: string): seq<StopArea>
    requires Ranked(areas, rank)
    decreases rank(id)
  {
    if id !in areas then []
    else
      assert RankedAt(areas, rank, id);
      [areas[id]]
      + (if areas[id].parentId != NO_ID then Ascendants(areas, rank, areas[id].parentId) else [])
      + (if areas[id].referentId != NO_ID then Ascendants(areas, rank, areas[id].referentId) else [])
  }

  function IdOfKind(area: StopArea, kind: string): seq<ObjectId> {
    if kind in area.objectIds then [ObjectId(kind, area.objectIds[kind])] else []
  }

  /** findAscendantsWithObjectIdKind walks the same way and keeps the identifiers of one kind. */
  function AscendantObjectIds(areas: Areas, ghost rank: string -> nat, id: string, kind: string): seq<ObjectId>
    requires Ranked(areas, rank)
    decreases rank(id)
  {
    if id !in areas then []
    else
      assert RankedAt(areas, rank, id);
      IdOfKind(areas[id], kind)
      + (if areas[id].parentId != NO_ID then AscendantObjectIds(areas, rank, areas[id].parentId, kind) else [])
      + (if areas[id].referentId != NO_ID then AscendantObjectIds(areas, rank, areas[id].referentId, kind) else [])
  }

  /** The filtered map of a listing of stop areas. */
  function IdsOfKind(listing: seq<StopArea>, kind: string): seq<ObjectId> {
    if listing == [] then []
    else if kind !in listing[0].objectIds then IdsOfKind(listing[1..], kind)
    else [ObjectId(kind, listing[0].objectIds[kind])] + IdsOfKind(listing[1..], kind)
  }

  lemma {:induction false} IdsOfKindConcat(a: seq<StopArea>, b: seq<StopArea>, kind: string)
    ensures IdsOfKind(a + b, kind) == IdsOfKind(a, kind) + IdsOfKind(b, kind)
  {
    if a == [] {
      assert a + b == b;
    } else {
      assert (a + b)[1..] == a[1..] + b;
      IdsOfKindConcat(a[1..], b, kind);
    }
  }

  /** The kind variant is exactly the filtered map of findAscendants, in the same order. */
  lemma {:induction false} KindVariantIsFilteredMap(areas: Areas, rank: string -> nat, id: string, kind: string)
    requires Ranked(areas, rank)
    ensures AscendantObjectIds(areas, rank, id, kind) == IdsOfKind(Ascendants(areas, rank, id), kind)
    decreases rank(id)
  {
    if id in areas {
      assert RankedAt(areas, rank, id);
      var area := areas[id];
      KindVariantIsFilteredMap(areas, rank, area.parentId, kind);
      KindVariantIsFilteredMap(areas, rank, area.referentId, kind);
      var up1 := if area.parentId != NO_ID then Ascendants(areas, rank, area.parentId) else [];
      var up2 := if area.referentId != NO_ID then Ascendants(areas, rank, area.referentId) else [];
      IdsOfKindConcat([area] + up1, up2, kind);
      IdsOfKindConcat([area], up1, kind);
      assert IdsOfKind([area], kind) == IdOfKind(area, kind);
    }
  }

  /** The walk does not depend on the rank that shows it terminates. */
  lemma {:induction false} AscendantsIgnoreRank(areas: Areas, rank: string -> nat, rank': string -> nat, id: string)
    requires Ranked(areas, rank) && Ranked(areas, rank')
    ensures Ascendants(areas, rank, id) == Ascendants(areas, rank', id)
    decreases rank(id)
  {
    if id in areas {
      assert RankedAt(areas, rank, id) && RankedAt(areas, rank', id);
      AscendantsIgnoreRank(areas, rank, rank', areas[id].parentId);
      AscendantsIgnoreRank(areas, rank, rank', areas[id].referentId);
    }
  }

  // ---------------------------------------------------------------- paths

  /** The number of upward paths from `x` to `y`, each edge of `x` counted apart. */
  ghost function Paths(areas: Areas, rank: string -> nat, x: string, y: string): nat
    requires Ranked(areas, rank)
    decreases rank(x)
  {
    if x !in areas then 0
    else
      assert RankedAt(areas, rank, x);
      (if x == y then 1 else 0)
      + (if areas[x].parentId != NO_ID then Paths(areas, rank, areas[x].parentId, y) else 0)
      + (if areas[x].referentId != NO_ID then Paths(areas, rank, areas[x].referentId, y) else 0)
  }

  function Ids(listing: seq<StopArea>): seq<string> {
    seq(|listing|, i requires 0 <= i < |listing| => listing[i].id)
  }

  lemma IdsConcat(a: seq<StopArea>, b: seq<StopArea>)
    ensures Ids(a + b) == Ids(a) + Ids(b)
  {
  }

  function Times(s: seq<string>, x: string): nat {
    multiset(s)[x]
  }

  lemma TimesConcat(a: seq<string>, b: seq<string>, x: string)
    ensures Times(a + b, x) == Times(a, x) + Times(b, x)
  {
  }

  lemma TimesOfWalk(area: StopArea, up1: seq<StopArea>, up2: seq<StopArea>, y: string)
    ensures Times(Ids([area] + up1 + up2), y) ==
            (if area.id == y then 1 else 0) + Times(Ids(up1), y) + Times(Ids(up2), y)
  {
    IdsConcat([area] + up1, up2);
    IdsConcat([area], up1);
    TimesConcat(Ids([area]) + Ids(up1), Ids(up2), y);
    TimesConcat(Ids([area]), Ids(up1), y);
    assert Ids([area]) == [area.id];
  }

  /** How often findAscendants(x) lists y: once for each upward path. */
  lemma {:induction false} AscendantsCountPaths(areas: Areas, rank: string -> nat, x: string, y: string)
    requires Ranked(areas, rank) && KeyedById(areas)
    ensures Times(Ids(Ascendants(areas, rank, x)), y) == Paths(areas, rank, x, y)
    decreases rank(x)
  {
    if x in areas {
      assert RankedAt(areas, rank, x);
      var area := areas[x];
      AscendantsCountPaths(areas, rank, area.parentId, y);
      AscendantsCountPaths(areas, rank, area.referentId, y);
      var up1 := if area.parentId != NO_ID then Ascendants(areas, rank, area.parentId) else [];
      var up2 := if area.referentId != NO_ID then Ascendants(areas, rank, area.referentId) else [];
      TimesOfWalk(area, up1, up2, y);
    }
  }

  /** The number of upward paths from `x` to `y` when a parent that is also the referent
      counts once. */
  ghost function SimplePaths(areas: Areas, rank: string -> nat, x: string, y: string): nat
    requires Ranked(areas, rank)
    decreases rank(x)
  {
    if x !in areas then 0
    else
      assert RankedAt(areas, rank, x);
      (if x == y then 1 else 0)
      + SimplePaths(areas, rank, areas[x].parentId, y)
      + (if areas[x].referentId != areas[x].parentId then SimplePaths(areas, rank, areas[x].referentId, y) else 0)
  }

  /** No stop area has one stored area as both parent and referent. */
  ghost predicate EdgesDiffer(areas: Areas) {
    forall id :: id in areas ==> !DoubleEdge(areas, id)
  }

  predicate DoubleEdge(areas: Areas, id: string)
    requires id in areas
  {
    areas[id].parentId == areas[id].referentId && areas[id].parentId in areas
  }

  lemma {:induction false} SimplePathsAreFewer(areas: Areas, rank: string -> nat, x: string, y: string)
    requires Ranked(areas, rank) && NO_ID !in areas
    ensures SimplePaths(areas, rank, x, y) <= Paths(areas, rank, x, y)
    ensures SimplePaths(areas, rank, x, y) > 0 <==> Paths(areas, rank, x, y) > 0
    ensures EdgesDiffer(areas) ==> SimplePaths(areas, rank, x, y) == Paths(areas, rank, x, y)
    decreases rank(x)
  {
    if x in areas {
      assert RankedAt(areas, rank, x);
      SimplePathsAreFewer(areas, rank, areas[x].parentId, y);
      SimplePathsAreFewer(areas, rank, areas[x].referentId, y);
      assert EdgesDiffer(areas) ==> !DoubleEdge(areas, x);
    }
  }

  /** The two counts agree for all stored areas exactly when no area has a double edge. */
  lemma PathCountsAgree(areas: Areas, rank: string -> nat)
    requires Ranked(areas, rank) && NO_ID !in areas
    ensures (forall x, y :: x in areas && y in areas ==> SimplePaths(areas, rank, x, y) == Paths(areas, rank, x, y))
       <==> EdgesDiffer(areas)
  {
    if EdgesDiffer(areas) {
      forall x, y ensures SimplePaths(areas, rank, x, y) == Paths(areas, rank, x, y) {
        SimplePathsAreFewer(areas, rank, x, y);
      }
    } else {
      var x :| x in areas && DoubleEdge(areas, x);
      var y := areas[x].parentId;
      assert RankedAt(areas, rank, x);
      SimplePathsAreFewer(areas, rank, y, y);
      assert Paths(areas, rank, y, y) > 0;
      assert SimplePaths(areas, rank, x, y) < Paths(areas, rank, x, y);
    }
  }

  /** The sum, over some areas, of the simple paths from `x` to them. */
  ghost function PathsToAny(areas: Areas, rank: string -> nat, x: string, targets: seq<string>): nat
    requires Ranked(areas, rank)
  {
    if targets == [] then 0
    else PathsToAny(areas, rank, x, targets[..|targets| - 1]) + SimplePaths(areas, rank, x, targets[|targets| - 1])
  }

  ghost predicate ListsChildren(areas: Areas, y: string, children: seq<string>) {
    && NoDuplicates(children)
    && forall c :: c in children <==> IsChild(areas, c, y)
  }

  /** Unfolding the paths at their first edge, for the sum over several targets. */
  lemma {:induction false} SumAtFirstEdge(areas: Areas, rank: string -> nat, x: string, targets: seq<string>)
    requires Ranked(areas, rank) && x in areas && NoDuplicates(targets)
    ensures PathsToAny(areas, rank, x, targets) ==
            (if x in targets then 1 else 0)
            + PathsToAny(areas, rank, areas[x].parentId, targets)
            + (if areas[x].referentId != areas[x].parentId
               then PathsToAny(areas, rank, areas[x].referentId, targets) else 0)
  {
    if targets != [] {
      var n := |targets| - 1;
      SumAtFirstEdge(areas, rank, x, targets[..n]);
      assert targets == targets[..n] + [targets[n]];
      assert targets[n] !in targets[..n];
    }
  }

  lemma {:induction false} NoPathFromOutside(areas: Areas, rank: string -> nat, x: string, targets: seq<string>)
    requires Ranked(areas, rank) && x !in areas
    ensures PathsToAny(areas, rank, x, targets) == 0
  {
    if targets != [] {
      NoPathFromOutside(areas, rank, x, targets[..|targets| - 1]);
    }
  }

  /** Cutting every path at its last edge instead of its first one. */
  lemma {:induction false} PathsAtLastEdge(areas: Areas, rank: string -> nat, x: string, y: string,
                                           children: seq<string>)
    requires Ranked(areas, rank) && y in areas && ListsChildren(areas, y, children)
    ensures SimplePaths(areas, rank, x, y) == (if x == y then 1 else 0) + PathsToAny(areas, rank, x, children)
    decreases rank(x)
  {
    if x in areas {
      assert RankedAt(areas, rank, x);
      PathsAtLastEdge(areas, rank, areas[x].parentId, y, children);
      PathsAtLastEdge(areas, rank, areas[x].referentId, y, children);
      SumAtFirstEdge(areas, rank, x, children);
    } else {
      NoPathFromOutside(areas, rank, x, children);
    }
  }

  // ---------------------------------------------------------------- the walk down

  /** The areas of higher rank: what remains to be walked below `id`. */
  ghost function Higher(areas: Areas, rank: string -> nat, id: string): set<string> {
    set a | a in areas && rank(a) > rank(id)
  }

  /** `family` lists every area as often as there are simple paths from it to `y`. */
  ghost predicate CountsPaths(areas: Areas, rank: string -> nat, y: string, family: seq<string>)
    requires Ranked(areas, rank)
  {
    forall x :: Times(family, x) == SimplePaths(areas, rank, x, y)
  }

  ghost predicate CountsPathsToAny(areas: Areas, rank: string -> nat, y: string, children: seq<string>,
                                   family: seq<string>)
    requires Ranked(areas, rank)
  {
    forall x :: Times(family, x) == (if x == y then 1 else 0) + PathsToAny(areas, rank, x, children)
  }

  lemma OneMoreChild(areas: Areas, rank: string -> nat, y: string, children: seq<string>, family: seq<string>,
                     child: string, below: seq<string>)
    requires Ranked(areas, rank)
    requires CountsPathsToAny(areas, rank, y, children, family) && CountsPaths(areas, rank, child, below)
    ensures CountsPathsToAny(areas, rank, y, children + [child], family + below)
  {
    var longer := children + [child];
    assert longer[..|longer| - 1] == children;
    forall x ensures Times(family + below, x) == (if x == y then 1 else 0) + PathsToAny(areas, rank, x, longer) {
      TimesConcat(family, below, x);
    }
  }

  /** findFamily: the area, then the families of its children in whatever order. */
  method FindFamily(areas: Areas, y: string, ghost rank: string -> nat) returns (family: seq<string>)
    requires Ranked(areas, rank)
    ensures |family| > 0 && family[0] == y
    ensures forall x :: x in family ==> x == y || x in areas
    ensures y in areas ==> CountsPaths(areas, rank, y, family)
    decreases Higher(areas, rank, y)
  {
    family := [y];
    var ids := Enumerate(areas.Keys);
    ghost var children: seq<string> := [];
    for i := 0 to |ids|
      invariant |family| > 0 && family[0] == y
      invariant forall x :: x in family ==> x == y || x in areas
      invariant NoDuplicates(children)
      invariant forall c :: c in children <==> c in ids[..i] && IsChild(areas, c, y)
      invariant CountsPathsToAny(areas, rank, y, children, family)
    {
      var id := ids[i];
      assert id in areas.Keys && ids[..i + 1] == ids[..i] + [id] && id !in ids[..i];
      if areas[id].parentId == y || areas[id].referentId == y {
        assert RankedAt(areas, rank, id);
        assert id in Higher(areas, rank, y) && id !in Higher(areas, rank, id);
        var below := FindFamily(areas, id, rank);
        OneMoreChild(areas, rank, y, children, family, id, below);
        family := family + below;
        children := children + [id];
      }
    }
    AllChildrenFound(areas, y, ids, children);
    if y in areas {
      forall x ensures Times(family, x) == SimplePaths(areas, rank, x, y) {
        PathsAtLastEdge(areas, rank, x, y, children);
      }
    }
  }

  lemma AllChildrenFound(areas: Areas, y: string, ids: seq<string>, children: seq<string>)
    requires Lists(ids, areas.Keys) && NoDuplicates(children)
    requires forall c :: c in children <==> c in ids[..|ids|] && IsChild(areas, c, y)
    ensures ListsChildren(areas, y, children)
  {
    assert ids[..|ids|] == ids;
    forall c ensures c in children <==> IsChild(areas, c, y) {
      assert c in areas ==> c in areas.Keys;
    }
  }

  /** The two walks are dual: y is listed above x exactly when x is listed below y, and
      both lists count the upward paths from x to y; the counts are equal when no area has
      one area as both parent and referent (PathCountsAgree: and only then, for all areas). */
  method WalksAreDual(areas: Areas, x: string, y: string, ghost rank: string -> nat)
    returns (ascendants: seq<StopArea>, family: seq<string>)
    requires Ranked(areas, rank) && KeyedById(areas) && x in areas && y in areas && NO_ID !in areas
    ensures ascendants == Ascendants(areas, rank, x)
    ensures y in Ids(ascendants) <==> x in family
    ensures Times(Ids(ascendants), y) == Paths(areas, rank, x, y)
    ensures Times(family, x) == SimplePaths(areas, rank, x, y)
    ensures EdgesDiffer(areas) ==> Times(Ids(ascendants), y) == Times(family, x)
  {
    ascendants := Ascendants(areas, rank, x);
    family := FindFamily(areas, y, rank);
    AscendantsCountPaths(areas, rank, x, y);
    SimplePathsAreFewer(areas, rank, x, y);
    assert y in Ids(ascendants) <==> Times(Ids(ascendants), y) > 0;
    assert x in family <==> Times(family, x) > 0;
  }
}
