/** The index from external object identifiers to models (model/objectid_index.go).

    A model that is indexed again loses the identifiers it no longer has, but the
    remembered list of its kinds only grows, and identifiers are erased without looking at
    who owns them now. The theorems say when lookups are nevertheless exact. */
module ObjectIdIndex {
  import opened Common

  type ModelId = string

  /** `byIdentifier` remembers, for each model, the last value given for every kind it ever had. */
  datatype Table = Table(byObjectId: map<ObjectId, ModelId>, byIdentifier: map<ModelId, ObjectIds>)

  const EMPTY := Table(map[], map[])

  function AsSet(ids: ObjectIds): set<ObjectId> {
    set k | k in ids :: ObjectId(k, ids[k])
  }

  predicate Has(ids: ObjectIds, o: ObjectId) {
    o.kind in ids && ids[o.kind] == o.value
  }

  function Remembered(t: Table, m: ModelId): ObjectIds {
    if m in t.byIdentifier then t.byIdentifier[m] else map[]
  }

  /** Remembered identifiers that the model does not have any more. */
  function Outdated(remembered: ObjectIds, ids: ObjectIds): set<ObjectId> {
    set k | k in remembered && (k !in ids || ids[k] != remembered[k]) :: ObjectId(k, remembered[k])
  }

  function Indexed(t: Table, m: ModelId, ids: ObjectIds): Table {
    Table((t.byObjectId - Outdated(Remembered(t, m), ids)) + (map o | o in AsSet(ids) :: m),
          t.byIdentifier[m := Remembered(t, m) + ids])
  }

  function Deleted(t: Table, m: ModelId): Table {
    if m !in t.byIdentifier then t
    else Table(t.byObjectId - AsSet(t.byIdentifier[m]), t.byIdentifier - {m})
  }

  function Lookup(t: Table, o: ObjectId): Option<ModelId> {
    if o in t.byObjectId then Some(t.byObjectId[o]) else None
  }

  // ---------------------------------------------------------------- invariant

  predicate Remembers(t: Table, m: ModelId, o: ObjectId) {
    m in t.byIdentifier && Has(t.byIdentifier[m], o)
  }

  predicate Holds(current: map<ModelId, ObjectIds>, m: ModelId, o: ObjectId) {
    m in current && Has(current[m], o)
  }

  /** Lookups answer exactly the identifiers in `current`, and no identifier is remembered for two models. */
  ghost predicate Exact(t: Table, current: map<ModelId, ObjectIds>) {
    && t.byIdentifier.Keys == current.Keys
    && (forall m, o :: Holds(current, m, o) ==> Remembers(t, m, o))
    && (forall m, m', o :: Remembers(t, m, o) && Remembers(t, m', o) ==> m == m')
    && (forall m, o :: Lookup(t, o) == Some(m) <==> Holds(current, m, o))
  }

  /** No other model is remembered with one of these identifiers. */
  ghost predicate Unclaimed(t: Table, m: ModelId, ids: ObjectIds) {
    forall m', o :: m' != m && Has(ids, o) ==> !Remembers(t, m', o)
  }

  lemma SetHas(ids: ObjectIds, o: ObjectId)
    ensures o in AsSet(ids) <==> Has(ids, o)
  {
    if Has(ids, o) {
      assert ObjectId(o.kind, ids[o.kind]) == o;
    }
  }

  lemma OutdatedHas(remembered: ObjectIds, ids: ObjectIds, o: ObjectId)
    ensures o in Outdated(remembered, ids) <==> Has(remembered, o) && !Has(ids, o)
  {
    if Has(remembered, o) && !Has(ids, o) {
      assert ObjectId(o.kind, remembered[o.kind]) == o;
    }
  }

  lemma IndexedIsExact(t: Table, current: map<ModelId, ObjectIds>, m: ModelId, ids: ObjectIds)
    requires Exact(t, current) && Unclaimed(t, m, ids)
    ensures Exact(Indexed(t, m, ids), current[m := ids])
  {
    var t', current' := Indexed(t, m, ids), current[m := ids];
    forall m', o
      ensures Remembers(t', m', o) ==> if m' == m then Has(ids, o) || Remembers(t, m, o) else Remembers(t, m', o)
      ensures Holds(current', m', o) <==> if m' == m then Has(ids, o) else Holds(current, m', o)
    {
    }
    forall m', o ensures Lookup(t', o) == Some(m') <==> Holds(current', m', o) {
      LookupIndexed(t, m, ids, o);
      assert Has(Remembered(t, m), o) <==> Remembers(t, m, o);
      assert Lookup(t, o) == Some(m') <==> Holds(current, m', o);
      assert Lookup(t, o) == Some(m) <==> Holds(current, m, o);
    }
  }

  /** What indexing one model does to every lookup. */
  lemma LookupIndexed(t: Table, m: ModelId, ids: ObjectIds, o: ObjectId)
    ensures Lookup(Indexed(t, m, ids), o) ==
            if Has(ids, o) then Some(m) else if Has(Remembered(t, m), o) then None else Lookup(t, o)
  {
    SetHas(ids, o);
    OutdatedHas(Remembered(t, m), ids, o);
  }

  lemma DeletedIsExact(t: Table, current: map<ModelId, ObjectIds>, m: ModelId)
    requires Exact(t, current)
    ensures Exact(Deleted(t, m), current - {m})
  {
    var t', current' := Deleted(t, m), current - {m};
    forall m', o
      ensures Remembers(t', m', o) <==> m' != m && Remembers(t, m', o)
      ensures Holds(current', m', o) <==> m' != m && Holds(current, m', o)
    {
    }
    forall m', o ensures Lookup(t', o) == Some(m') <==> Holds(current', m', o) {
      SetHas(Remembered(t, m), o);
      assert Has(Remembered(t, m), o) <==> Remembers(t, m, o);
      assert Lookup(t, o) == Some(m') <==> Holds(current, m', o);
      assert Lookup(t, o) == Some(m) <==> Holds(current, m, o);
    }
  }

  /** The owner found for an identifier is remembered with it, whatever identifiers clash. */
  ghost predicate Rooted(t: Table) {
    forall o :: o in t.byObjectId ==> Remembers(t, t.byObjectId[o], o)
  }

  lemma IndexedIsRooted(t: Table, m: ModelId, ids: ObjectIds)
    requires Rooted(t)
    ensures Rooted(Indexed(t, m, ids))
  {
    forall o | o in Indexed(t, m, ids).byObjectId
        ensures Remembers(Indexed(t, m, ids), Indexed(t, m, ids).byObjectId[o], o) {
      LookupIndexed(t, m, ids, o);
    }
  }

  lemma DeletedIsRooted(t: Table, m: ModelId)
    requires Rooted(t)
    ensures Rooted(Deleted(t, m))
  {
    forall o | o in Deleted(t, m).byObjectId ensures Remembers(Deleted(t, m), Deleted(t, m).byObjectId[o], o) {
      SetHas(Remembered(t, m), o);
      assert o in t.byObjectId && Remembers(t, t.byObjectId[o], o);
    }
  }

  // ---------------------------------------------------------------- one kind

  /** Lookups of one kind answer exactly the identifiers in `current`, and no identifier of
      the kind is remembered by a model that does not have it; other kinds may be shared. */
  ghost predicate Owned(t: Table, current: map<ModelId, ObjectIds>, kind: string) {
    && (forall m, o: ObjectId :: o.kind == kind ==> (Lookup(t, o) == Some(m) <==> Holds(current, m, o)))
    && (forall m, o: ObjectId :: o.kind == kind && Remembers(t, m, o) ==> Holds(current, m, o))
  }

  predicate Taken(current: map<ModelId, ObjectIds>, o: ObjectId) {
    exists m :: m in current && Has(current[m], o)
  }

  /** A model that is stored keeps its identifier of the kind, and a new one has one that is free. */
  ghost predicate Admits(current: map<ModelId, ObjectIds>, m: ModelId, ids: ObjectIds, kind: string) {
    if m in current then forall o: ObjectId :: o.kind == kind ==> (Has(current[m], o) <==> Has(ids, o))
    else forall o: ObjectId :: o.kind == kind && Has(ids, o) ==> !Taken(current, o)
  }

  lemma OwnedOnceIndexed(t: Table, current: map<ModelId, ObjectIds>, m: ModelId, ids: ObjectIds, kind: string)
    requires Owned(t, current, kind) && Admits(current, m, ids, kind)
    ensures Owned(Indexed(t, m, ids), current[m := ids], kind)
  {
    var t', current' := Indexed(t, m, ids), current[m := ids];
    forall m', o: ObjectId | o.kind == kind
      ensures Lookup(t', o) == Some(m') <==> Holds(current', m', o)
      ensures Remembers(t', m', o) ==> Holds(current', m', o)
    {
      LookupIndexed(t, m, ids, o);
      assert Has(Remembered(t, m), o) <==> Remembers(t, m, o);
      assert Remembers(t, m, o) ==> Holds(current, m, o);
      assert Lookup(t, o) == Some(m') <==> Holds(current, m', o);
      assert Lookup(t, o) == Some(m) <==> Holds(current, m, o);
      assert Remembers(t, m', o) ==> Holds(current, m', o);
      assert Holds(current, m', o) ==> Taken(current, o);
    }
  }

  // ---------------------------------------------------------------- runs

  datatype Operation = Put(modelId: ModelId, ids: ObjectIds) | Drop(modelId: ModelId)

  function Apply(t: Table, op: Operation): Table {
    match op
    case Put(m, ids) => Indexed(t, m, ids)
    case Drop(m) => Deleted(t, m)
  }

  function Run(ops: seq<Operation>): Table {
    if ops == [] then EMPTY else Apply(Run(ops[..|ops| - 1]), ops[|ops| - 1])
  }

  /** The identifiers each model was last indexed with. */
  function Current(ops: seq<Operation>): map<ModelId, ObjectIds> {
    if ops == [] then map[]
    else
      var before := Current(ops[..|ops| - 1]);
      match ops[|ops| - 1]
      case Put(m, ids) => before[m := ids]
      case Drop(m) => before - {m}
  }

  /** Over the whole run no identifier is given to two models. */
  ghost predicate ClaimedOnce(ops: seq<Operation>) {
    forall i, j, o ::
      0 <= i < |ops| && 0 <= j < |ops| && ops[i].Put? && ops[j].Put? && Has(ops[i].ids, o) && Has(ops[j].ids, o) ==>
        ops[i].modelId == ops[j].modelId
  }

  /** What is remembered was indexed at some point of the run. */
  lemma {:induction false} RememberedWasIndexed(ops: seq<Operation>, m: ModelId, o: ObjectId) returns (i: nat)
    requires Remembers(Run(ops), m, o)
    ensures i < |ops| && ops[i].Put? && ops[i].modelId == m && Has(ops[i].ids, o)
    decreases |ops|
  {
    var last := |ops| - 1;
    if ops[last].Put? && ops[last].modelId == m && Has(ops[last].ids, o) {
      i := last;
    } else {
      i := RememberedWasIndexed(ops[..last], m, o);
      assert ops[..last][i] == ops[i];
    }
  }

  /** If no identifier is ever given to two models, a lookup finds `m` for `o` exactly when
      `o` is among the identifiers `m` was last indexed with, after every run. */
  lemma {:induction false} RunFindsExactly(ops: seq<Operation>)
    requires ClaimedOnce(ops)
    ensures Exact(Run(ops), Current(ops))
    decreases |ops|
  {
    if ops != [] {
      var before, op := ops[..|ops| - 1], ops[|ops| - 1];
      assert ClaimedOnce(before) by {
        assert forall i :: 0 <= i < |before| ==> before[i] == ops[i];
      }
      RunFindsExactly(before);
      match op
      case Put(m, ids) =>
        forall m', o | m' != m && Has(ids, o) ensures !Remembers(Run(before), m', o) {
          if Remembers(Run(before), m', o) {
            var i := RememberedWasIndexed(before, m', o);
            assert false;
          }
        }
        IndexedIsExact(Run(before), Current(before), m, ids);
      case Drop(m) =>
        DeletedIsExact(Run(before), Current(before), m);
    }
  }

  /** Each model is indexed with identifiers that no other model has at that moment, and
      keeps every kind it has. */
  ghost predicate KeepsKinds(ops: seq<Operation>) {
    forall n :: 0 <= n < |ops| ==> KeepsKindsAt(ops, n)
  }

  ghost predicate KeepsKindsAt(ops: seq<Operation>, n: nat)
    requires n < |ops|
  {
    ops[n].Put? ==>
      var t := Run(ops[..n]);
      && (forall o :: Has(ops[n].ids, o) ==> Lookup(t, o) in {None, Some(ops[n].modelId)})
      && (ops[n].modelId in Current(ops[..n]) ==> Current(ops[..n])[ops[n].modelId].Keys <= ops[n].ids.Keys)
  }

  /** Identifiers may pass from one model to another in the course of a run, as long as no
      model drops a kind. */
  lemma {:induction false} RunKeepingKindsFindsExactly(ops: seq<Operation>)
    requires KeepsKinds(ops)
    ensures Exact(Run(ops), Current(ops)) && Run(ops).byIdentifier == Current(ops)
    decreases |ops|
  {
    if ops != [] {
      var n := |ops| - 1;
      var before := ops[..n];
      forall i | 0 <= i < n ensures KeepsKindsAt(before, i) {
        assert KeepsKindsAt(ops, i) && ops[..i] == before[..i];
      }
      RunKeepingKindsFindsExactly(before);
      assert KeepsKindsAt(ops, n);
      match ops[n]
      case Put(m, ids) =>
        forall m', o | m' != m && Has(ids, o) ensures !Remembers(Run(before), m', o) {
          assert Holds(Current(before), m', o) <==> Lookup(Run(before), o) == Some(m');
        }
        IndexedIsExact(Run(before), Current(before), m, ids);
        assert Remembered(Run(before), m) + ids == ids;
      case Drop(m) =>
        DeletedIsExact(Run(before), Current(before), m);
    }
  }

  // ---------------------------------------------------------------- exactly when lookups stay right

  /** Lookups answer exactly the identifiers in `current`. */
  ghost predicate LooksUp(t: Table, current: map<ModelId, ObjectIds>) {
    forall m, o :: Lookup(t, o) == Some(m) <==> Holds(current, m, o)
  }

  /** The identifiers that models have are remembered. */
  ghost predicate Remembering(t: Table, current: map<ModelId, ObjectIds>) {
    && t.byIdentifier.Keys == current.Keys
    && forall m, o :: Holds(current, m, o) ==> Remembers(t, m, o)
  }

  /** No identifier that another model has is taken over, or is remembered by this model from before. */
  ghost predicate Harmless(t: Table, current: map<ModelId, ObjectIds>, m: ModelId, ids: ObjectIds) {
    forall m', o :: m' != m && Holds(current, m', o) ==> !Has(ids, o) && !Remembers(t, m, o)
  }

  lemma RemembersHas(t: Table, m: ModelId, o: ObjectId)
    ensures Has(Remembered(t, m), o) <==> Remembers(t, m, o)
  {
  }

  /** Indexing a model keeps all lookups right if and only if it is harmless. */
  lemma IndexedLooksUpIff(t: Table, current: map<ModelId, ObjectIds>, m: ModelId, ids: ObjectIds)
    requires LooksUp(t, current) && Remembering(t, current)
    ensures LooksUp(Indexed(t, m, ids), current[m := ids]) <==> Harmless(t, current, m, ids)
  {
    var t', current' := Indexed(t, m, ids), current[m := ids];
    forall m', o
      ensures Lookup(t', o) == if Has(ids, o) then Some(m) else if Remembers(t, m, o) then None else Lookup(t, o)
      ensures Holds(current', m', o) <==> if m' == m then Has(ids, o) else Holds(current, m', o)
    {
      LookupIndexed(t, m, ids, o);
      RemembersHas(t, m, o);
    }
    if LooksUp(t', current') {
      forall m', o | m' != m && Holds(current, m', o) ensures !Has(ids, o) && !Remembers(t, m, o) {
        assert Lookup(t', o) == Some(m') <==> Holds(current', m', o);
      }
    }
    if Harmless(t, current, m, ids) {
      forall m', o ensures Lookup(t', o) == Some(m') <==> Holds(current', m', o) {
        assert Lookup(t, o) == Some(m') <==> Holds(current, m', o);
        assert Lookup(t, o) == Some(m) <==> Holds(current, m, o);
        assert Holds(current, m, o) ==> Remembers(t, m, o);
      }
    }
  }

  /** Deleting a model keeps all lookups right if and only if it is harmless. */
  lemma DeletedLooksUpIff(t: Table, current: map<ModelId, ObjectIds>, m: ModelId)
    requires LooksUp(t, current) && Remembering(t, current)
    ensures LooksUp(Deleted(t, m), current - {m}) <==> Harmless(t, current, m, map[])
  {
    var t', current' := Deleted(t, m), current - {m};
    forall m', o
      ensures Lookup(t', o) == if Remembers(t, m, o) then None else Lookup(t, o)
      ensures Holds(current', m', o) <==> m' != m && Holds(current, m', o)
    {
      SetHas(Remembered(t, m), o);
      RemembersHas(t, m, o);
    }
    if LooksUp(t', current') {
      forall m', o | m' != m && Holds(current, m', o) ensures !Remembers(t, m, o) {
        assert Lookup(t', o) == Some(m') <==> Holds(current', m', o);
      }
    }
    if Harmless(t, current, m, map[]) {
      forall m', o ensures Lookup(t', o) == Some(m') <==> Holds(current', m', o) {
        assert Lookup(t, o) == Some(m') <==> Holds(current, m', o);
        assert Lookup(t, o) == Some(m) <==> Holds(current, m, o);
        assert Holds(current, m, o) ==> Remembers(t, m, o);
      }
    }
  }

  /** What a model has is remembered in every run, whatever identifiers clash. */
  lemma {:induction false} RunRemembers(ops: seq<Operation>)
    ensures Remembering(Run(ops), Current(ops))
  {
    if ops != [] {
      var before, op := ops[..|ops| - 1], ops[|ops| - 1];
      RunRemembers(before);
      StepRemembers(Run(before), Current(before), op);
    }
  }

  lemma StepRemembers(t: Table, current: map<ModelId, ObjectIds>, op: Operation)
    requires Remembering(t, current)
    ensures Remembering(Apply(t, op), match op case Put(m, ids) => current[m := ids] case Drop(m) => current - {m})
  {
    match op
    case Put(m, ids) =>
      forall m', o | Holds(current[m := ids], m', o) ensures Remembers(Indexed(t, m, ids), m', o) {
        assert m' != m ==> Holds(current, m', o);
      }
    case Drop(m) =>
      forall m', o | Holds(current - {m}, m', o) ensures Remembers(Deleted(t, m), m', o) {
        assert Holds(current, m', o);
      }
  }

  ghost predicate HarmlessAt(ops: seq<Operation>, n: nat)
    requires n < |ops|
  {
    match ops[n]
    case Put(m, ids) => Harmless(Run(ops[..n]), Current(ops[..n]), m, ids)
    case Drop(m) => Harmless(Run(ops[..n]), Current(ops[..n]), m, map[])
  }

  ghost predicate LooksUpAt(ops: seq<Operation>, n: nat)
    requires n <= |ops|
  {
    LooksUp(Run(ops[..n]), Current(ops[..n]))
  }

  lemma StepLooksUpIff(ops: seq<Operation>, n: nat)
    requires n < |ops| && LooksUpAt(ops, n)
    ensures LooksUpAt(ops, n + 1) <==> HarmlessAt(ops, n)
  {
    assert ops[..n + 1][..n] == ops[..n];
    RunRemembers(ops[..n]);
    match ops[n]
    case Put(m, ids) => IndexedLooksUpIff(Run(ops[..n]), Current(ops[..n]), m, ids);
    case Drop(m) => DeletedLooksUpIff(Run(ops[..n]), Current(ops[..n]), m);
  }

  /** Lookups are right all along a run if and only if each of its steps is harmless. */
  lemma RunLooksUpIff(ops: seq<Operation>)
    ensures (forall n: nat :: n <= |ops| ==> LooksUpAt(ops, n)) <==> (forall n: nat :: n < |ops| ==> HarmlessAt(ops, n))
  {
    if forall n: nat :: n <= |ops| ==> LooksUpAt(ops, n) {
      forall n: nat | n < |ops| ensures HarmlessAt(ops, n) {
        assert LooksUpAt(ops, n) && LooksUpAt(ops, n + 1);
        StepLooksUpIff(ops, n);
      }
    }
    if forall n: nat :: n < |ops| ==> HarmlessAt(ops, n) {
      forall n: nat | n <= |ops| ensures LooksUpAt(ops, n) {
        HarmlessLooksUp(ops, n);
      }
    }
  }

  lemma {:induction false} HarmlessLooksUp(ops: seq<Operation>, n: nat)
    requires n <= |ops| && forall i: nat :: i < n ==> HarmlessAt(ops, i)
    ensures LooksUpAt(ops, n)
  {
    if n > 0 {
      HarmlessLooksUp(ops, n - 1);
      assert HarmlessAt(ops, n - 1);
      StepLooksUpIff(ops, n - 1);
    } else {
      assert ops[..0] == [];
    }
  }

  /** A model that drops a kind and is indexed again erases the identifier from whoever has
      it by then: every identifier here has one owner at a time, yet the lookup fails. */
  lemma DroppedKindErases(a: ModelId, b: ModelId, o: ObjectId)
    requires a != b
    ensures var held := map[o.kind := o.value];
            var ops := [Put(a, held), Put(a, map[]), Put(b, held), Put(a, map[])];
            Current(ops) == map[a := map[], b := held] && Lookup(Run(ops), o) == None
  {
    var held: ObjectIds := map[o.kind := o.value];
    var o1, o2, o3, o4 := [Put(a, held)], [Put(a, held), Put(a, map[])], [Put(a, held), Put(a, map[]), Put(b, held)],
      [Put(a, held), Put(a, map[]), Put(b, held), Put(a, map[])];
    assert o4[..3] == o3 && o3[..2] == o2 && o2[..1] == o1 && o1[..0] == [];
    calc {
      Lookup(Run(o4), o);
      Lookup(Indexed(Run(o3), a, map[]), o);
      { LookupIndexed(Run(o3), a, map[], o); RememberedTwice(a, b, held, o); }
      None;
    }
    CurrentTwice(a, b, held);
  }

  lemma RememberedTwice(a: ModelId, b: ModelId, held: ObjectIds, o: ObjectId)
    requires a != b && Has(held, o)
    ensures Has(Remembered(Run([Put(a, held), Put(a, map[]), Put(b, held)]), a), o)
  {
    var o1, o2, o3 := [Put(a, held)], [Put(a, held), Put(a, map[])], [Put(a, held), Put(a, map[]), Put(b, held)];
    assert o3[..2] == o2 && o2[..1] == o1 && o1[..0] == [];
    assert Has(Remembered(Indexed(EMPTY, a, held), a), o);
    assert Has(Remembered(Run(o2), a), o) by { assert Run(o2) == Indexed(Run(o1), a, map[]); }
    assert Run(o3) == Indexed(Run(o2), b, held);
  }

  lemma CurrentTwice(a: ModelId, b: ModelId, held: ObjectIds)
    requires a != b
    ensures Current([Put(a, held), Put(a, map[]), Put(b, held), Put(a, map[])]) == map[a := map[], b := held]
  {
    var o1, o2, o3, o4 := [Put(a, held)], [Put(a, held), Put(a, map[])], [Put(a, held), Put(a, map[]), Put(b, held)],
      [Put(a, held), Put(a, map[]), Put(b, held), Put(a, map[])];
    assert o4[..3] == o3 && o3[..2] == o2 && o2[..1] == o1 && o1[..0] == [];
    assert Current(o1) == map[a := held];
    assert Current(o2) == map[a := map[]];
    assert Current(o3) == map[a := map[], b := held];
  }

  // ---------------------------------------------------------------- the index itself

  class ObjectIdIndex {
    var byObjectId: map<ObjectId, ModelId>
    var byIdentifier: map<ModelId, ObjectIds>

    ghost function Contents(): Table
      reads this
    {
      Table(byObjectId, byIdentifier)
    }

    constructor ()
      ensures Contents() == EMPTY
    {
      byObjectId := map[];
      byIdentifier := map[];
    }

    method Index(modelId: ModelId, ids: ObjectIds)
      modifies this
      ensures Contents() == Indexed(old(Contents()), modelId, ids)
    {
      IndexedInSteps(Contents(), modelId, ids);
      if modelId in byIdentifier {
        EraseOutdated(byIdentifier[modelId], ids);
      } else {
        byIdentifier := byIdentifier[modelId := map[]];
      }
      Record(modelId, ids);
    }

    /** What the two loops leave, for a known model and for a new one. */
    static lemma IndexedInSteps(t: Table, m: ModelId, ids: ObjectIds)
      ensures m in t.byIdentifier ==>
                Indexed(t, m, ids) ==
                Table((t.byObjectId - Outdated(t.byIdentifier[m], ids)) + (map o | o in AsSet(ids) :: m),
                      t.byIdentifier[m := t.byIdentifier[m] + ids])
      ensures m !in t.byIdentifier ==>
                Indexed(t, m, ids) ==
                Table(t.byObjectId + (map o | o in AsSet(ids) :: m), t.byIdentifier[m := map[]][m := map[] + ids])
    {
      if m !in t.byIdentifier {
        assert Outdated(map[], ids) == {} && t.byObjectId - {} == t.byObjectId;
        assert t.byIdentifier[m := map[]][m := map[] + ids] == t.byIdentifier[m := map[] + ids];
      }
    }

    /** The first loop of Index: identifiers the model does not have any more. */
    method EraseOutdated(current: ObjectIds, ids: ObjectIds)
      modifies this`byObjectId
      ensures byObjectId == old(byObjectId) - Outdated(current, ids)
    {
      var kinds := Enumerate(current.Keys);
      for i := 0 to |kinds|
        invariant byObjectId == old(byObjectId) - OutdatedUpTo(current, ids, kinds[..i])
      {
        var kind := kinds[i];
        if kind !in ids || ids[kind] != current[kind] {
          byObjectId := byObjectId - {ObjectId(kind, current[kind])};
        }
      }
      assert OutdatedUpTo(current, ids, kinds[..|kinds|]) == Outdated(current, ids) by {
        forall k | k in current ensures k in kinds {
          assert k in current.Keys;
        }
      }
    }

    /** The second loop of Index: the identifiers the model has now. */
    method Record(modelId: ModelId, ids: ObjectIds)
      requires modelId in byIdentifier
      modifies this
      ensures byObjectId == old(byObjectId) + map o | o in AsSet(ids) :: modelId
      ensures byIdentifier == old(byIdentifier)[modelId := old(byIdentifier)[modelId] + ids]
    {
      var kinds := Enumerate(ids.Keys);
      for i := 0 to |kinds|
        invariant byObjectId == Own(old(byObjectId), modelId, ids, kinds[..i])
        invariant modelId in byIdentifier
        invariant byIdentifier[modelId] == Extend(old(byIdentifier)[modelId], ids, kinds[..i])
        invariant byIdentifier == old(byIdentifier)[modelId := byIdentifier[modelId]]
      {
        var kind := kinds[i];
        assert kind in ids.Keys;
        assert kinds[..i + 1][..i] == kinds[..i];
        byObjectId := byObjectId[ObjectId(kind, ids[kind]) := modelId];
        byIdentifier := byIdentifier[modelId := byIdentifier[modelId][kind := ids[kind]]];
      }
      assert kinds[..|kinds|] == kinds;
      OwnsEverything(old(byObjectId), modelId, ids, kinds);
      ExtendsByEverything(old(byIdentifier)[modelId], ids, kinds);
    }

    /** `base` with the identifiers of these kinds owned by `m`, one after the other. */
    static ghost function Own(base: map<ObjectId, ModelId>, m: ModelId, ids: ObjectIds,
                              kinds: seq<string>): map<ObjectId, ModelId> {
      if kinds == [] then base
      else
        var before, kind := Own(base, m, ids, kinds[..|kinds| - 1]), kinds[|kinds| - 1];
        if kind in ids then before[ObjectId(kind, ids[kind]) := m] else before
    }

    static ghost function Extend(base: ObjectIds, ids: ObjectIds, kinds: seq<string>): ObjectIds {
      if kinds == [] then base
      else
        var before, kind := Extend(base, ids, kinds[..|kinds| - 1]), kinds[|kinds| - 1];
        if kind in ids then before[kind := ids[kind]] else before
    }

    static lemma {:induction false} OwnLookup(base: map<ObjectId, ModelId>, m: ModelId, ids: ObjectIds,
                                              kinds: seq<string>, o: ObjectId)
      ensures o in Own(base, m, ids, kinds) <==> o in base || (o.kind in kinds && Has(ids, o))
      ensures o in Own(base, m, ids, kinds) ==>
                Own(base, m, ids, kinds)[o] == if o.kind in kinds && Has(ids, o) then m else base[o]
    {
      if kinds != [] {
        OwnLookup(base, m, ids, kinds[..|kinds| - 1], o);
        assert kinds == kinds[..|kinds| - 1] + [kinds[|kinds| - 1]];
      }
    }

    static lemma OwnsEverything(base: map<ObjectId, ModelId>, m: ModelId, ids: ObjectIds, kinds: seq<string>)
      requires Lists(kinds, ids.Keys)
      ensures Own(base, m, ids, kinds) == base + map o | o in AsSet(ids) :: m
    {
      forall o ensures o in Own(base, m, ids, kinds) <==> o in base || o in AsSet(ids) {
        OwnLookup(base, m, ids, kinds, o);
        SetHas(ids, o);
        assert o.kind in ids.Keys ==> o.kind in kinds;
      }
      forall o | o in Own(base, m, ids, kinds)
        ensures Own(base, m, ids, kinds)[o] == if o in AsSet(ids) then m else base[o]
      {
        OwnLookup(base, m, ids, kinds, o);
        SetHas(ids, o);
        assert o.kind in ids.Keys ==> o.kind in kinds;
      }
    }

    static lemma {:induction false} ExtendLookup(base: ObjectIds, ids: ObjectIds, kinds: seq<string>, k: string)
      ensures k in Extend(base, ids, kinds) <==> k in base || (k in kinds && k in ids)
      ensures k in Extend(base, ids, kinds) ==>
                Extend(base, ids, kinds)[k] == if k in kinds && k in ids then ids[k] else base[k]
    {
      if kinds != [] {
        ExtendLookup(base, ids, kinds[..|kinds| - 1], k);
        assert kinds == kinds[..|kinds| - 1] + [kinds[|kinds| - 1]];
      }
    }

    static lemma ExtendsByEverything(base: ObjectIds, ids: ObjectIds, kinds: seq<string>)
      requires Lists(kinds, ids.Keys)
      ensures Extend(base, ids, kinds) == base + ids
    {
      forall k ensures k in Extend(base, ids, kinds) <==> k in base || k in ids {
        ExtendLookup(base, ids, kinds, k);
        assert k in ids.Keys ==> k in kinds;
      }
      forall k | k in Extend(base, ids, kinds)
        ensures Extend(base, ids, kinds)[k] == if k in ids then ids[k] else base[k]
      {
        ExtendLookup(base, ids, kinds, k);
        assert k in ids.Keys ==> k in kinds;
      }
    }

    static ghost function OutdatedUpTo(current: ObjectIds, ids: ObjectIds, kinds: seq<string>): set<ObjectId> {
      set k | k in kinds && k in current && (k !in ids || ids[k] != current[k]) :: ObjectId(k, current[k])
    }

    method Find(o: ObjectId) returns (modelId: ModelId, ok: bool)
      ensures Lookup(Contents(), o) == if ok then Some(modelId) else None
    {
      ok := o in byObjectId;
      modelId := if ok then byObjectId[o] else "";
    }

    method Delete(modelId: ModelId)
      modifies this
      ensures Contents() == Deleted(old(Contents()), modelId)
    {
      if modelId !in byIdentifier {
        return;
      }
      EraseAll(byIdentifier[modelId]);
      byIdentifier := byIdentifier - {modelId};
    }

    /** The loop of Delete. */
    method EraseAll(current: ObjectIds)
      modifies this`byObjectId
      ensures byObjectId == old(byObjectId) - AsSet(current)
    {
      var kinds := Enumerate(current.Keys);
      for i := 0 to |kinds|
        invariant byObjectId == old(byObjectId) - OutdatedUpTo(current, map[], kinds[..i])
      {
        assert kinds[i] in current.Keys;
        byObjectId := byObjectId - {ObjectId(kinds[i], current[kinds[i]])};
      }
      assert OutdatedUpTo(current, map[], kinds[..|kinds|]) == AsSet(current) by {
        forall k | k in current ensures k in kinds {
          assert k in current.Keys;
        }
      }
    }
  }
}
