/** The hand-kept index from an attribute of models to their identifiers (model/index.go). */
module Index {
  import opened Common

  type ModelId = string

  /** `byIndexable` lists the models filed under each attribute value; `byIdentifier` tells
      under which value each model is filed. */
  datatype Table = Table(byIndexable: map<ModelId, seq<ModelId>>, byIdentifier: map<ModelId, ModelId>)

  const EMPTY := Table(map[], map[])

  function Bucket(t: Table, indexable: ModelId): seq<ModelId> {
    if indexable in t.byIndexable then t.byIndexable[indexable] else []
  }

  function RemoveFirst(s: seq<ModelId>, x: ModelId): seq<ModelId> {
    if s == [] then [] else if s[0] == x then s[1..] else [s[0]] + RemoveFirst(s[1..], x)
  }

  /** The buckets once `modelId` has left the bucket of `indexable`; an emptied bucket is dropped. */
  function Detached(buckets: map<ModelId, seq<ModelId>>, indexable: ModelId, modelId: ModelId): map<ModelId,
                    seq<ModelId>> {
    if indexable !in buckets || modelId !in buckets[indexable] then buckets
    else
      var rest := RemoveFirst(buckets[indexable], modelId);
      if rest == [] then buckets - {indexable} else buckets[indexable := rest]
  }

  /** The effect of indexing one model: it moves from its former bucket to the end of the new one. */
  function Indexed(t: Table, modelId: ModelId, indexable: ModelId): Table {
    if modelId in t.byIdentifier && t.byIdentifier[modelId] == indexable then t
    else
      var detached := if modelId in t.byIdentifier
                      then t.(byIndexable := Detached(t.byIndexable, t.byIdentifier[modelId], modelId)) else t;
      Table(detached.byIndexable[indexable := Bucket(detached, indexable) + [modelId]],
            t.byIdentifier[modelId := indexable])
  }

  function Deleted(t: Table, modelId: ModelId): Table {
    if modelId !in t.byIdentifier then t
    else Table(Detached(t.byIndexable, t.byIdentifier[modelId], modelId), t.byIdentifier - {modelId})
  }

  /** A model is in the bucket of `k`, once, exactly when it is filed under `k`; no bucket is empty. */
  ghost predicate Consistent(t: Table) {
    && (forall k :: k in t.byIndexable ==> t.byIndexable[k] != [])
    && (forall k :: NoDuplicates(Bucket(t, k)))
    && (forall k, m :: m in Bucket(t, k) <==> m in t.byIdentifier && t.byIdentifier[m] == k)
  }

  lemma BucketContents(t: Table, k: ModelId, m: ModelId)
    requires Consistent(t)
    ensures m in Bucket(t, k) <==> m in t.byIdentifier && t.byIdentifier[m] == k
  {
  }

  lemma {:induction false} RemoveFirstOfDistinct(s: seq<ModelId>, x: ModelId)
    requires NoDuplicates(s)
    ensures NoDuplicates(RemoveFirst(s, x))
    ensures forall y :: y in RemoveFirst(s, x) <==> y in s && y != x
  {
    if s != [] {
      assert s == [s[0]] + s[1..];
      assert NoDuplicates(s[1..]);
      if s[0] == x {
        assert x !in s[1..];
      } else {
        RemoveFirstOfDistinct(s[1..], x);
        NoDuplicatesPrepend(s[0], RemoveFirst(s[1..], x));
      }
    }
  }

  lemma DetachedBuckets(t: Table, modelId: ModelId)
    requires Consistent(t) && modelId in t.byIdentifier
    ensures Consistent(Table(Detached(t.byIndexable, t.byIdentifier[modelId], modelId), t.byIdentifier - {modelId}))
  {
    var k := t.byIdentifier[modelId];
    assert modelId in Bucket(t, k);
    RemoveFirstOfDistinct(Bucket(t, k), modelId);
    var t' := Table(Detached(t.byIndexable, k, modelId), t.byIdentifier - {modelId});
    assert Bucket(t', k) == RemoveFirst(Bucket(t, k), modelId);
    forall k' | k' != k ensures Bucket(t', k') == Bucket(t, k') {
    }
  }

  lemma IndexedIsConsistent(t: Table, modelId: ModelId, indexable: ModelId)
    requires Consistent(t)
    ensures Consistent(Indexed(t, modelId, indexable))
    ensures Indexed(t, modelId, indexable).byIdentifier == t.byIdentifier[modelId := indexable]
  {
    var t0 := Deleted(t, modelId);
    if modelId in t.byIdentifier {
      DetachedBuckets(t, modelId);
    }
    var t' := Indexed(t, modelId, indexable);
    if t' != t {
      assert Bucket(t', indexable) == Bucket(t0, indexable) + [modelId];
      assert Consistent(t0) && t'.byIdentifier == t0.byIdentifier[modelId := indexable];
      assert modelId !in Bucket(t0, indexable);
      NoDuplicatesAppend(Bucket(t0, indexable), modelId);
      forall k | k != indexable ensures Bucket(t', k) == Bucket(t0, k) {
      }
    }
  }

  lemma DeletedIsConsistent(t: Table, modelId: ModelId)
    requires Consistent(t)
    ensures Consistent(Deleted(t, modelId))
    ensures Deleted(t, modelId).byIdentifier == t.byIdentifier - {modelId}
  {
    if modelId in t.byIdentifier {
      DetachedBuckets(t, modelId);
    }
  }

  datatype Operation = Put(modelId: ModelId, indexable: ModelId) | Drop(modelId: ModelId)

  function Apply(t: Table, op: Operation): Table {
    match op
    case Put(m, k) => Indexed(t, m, k)
    case Drop(m) => Deleted(t, m)
  }

  function Run(ops: seq<Operation>): Table {
    if ops == [] then EMPTY else Apply(Run(ops[..|ops| - 1]), ops[|ops| - 1])
  }

  /** The attribute value given last to each model that was not deleted since. */
  function Current(ops: seq<Operation>): map<ModelId, ModelId> {
    if ops == [] then map[]
    else
      var before := Current(ops[..|ops| - 1]);
      match ops[|ops| - 1]
      case Put(m, k) => before[m := k]
      case Drop(m) => before - {m}
  }

  /** After any run, the bucket found for `k` holds exactly the models whose current value
      is `k`, each once, and no bucket is empty. */
  lemma {:induction false} RunFindsExactly(ops: seq<Operation>, k: ModelId)
    ensures Consistent(Run(ops)) && Run(ops).byIdentifier == Current(ops)
    ensures NoDuplicates(Bucket(Run(ops), k))
    ensures forall m :: m in Bucket(Run(ops), k) <==> m in Current(ops) && Current(ops)[m] == k
    decreases |ops|
  {
    if ops == [] {
      assert Consistent(EMPTY);
    } else {
      var before := ops[..|ops| - 1];
      RunFindsExactly(before, k);
      match ops[|ops| - 1]
      case Put(m, i) => IndexedIsConsistent(Run(before), m, i);
      case Drop(m) => DeletedIsConsistent(Run(before), m);
    }
  }

  class Index {
    var byIndexable: map<ModelId, seq<ModelId>>
    var byIdentifier: map<ModelId, ModelId>

    ghost function Contents(): Table
      reads this
    {
      Table(byIndexable, byIdentifier)
    }

    constructor ()
      ensures Contents() == EMPTY
    {
      byIndexable := map[];
      byIdentifier := map[];
    }

    method Index(modelId: ModelId, indexable: ModelId)
      modifies this
      ensures Contents() == Indexed(old(Contents()), modelId, indexable)
    {
      if modelId in byIdentifier {
        var currentIndexable := byIdentifier[modelId];
        if currentIndexable != indexable {
          RemoveFromIndexable(currentIndexable, modelId);
        } else {
          return;
        }
      }
      byIndexable := byIndexable[indexable :=
                                 (if indexable in byIndexable then byIndexable[indexable] else []) + [modelId]];
      byIdentifier := byIdentifier[modelId := indexable];
    }

    method Find(indexable: ModelId) returns (modelIds: seq<ModelId>, ok: bool)
      ensures modelIds == Bucket(Contents(), indexable)
      ensures ok <==> indexable in byIndexable
    {
      ok := indexable in byIndexable;
      modelIds := if ok then byIndexable[indexable] else [];
    }

    method Delete(modelId: ModelId)
      modifies this
      ensures Contents() == Deleted(old(Contents()), modelId)
    {
      if modelId !in byIdentifier {
        return;
      }
      RemoveFromIndexable(byIdentifier[modelId], modelId);
      byIdentifier := byIdentifier - {modelId};
    }

    method RemoveFromIndexable(indexable: ModelId, modelId: ModelId)
      modifies this`byIndexable
      ensures byIndexable == Detached(old(byIndexable), indexable, modelId)
    {
      if indexable !in byIndexable {
        return;
      }
      var bucket := byIndexable[indexable];
      for i := 0 to |bucket|
        invariant byIndexable == old(byIndexable)
        invariant modelId !in bucket[..i]
      {
        if bucket[i] == modelId {
          RemoveFirstAt(bucket, modelId, i);
          byIndexable := byIndexable[indexable := bucket[..i] + bucket[i + 1..]];
          if |byIndexable[indexable]| == 0 {
            byIndexable := byIndexable - {indexable};
          }
          return;
        }
      }
      assert bucket[..|bucket|] == bucket;
    }
  }

  lemma {:induction false} RemoveFirstAt(s: seq<ModelId>, x: ModelId, i: nat)
    requires i < |s| && s[i] == x && x !in s[..i]
    ensures RemoveFirst(s, x) == s[..i] + s[i + 1..]
  {
    if i > 0 {
      assert s[0] in s[..i];
      assert s[1..][..i - 1] == s[1..i] && forall y :: y in s[1..i] ==> y in s[..i];
      RemoveFirstAt(s[1..], x, i - 1);
    }
  }
}
