/** Vocabulary shared by every component: optional values, object identifiers,
    times, and the arbitrary order in which Go visits the entries of a map. */
module Common {

  datatype Option<+T> = None | Some(value: T)

  /** An external identifier of a model object: a kind (the naming authority) and a value. */
  datatype ObjectId = ObjectId(kind: string, value: string) {
    /** The "kind:value" text under which subscriptions file their resources. */
    function Key(): string { kind + ":" + value }
  }

  /** The identifiers of one object, at most one value for each kind. */
  type ObjectIds = map<string, string>

  /** The value of the kind among the identifiers is this one; a missing kind has the empty value. */
  ghost predicate MatchesValue(ids: ObjectIds, o: ObjectId) {
    if o.kind in ids then ids[o.kind] == o.value else o.value == ""
  }

  /** Instants count nanoseconds; the zero instant stands for "no time". */
  type Time = int

  const ZERO_TIME: Time := 0

  const SECOND: int := 1_000_000_000
  const MINUTE: int := 60 * SECOND

  predicate IsZero(t: Time) { t == ZERO_TIME }

  /** The identifiers that a generator hands out one after the other. */
  type Generator = nat -> string

  ghost predicate Distinct(generator: Generator) {
    forall i: nat, j: nat :: generator(i) == generator(j) ==> i == j
  }

  ghost predicate NoDuplicates<T>(s: seq<T>) {
    forall i, j :: 0 <= i < j < |s| ==> s[i] != s[j]
  }

  lemma NoDuplicatesAppend<T>(s: seq<T>, x: T)
    requires NoDuplicates(s) && x !in s
    ensures NoDuplicates(s + [x])
  {
  }

  lemma NoDuplicatesPrepend<T>(x: T, s: seq<T>)
    requires NoDuplicates(s) && x !in s
    ensures NoDuplicates([x] + s)
  {
    forall i, j | 0 <= i < j < |s| + 1 ensures ([x] + s)[i] != ([x] + s)[j] {
      assert ([x] + s)[j] == s[j - 1];
    }
  }

  /** `s` lists every element of `xs` exactly once, in some order. */
  ghost predicate Lists<T>(s: seq<T>, xs: set<T>) {
    && NoDuplicates(s)
    && (forall x :: x in s ==> x in xs)
    && (forall x :: x in xs ==> x in s)
  }

  /** The order of a Go map iteration: any listing of the keys. */
  method Enumerate<T(==)>(xs: set<T>) returns (s: seq<T>)
    ensures Lists(s, xs)
  {
    s := [];
    var rest := xs;
    while rest != {}
      invariant rest <= xs
      invariant NoDuplicates(s)
      invariant forall x :: x in s <==> x in xs - rest
      decreases rest
    {
      var x :| x in rest;
      assert x !in s;
      s := s + [x];
      rest := rest - {x};
    }
  }

  lemma SubsetCardinality<T>(a: set<T>, b: set<T>)
    requires a <= b
    ensures |a| <= |b|
    ensures a != b ==> |a| < |b|
  {
    var d := b - a;
    assert b == a + d;
    assert a != b ==> d != {};
  }

  // ---------------------------------------------------------------- maps changed key by key

  /** The first `n` keys of a listing. */
  ghost function Prefix<K>(keys: seq<K>, n: nat): set<K>
    requires n <= |keys|
  {
    set k | k in keys[..n]
  }

  ghost function Restrict<K, V>(m: map<K, V>, keys: set<K>): map<K, V> {
    map k | k in m && k in keys :: m[k]
  }

  lemma PrefixGrows<K>(keys: seq<K>, i: nat)
    requires i < |keys|
    ensures Prefix(keys, i + 1) == Prefix(keys, i) + {keys[i]}
  {
    assert keys[..i + 1] == keys[..i] + [keys[i]];
  }

  lemma PrefixIsAll<K>(keys: seq<K>, all: set<K>)
    requires Lists(keys, all)
    ensures Prefix(keys, |keys|) == all
  {
  }

  lemma RestrictAll<K, V>(m: map<K, V>)
    ensures Restrict(m, m.Keys) == m
  {
  }

  lemma RestrictGrows<K, V>(base: map<K, V>, m: map<K, V>, keys: set<K>, k: K)
    requires k in m
    ensures base + Restrict(m, keys + {k}) == (base + Restrict(m, keys))[k := m[k]]
  {
  }

  lemma MinusGrows<K, V>(base: map<K, V>, keys: set<K>, k: K)
    ensures base - (keys + {k}) == (base - keys) - {k}
  {
  }

  // ---------------------------------------------------------------- positions

  /** Exactly the positions that are marked, in increasing order. */
  ghost predicate IncreasingPositions(marks: seq<bool>, positions: seq<int>) {
    && (forall j, k :: 0 <= j < k < |positions| ==> positions[j] < positions[k])
    && (forall k :: 0 <= k < |positions| ==> 0 <= positions[k] < |marks| && marks[positions[k]])
    && (forall i :: 0 <= i < |marks| && marks[i] ==> i in positions)
  }

  lemma OneMorePosition(marks: seq<bool>, positions: seq<int>, mark: bool)
    requires IncreasingPositions(marks, positions)
    ensures IncreasingPositions(marks + [mark], if mark then positions + [|marks|] else positions)
  {
    if mark {
      forall i | 0 <= i < |marks + [mark]| && (marks + [mark])[i] ensures i in positions + [|marks|] {
        if i < |marks| {
          assert marks[i] && i in positions;
        }
      }
    }
  }

  // ---------------------------------------------------------------- sorting

  ghost predicate SortedByKey<T>(s: seq<T>, key: T -> int) {
    forall i, j :: 0 <= i < j < |s| ==> key(s[i]) <= key(s[j])
  }

  /** Go's sort: a reordering in which the keys do not decrease. */
  function SortByKey<T>(items: seq<T>, key: T -> int): seq<T> {
    if items == [] then [] else InsertByKey(items[0], SortByKey(items[1..], key), key)
  }

  function InsertByKey<T>(x: T, sorted: seq<T>, key: T -> int): seq<T> {
    if sorted == [] || key(x) <= key(sorted[0]) then [x] + sorted
    else [sorted[0]] + InsertByKey(x, sorted[1..], key)
  }

  lemma PrependKeepsOrder<T>(x: T, sorted: seq<T>, key: T -> int)
    requires SortedByKey(sorted, key) && forall y :: y in sorted ==> key(x) <= key(y)
    ensures SortedByKey([x] + sorted, key)
  {
  }

  lemma {:induction false} InsertKeepsOrder<T>(x: T, sorted: seq<T>, key: T -> int)
    requires SortedByKey(sorted, key)
    ensures SortedByKey(InsertByKey(x, sorted, key), key)
    ensures multiset(InsertByKey(x, sorted, key)) == multiset(sorted) + multiset{x}
  {
    if sorted == [] || key(x) <= key(sorted[0]) {
      PrependKeepsOrder(x, sorted, key);
    } else {
      var rest := InsertByKey(x, sorted[1..], key);
      InsertKeepsOrder(x, sorted[1..], key);
      assert sorted == [sorted[0]] + sorted[1..];
      forall y | y in rest ensures key(sorted[0]) <= key(y) {
        assert y in multiset(rest);
        assert y == x || y in sorted[1..];
      }
      PrependKeepsOrder(sorted[0], rest, key);
    }
  }

  lemma {:induction false} SortSorts<T>(items: seq<T>, key: T -> int)
    ensures SortedByKey(SortByKey(items, key), key)
    ensures multiset(SortByKey(items, key)) == multiset(items)
  {
    if items != [] {
      SortSorts(items[1..], key);
      InsertKeepsOrder(items[0], SortByKey(items[1..], key), key);
      assert items == [items[0]] + items[1..];
    }
  }
}
