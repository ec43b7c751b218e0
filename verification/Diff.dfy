/** Structural equality of Go values that may share and loop (model/diff.go).

    A heap is a table of reflected values. `DeepValueEqual` walks two values
    together and remembers the pairs of addresses it has met; the theorem is
    that it always returns and answers "same" exactly when the two values agree
    however deeply they are unfolded. */
module Diff {
  import opened Common

  /** A reflect.Value: an index in the heap. */
  type Ref = nat

  /** A value compared by Go's own `==`. A value with `selfEqual` false (NaN) differs
      from itself; comparing one with `comparable` false (an array of slices) panics. */
  datatype Leaf = Leaf(content: int, selfEqual: bool, comparable: bool)

  datatype Field = Field(name: string, exported: bool, embedded: bool, diffIgnore: bool, value: Ref)

  datatype Shape =
    | Basic(leaf: Leaf)
    | Array(leaf: Leaf)
    | Instant(at: int)
    | Func(isNil: bool)
    | Pointer(target: Option<Ref>)
    | Interface(content: Option<Ref>)
    | Struct(fields: seq<Field>)
    | Slice(pointer: int, elements: seq<Ref>)
    | Map(pointer: int, isNil: bool, entries: map<int, Ref>)

  datatype Node = Node(typ: nat, addr: Option<int>, shape: Shape)

  type Heap = seq<Node>

  /** How a value was reached: Interface() panics on one reached through an unexported field. */
  datatype Access = Exported | ThroughEmbedded | Sticky

  /** Field hands down only the sticky flag of the struct. */
  function FieldAccess(access: Access, field: Field): Access {
    if access.Sticky? || (!field.exported && !field.embedded) then Sticky
    else if field.exported then Exported
    else ThroughEmbedded
  }

  /** Elem of an interface, Index and MapIndex make any flag sticky; Elem of a pointer keeps it. */
  function ElementAccess(access: Access): Access {
    if access.Exported? then Exported else Sticky
  }

  predicate Hard(shape: Shape) {
    shape.Array? || shape.Map? || shape.Slice? || shape.Struct? || shape.Instant?
  }

  function Values(fields: seq<Field>): seq<Ref> {
    seq(|fields|, i requires 0 <= i < |fields| => fields[i].value)
  }

  /** The pairs of elements that stand at one position. */
  function Zip(a: seq<Ref>, b: seq<Ref>): set<(Ref, Ref)> {
    set i | 0 <= i < |a| && i < |b| :: (a[i], b[i])
  }

  function Children(shape: Shape): set<Ref> {
    match shape
    case Pointer(Some(r)) => {r}
    case Interface(Some(r)) => {r}
    case Struct(fields) => set r | r in Values(fields)
    case Slice(_, elements) => set r | r in elements
    case Map(_, _, entries) => entries.Values
    case _ => {}
  }

  /** Two nodes of one type have the same kind and, for structs, the same fields. */
  predicate SameLayout(s1: Shape, s2: Shape) {
    match (s1, s2)
    case (Basic(_), Basic(_)) => true
    case (Array(_), Array(_)) => true
    case (Instant(_), Instant(_)) => true
    case (Func(_), Func(_)) => true
    case (Pointer(_), Pointer(_)) => true
    case (Interface(_), Interface(_)) => true
    case (Struct(f1), Struct(f2)) =>
      |f1| == |f2| && forall i :: 0 <= i < |f1| ==> f1[i].(value := 0) == f2[i].(value := 0)
    case (Slice(_, _), Slice(_, _)) => true
    case (Map(_, _, _), Map(_, _, _)) => true
    case _ => false
  }

  /** reflect decides from the parent whether a child can be addressed. */
  predicate ChildAddressability(parent: Node, child: Node) {
    match parent.shape
    case Pointer(_) => child.addr.Some?
    case Slice(_, _) => child.addr.Some?
    case Struct(_) => child.addr.Some? == parent.addr.Some?
    case _ => child.addr.None?
  }

  ghost predicate WellFormed(h: Heap) {
    && (forall r :: ChildrenInHeap(h, r))
    && (forall i, j :: CoherentAt(h, i, j))
  }

  ghost predicate ChildrenInHeap(h: Heap, r: Ref) {
    r < |h| ==> forall c :: c in Children(h[r].shape) ==> c < |h| && ChildAddressability(h[r], h[c])
  }

  ghost predicate CoherentAt(h: Heap, i: Ref, j: Ref) {
    i < |h| && j < |h| && h[i].typ == h[j].typ ==> Coherent(h[i], h[j])
  }

  /** What two nodes of one type share when they have one address or one backing store. */
  ghost predicate Coherent(a: Node, b: Node) {
    && SameLayout(a.shape, b.shape)
    && (a.addr.Some? && a.addr == b.addr ==> a.shape == b.shape)
    && (a.shape.Slice? && b.shape.Slice? && a.shape.pointer == b.shape.pointer ==>
          (|a.shape.elements| == |b.shape.elements| ==> a.shape.elements == b.shape.elements))
    && (a.shape.Map? && b.shape.Map? && a.shape.pointer == b.shape.pointer ==> a.shape == b.shape)
  }

  /** Every cycle passes through a value whose visit is recorded: `rank` falls on all other edges. */
  ghost predicate Guarded(h: Heap, rank: seq<nat>) {
    && |rank| == |h|
    && forall r :: GuardedAt(h, rank, r)
  }

  ghost predicate GuardedAt(h: Heap, rank: seq<nat>, r: Ref)
    requires |rank| == |h|
  {
    r < |h| && !(h[r].addr.Some? && Hard(h[r].shape)) ==>
      forall c :: c in Children(h[r].shape) && c < |h| ==> rank[c] < rank[r]
  }

  /** `c` is reached from `r` by going down `n` times. */
  ghost predicate Reaches(h: Heap, r: Ref, c: Ref, n: nat)
    decreases n
  {
    if n == 0 then c == r else r < |h| && exists d :: d in Children(h[r].shape) && Reaches(h, d, c, n - 1)
  }

  /** The value reaches no NaN and no function value other than nil. */
  ghost predicate SelfEqual(h: Heap, r: Ref) {
    forall n: nat, c: Ref :: Reaches(h, r, c, n) ==> SelfEqualAt(h, c)
  }

  ghost predicate SelfEqualAt(h: Heap, r: Ref) {
    r < |h| ==>
      match h[r].shape
      case Basic(l) => l.selfEqual
      case Array(l) => l.selfEqual
      case Func(isNil) => isNil
      case _ => true
  }

  // ---------------------------------------------------------------- meaning

  predicate LocalMatch(a: Node, b: Node) {
    a.typ == b.typ &&
    match (a.shape, b.shape)
    case (Basic(l1), Basic(l2)) => l1 == l2 && l1.selfEqual
    case (Array(l1), Array(l2)) => l1 == l2 && l1.selfEqual
    case (Instant(t1), Instant(t2)) => t1 == t2
    case (Func(n1), Func(n2)) => n1 && n2
    case (Pointer(t1), Pointer(t2)) => t1.Some? == t2.Some?
    case (Interface(c1), Interface(c2)) => c1.Some? == c2.Some?
    case (Struct(f1), Struct(f2)) => |f1| == |f2|
    case (Slice(_, e1), Slice(_, e2)) => |e1| == |e2|
    case (Map(_, n1, m1), Map(_, n2, m2)) => n1 == n2 && m1.Keys == m2.Keys
    case _ => false
  }

  /** The pairs of components that must agree for two values to agree. */
  function ChildPairs(s1: Shape, s2: Shape): set<(Ref, Ref)> {
    match (s1, s2)
    case (Pointer(Some(r1)), Pointer(Some(r2))) => {(r1, r2)}
    case (Interface(Some(r1)), Interface(Some(r2))) => {(r1, r2)}
    case (Struct(f1), Struct(f2)) => Zip(Values(f1), Values(f2))
    case (Slice(_, e1), Slice(_, e2)) => Zip(e1, e2)
    case (Map(_, _, m1), Map(_, _, m2)) => set k | k in m1 && k in m2 :: (m1[k], m2[k])
    case _ => {}
  }

  /** The two values agree when unfolded to depth `n`. */
  ghost predicate Agree(h: Heap, r1: Ref, r2: Ref, n: nat)
    decreases n
  {
    n == 0 ||
    (r1 < |h| && r2 < |h| && LocalMatch(h[r1], h[r2]) &&
     forall p :: p in ChildPairs(h[r1].shape, h[r2].shape) ==> Agree(h, p.0, p.1, n - 1))
  }

  /** Agreement at every depth: the two values cannot be told apart. */
  ghost predicate Indistinguishable(h: Heap, r1: Ref, r2: Ref) {
    forall n: nat :: Agree(h, r1, r2, n)
  }

  lemma UnfoldsOnce(h: Heap, r1: Ref, r2: Ref)
    requires r1 < |h| && r2 < |h|
    ensures Indistinguishable(h, r1, r2) <==>
            && LocalMatch(h[r1], h[r2])
            && forall p :: p in ChildPairs(h[r1].shape, h[r2].shape) ==> Indistinguishable(h, p.0, p.1)
  {
    var pairs := ChildPairs(h[r1].shape, h[r2].shape);
    if Indistinguishable(h, r1, r2) {
      assert Agree(h, r1, r2, 1);
      forall p | p in pairs ensures Indistinguishable(h, p.0, p.1) {
        forall n: nat ensures Agree(h, p.0, p.1, n) {
          assert Agree(h, r1, r2, n + 1);
        }
      }
    } else if LocalMatch(h[r1], h[r2]) && forall p :: p in pairs ==> Indistinguishable(h, p.0, p.1) {
      forall n: nat ensures Agree(h, r1, r2, n) {
        forall p | p in pairs && n > 0 ensures Agree(h, p.0, p.1, n - 1) {
          assert Indistinguishable(h, p.0, p.1);
        }
      }
      assert false;
    }
  }

  ghost predicate BothOrNeither(h: Heap, a: Option<Ref>, b: Option<Ref>) {
    match (a, b)
    case (Some(r1), Some(r2)) => Indistinguishable(h, r1, r2)
    case (None, None) => true
    case _ => false
  }

  /** What it means, kind by kind, that two values cannot be told apart: one type, and equal
      basic values, instants at one time, nil functions, slices alike in length and at each
      position, nil or not nil maps with the same keys and alike under each, and so on. */
  lemma AlikeIff(h: Heap, r1: Ref, r2: Ref)
    requires r1 < |h| && r2 < |h|
    ensures Indistinguishable(h, r1, r2) <==>
            h[r1].typ == h[r2].typ &&
            match (h[r1].shape, h[r2].shape)
            case (Basic(l1), Basic(l2)) => l1 == l2 && l1.selfEqual
            case (Array(l1), Array(l2)) => l1 == l2 && l1.selfEqual
            case (Instant(t1), Instant(t2)) => t1 == t2
            case (Func(n1), Func(n2)) => n1 && n2
            case (Pointer(t1), Pointer(t2)) => BothOrNeither(h, t1, t2)
            case (Interface(c1), Interface(c2)) => BothOrNeither(h, c1, c2)
            case (Struct(f1), Struct(f2)) =>
              |f1| == |f2| && forall i :: 0 <= i < |f1| ==> Indistinguishable(h, f1[i].value, f2[i].value)
            case (Slice(_, e1), Slice(_, e2)) =>
              |e1| == |e2| && forall i :: 0 <= i < |e1| ==> Indistinguishable(h, e1[i], e2[i])
            case (Map(_, n1, m1), Map(_, n2, m2)) =>
              && n1 == n2 && (forall k :: k in m1 <==> k in m2)
              && forall k :: k in m1 && k in m2 ==> Indistinguishable(h, m1[k], m2[k])
            case _ => false
  {
    UnfoldsOnce(h, r1, r2);
    match (h[r1].shape, h[r2].shape)
    case (Pointer(Some(a)), Pointer(Some(b))) =>
      assert (a, b) in ChildPairs(h[r1].shape, h[r2].shape);
    case (Interface(Some(a)), Interface(Some(b))) =>
      assert (a, b) in ChildPairs(h[r1].shape, h[r2].shape);
    case (Struct(f1), Struct(f2)) =>
      if |f1| == |f2| {
        ZipAlike(h, Values(f1), Values(f2));
        assert forall i :: 0 <= i < |f1| ==> Values(f1)[i] == f1[i].value && Values(f2)[i] == f2[i].value;
      }
    case (Slice(_, e1), Slice(_, e2)) =>
      if |e1| == |e2| {
        ZipAlike(h, e1, e2);
      }
    case (Map(_, _, m1), Map(_, _, m2)) =>
      forall k | k in m1 && k in m2 ensures (m1[k], m2[k]) in ChildPairs(h[r1].shape, h[r2].shape) {
      }
      SameKeysIff(m1, m2);
    case _ =>
  }

  lemma SameKeysIff(m1: map<int, Ref>, m2: map<int, Ref>)
    ensures m1.Keys == m2.Keys <==> forall k :: k in m1 <==> k in m2
  {
    if forall k :: k in m1 <==> k in m2 {
      assert forall k :: k in m1.Keys <==> k in m2.Keys;
    } else {
      var k :| (k in m1) != (k in m2);
      assert (k in m1.Keys) != (k in m2.Keys);
    }
  }

  lemma ZipAlike(h: Heap, a: seq<Ref>, b: seq<Ref>)
    requires |a| == |b|
    ensures (forall p :: p in Zip(a, b) ==> Indistinguishable(h, p.0, p.1)) <==>
            forall i :: 0 <= i < |a| ==> Indistinguishable(h, a[i], b[i])
  {
    forall i | 0 <= i < |a| ensures (a[i], b[i]) in Zip(a, b) {
    }
  }

  // ---------------------------------------------------------------- visits

  datatype Visit = Visit(a1: int, a2: int, typ: nat)

  /** Addresses are put in order so that a pair and its mirror are one visit. */
  function VisitOf(a1: int, a2: int, typ: nat): Visit {
    if a1 > a2 then Visit(a2, a1, typ) else Visit(a1, a2, typ)
  }

  predicate Recorded(h: Heap, r1: Ref, r2: Ref)
    requires r1 < |h| && r2 < |h|
  {
    h[r1].addr.Some? && h[r2].addr.Some? && Hard(h[r1].shape)
  }

  ghost function Remember(h: Heap, r1: Ref, r2: Ref, seen: set<Visit>): set<Visit>
    requires r1 < |h| && r2 < |h|
  {
    if Recorded(h, r1, r2) then seen + {VisitOf(h[r1].addr.value, h[r2].addr.value, h[r1].typ)} else seen
  }

  ghost predicate VisitFor(h: Heap, i: Ref, j: Ref, seen: set<Visit>) {
    && i < |h| && j < |h| && h[i].addr.Some? && h[j].addr.Some? && h[i].typ == h[j].typ
    && VisitOf(h[i].addr.value, h[j].addr.value, h[i].typ) in seen
  }

  /** Every pair of values remembered in `seen` agrees to depth `n`. */
  ghost predicate AllAgree(h: Heap, seen: set<Visit>, n: nat) {
    forall i, j :: VisitFor(h, i, j, seen) ==> Agree(h, i, j, n)
  }

  /** A positive answer for `pairs` is right as far as the remembered pairs are right,
      and the pairs remembered on the way are then right one level deeper. */
  ghost predicate Justified(h: Heap, pairs: set<(Ref, Ref)>, before: set<Visit>, after: set<Visit>) {
    forall n: nat :: AllAgree(h, after, n) ==> JustifiedAt(h, pairs, before, after, n)
  }

  ghost predicate JustifiedAt(h: Heap, pairs: set<(Ref, Ref)>, before: set<Visit>, after: set<Visit>, n: nat) {
    && (forall p :: p in pairs ==> Agree(h, p.0, p.1, n))
    && AllAgree(h, after - before, n + 1)
  }

  // ---------------------------------------------------------------- lemmas about agreement

  lemma {:induction false} AgreeMonotone(h: Heap, r1: Ref, r2: Ref, n: nat)
    requires Agree(h, r1, r2, n + 1)
    ensures Agree(h, r1, r2, n)
    decreases n
  {
    if n > 0 {
      forall p | p in ChildPairs(h[r1].shape, h[r2].shape) ensures Agree(h, p.0, p.1, n - 1) {
        AgreeMonotone(h, p.0, p.1, n - 1);
      }
    }
  }

  lemma {:induction false} AgreeSymmetric(h: Heap, r1: Ref, r2: Ref, n: nat)
    requires Agree(h, r1, r2, n)
    ensures Agree(h, r2, r1, n)
    decreases n
  {
    if n > 0 {
      forall p | p in ChildPairs(h[r2].shape, h[r1].shape) ensures Agree(h, p.0, p.1, n - 1) {
        assert (p.1, p.0) in ChildPairs(h[r1].shape, h[r2].shape) by { Mirror(h[r1].shape, h[r2].shape, p); }
        AgreeSymmetric(h, p.1, p.0, n - 1);
      }
    }
  }

  lemma Mirror(s1: Shape, s2: Shape, p: (Ref, Ref))
    requires p in ChildPairs(s2, s1)
    ensures (p.1, p.0) in ChildPairs(s1, s2)
  {
    match (s2, s1)
    case (Struct(f2), Struct(f1)) => var i :| 0 <= i < |f1| && i < |f2| && p == (Values(f2)[i], Values(f1)[i]);
    case (Slice(_, e2), Slice(_, e1)) => var i :| 0 <= i < |e1| && i < |e2| && p == (e2[i], e1[i]);
    case (Map(_, _, m2), Map(_, _, m1)) => var k :| k in m1 && k in m2 && p == (m2[k], m1[k]);
    case _ =>
  }

  lemma ChildPairsInHeap(h: Heap, r1: Ref, r2: Ref, p: (Ref, Ref))
    requires WellFormed(h) && r1 < |h| && r2 < |h|
    requires p in ChildPairs(h[r1].shape, h[r2].shape)
    ensures p.0 in Children(h[r1].shape) && p.1 in Children(h[r2].shape)
  {
    match (h[r1].shape, h[r2].shape)
    case (Struct(f1), Struct(f2)) =>
      var i :| 0 <= i < |f1| && i < |f2| && p == (Values(f1)[i], Values(f2)[i]);
    case (Map(_, _, m1), Map(_, _, m2)) =>
      var k :| k in m1 && k in m2 && p == (m1[k], m2[k]);
    case _ =>
  }

  lemma ChildInHeap(h: Heap, r: Ref, c: Ref)
    requires WellFormed(h) && r < |h| && c in Children(h[r].shape)
    ensures c < |h| && ChildAddressability(h[r], h[c])
  {
    assert ChildrenInHeap(h, r);
  }

  /** What a component reaches, the value reaches. */
  lemma ComponentIsSelfEqual(h: Heap, r: Ref, c: Ref)
    requires r < |h| && SelfEqual(h, r) && c in Children(h[r].shape)
    ensures SelfEqual(h, c)
  {
    forall n: nat, d: Ref | Reaches(h, c, d, n) ensures SelfEqualAt(h, d) {
      assert Reaches(h, r, d, n + 1);
    }
  }

  lemma SelfEqualHere(h: Heap, r: Ref)
    requires SelfEqual(h, r)
    ensures SelfEqualAt(h, r)
  {
    assert Reaches(h, r, r, 0);
  }

  /** A value that reaches no NaN and no function value agrees with itself. */
  lemma {:induction false} AgreeReflexive(h: Heap, r: Ref, n: nat)
    requires WellFormed(h) && SelfEqual(h, r) && r < |h|
    ensures Agree(h, r, r, n)
    decreases n
  {
    if n > 0 {
      forall p | p in ChildPairs(h[r].shape, h[r].shape) ensures Agree(h, p.0, p.1, n - 1) {
        Diagonal(h[r].shape, h[r].shape, p);
        ChildInHeap(h, r, p.0);
        ComponentIsSelfEqual(h, r, p.0);
        AgreeReflexive(h, p.0, n - 1);
      }
      SelfEqualHere(h, r);
      SameContentsMatch(h[r], h[r]);
    }
  }

  /** Two values with one shape agree too. */
  lemma SameContentsAgree(h: Heap, r1: Ref, r2: Ref, n: nat)
    requires WellFormed(h) && SelfEqual(h, r1)
    requires r1 < |h| && r2 < |h| && h[r1].typ == h[r2].typ && SameContents(h[r1].shape, h[r2].shape)
    ensures Agree(h, r1, r2, n)
  {
    if n > 0 {
      forall p | p in ChildPairs(h[r1].shape, h[r2].shape) ensures Agree(h, p.0, p.1, n - 1) {
        Diagonal(h[r1].shape, h[r2].shape, p);
        ChildInHeap(h, r1, p.0);
        ComponentIsSelfEqual(h, r1, p.0);
        AgreeReflexive(h, p.0, n - 1);
      }
      SelfEqualHere(h, r1);
      SameContentsMatch(h[r1], h[r2]);
      AgreeFromComponents(h, r1, r2, n - 1);
    }
  }

  /** Every component has a partner in a value that matches. */
  lemma PartnerOfChild(a: Node, b: Node, c: Ref) returns (d: Ref)
    requires LocalMatch(a, b) && c in Children(a.shape)
    ensures (c, d) in ChildPairs(a.shape, b.shape)
  {
    match (a.shape, b.shape)
    case (Pointer(_), Pointer(Some(r))) => d := r;
    case (Interface(_), Interface(Some(r))) => d := r;
    case (Struct(f1), Struct(f2)) =>
      var i :| 0 <= i < |f1| && Values(f1)[i] == c;
      d := Values(f2)[i];
      assert (Values(f1)[i], Values(f2)[i]) in Zip(Values(f1), Values(f2));
    case (Slice(_, e1), Slice(_, e2)) =>
      var i :| 0 <= i < |e1| && e1[i] == c;
      d := e2[i];
      assert (e1[i], e2[i]) in Zip(e1, e2);
    case (Map(_, _, m1), Map(_, _, m2)) =>
      var k := KeyOfValue(m1, c);
      assert k in m2.Keys;
      d := m2[k];
  }

  lemma KeyOfValue<K, V>(m: map<K, V>, v: V) returns (k: K)
    requires v in m.Values
    ensures k in m && m[k] == v
  {
    k :| k in m && m[k] == v;
  }

  /** Values that agree deep enough have no NaN and no function value where one looks. */
  lemma {:induction false} AgreementReaches(h: Heap, r1: Ref, r2: Ref, c: Ref, n: nat)
    requires Agree(h, r1, r2, n + 1) && Reaches(h, r1, c, n)
    ensures SelfEqualAt(h, c)
    decreases n
  {
    if n > 0 {
      var d :| d in Children(h[r1].shape) && Reaches(h, d, c, n - 1);
      var e := PartnerOfChild(h[r1], h[r2], d);
      assert Agree(h, (d, e).0, (d, e).1, n);
      AgreementReaches(h, d, e, c, n - 1);
    }
  }

  /** Only values that reach no NaN and no function value agree with anything at every depth. */
  lemma IndistinguishableIsSelfEqual(h: Heap, r1: Ref, r2: Ref)
    requires Indistinguishable(h, r1, r2)
    ensures SelfEqual(h, r1)
  {
    forall n: nat, c: Ref | Reaches(h, r1, c, n) ensures SelfEqualAt(h, c) {
      AgreementReaches(h, r1, r2, c, n);
    }
  }

  /** Exactly those values agree with themselves, so the shortcut on shared storage, which
      answers "same" without looking, is right exactly for them. */
  lemma SharedStorageIsRightIff(h: Heap, r1: Ref, r2: Ref)
    requires WellFormed(h) && SharedStorage(h, r1, r2)
    ensures Indistinguishable(h, r1, r2) <==> SelfEqual(h, r1)
  {
    assert CoherentAt(h, r1, r2);
    if SelfEqual(h, r1) {
      forall n: nat ensures Agree(h, r1, r2, n) {
        SameContentsAgree(h, r1, r2, n);
      }
    } else if Indistinguishable(h, r1, r2) {
      IndistinguishableIsSelfEqual(h, r1, r2);
      assert false;
    }
  }

  lemma Diagonal(s1: Shape, s2: Shape, p: (Ref, Ref))
    requires SameContents(s1, s2) && p in ChildPairs(s1, s2)
    ensures p.0 == p.1 && p.0 in Children(s1)
  {
    match (s1, s2)
    case (Map(_, _, m1), Map(_, _, m2)) =>
      var k :| k in m1 && k in m2 && p == (m1[k], m2[k]);
    case _ =>
  }

  lemma SameContentsMatch(a: Node, b: Node)
    requires a.typ == b.typ && SameContents(a.shape, b.shape)
    requires a.shape.Basic? || a.shape.Array? ==> a.shape.leaf.selfEqual
    requires a.shape.Func? ==> a.shape.isNil
    ensures LocalMatch(a, b)
  {
  }

  ghost predicate SameContents(s1: Shape, s2: Shape) {
    || s1 == s2
    || (s1.Slice? && s2.Slice? && s1.elements == s2.elements)
  }

  /** Agreement depends on the address pair only, whichever way round it was met. */
  lemma AgreeAlias(h: Heap, r1: Ref, r2: Ref, i: Ref, j: Ref, n: nat)
    requires WellFormed(h) && r1 < |h| && r2 < |h| && Recorded(h, r1, r2) && h[r1].typ == h[r2].typ
    requires VisitFor(h, i, j, {VisitOf(h[r1].addr.value, h[r2].addr.value, h[r1].typ)})
    requires Agree(h, r1, r2, n)
    ensures Agree(h, i, j, n)
  {
    if h[i].addr == h[r1].addr && h[j].addr == h[r2].addr {
      assert CoherentAt(h, i, r1) && CoherentAt(h, j, r2);
    } else {
      assert h[i].addr == h[r2].addr && h[j].addr == h[r1].addr;
      assert CoherentAt(h, i, r2) && CoherentAt(h, j, r1);
      AgreeSymmetric(h, r1, r2, n);
    }
  }

  /** From the components to the pair itself: the step that closes the coinduction. */
  lemma ComponentsJustify(h: Heap, r1: Ref, r2: Ref, before: set<Visit>, start: set<Visit>, after: set<Visit>)
    requires WellFormed(h) && r1 < |h| && r2 < |h| && LocalMatch(h[r1], h[r2])
    requires start == Remember(h, r1, r2, before)
    requires Justified(h, ChildPairs(h[r1].shape, h[r2].shape), start, after)
    ensures Justified(h, {(r1, r2)}, before, after)
  {
    forall n: nat | AllAgree(h, after, n) ensures JustifiedAt(h, {(r1, r2)}, before, after, n) {
      ComponentsJustifyAt(h, r1, r2, before, start, after, n);
    }
  }

  lemma ComponentsJustifyAt(h: Heap, r1: Ref, r2: Ref, before: set<Visit>, start: set<Visit>, after: set<Visit>, n: nat)
    requires WellFormed(h) && r1 < |h| && r2 < |h| && LocalMatch(h[r1], h[r2])
    requires start == Remember(h, r1, r2, before)
    requires JustifiedAt(h, ChildPairs(h[r1].shape, h[r2].shape), start, after, n)
    ensures JustifiedAt(h, {(r1, r2)}, before, after, n)
  {
    AgreeFromComponents(h, r1, r2, n);
    AgreeMonotone(h, r1, r2, n);
    VisitJustified(h, r1, r2, before, start, after, n + 1);
  }

  lemma AgreeFromComponents(h: Heap, r1: Ref, r2: Ref, n: nat)
    requires r1 < |h| && r2 < |h| && LocalMatch(h[r1], h[r2])
    requires forall p :: p in ChildPairs(h[r1].shape, h[r2].shape) ==> Agree(h, p.0, p.1, n)
    ensures Agree(h, r1, r2, n + 1)
  {
  }

  lemma VisitJustified(h: Heap, r1: Ref, r2: Ref, before: set<Visit>, start: set<Visit>, after: set<Visit>, n: nat)
    requires WellFormed(h) && r1 < |h| && r2 < |h| && LocalMatch(h[r1], h[r2])
    requires start == Remember(h, r1, r2, before)
    requires Agree(h, r1, r2, n) && AllAgree(h, after - start, n)
    ensures AllAgree(h, after - before, n)
  {
    forall i, j | VisitFor(h, i, j, after - before) ensures Agree(h, i, j, n) {
      if !VisitFor(h, i, j, after - start) {
        AgreeAlias(h, r1, r2, i, j, n);
      }
    }
  }

  lemma NothingJustified(h: Heap, seen: set<Visit>)
    ensures Justified(h, {}, seen, seen)
  {
  }

  lemma RememberedIsJustified(h: Heap, r1: Ref, r2: Ref, seen: set<Visit>)
    requires VisitFor(h, r1, r2, seen)
    ensures Justified(h, {(r1, r2)}, seen, seen)
  {
  }

  /** One more component compared: justifications add up. */
  lemma JustifiedJoin(h: Heap, ps: set<(Ref, Ref)>, qs: set<(Ref, Ref)>, s0: set<Visit>, s1: set<Visit>, s2: set<Visit>)
    requires s0 <= s1 <= s2
    requires Justified(h, ps, s0, s1) && Justified(h, qs, s1, s2)
    ensures Justified(h, ps + qs, s0, s2)
  {
    forall n: nat | AllAgree(h, s2, n) ensures JustifiedAt(h, ps + qs, s0, s2, n) {
      forall i, j | VisitFor(h, i, j, s1) ensures Agree(h, i, j, n) {
        assert VisitFor(h, i, j, s2);
      }
      assert JustifiedAt(h, ps, s0, s1, n) && JustifiedAt(h, qs, s1, s2, n);
      forall i, j | VisitFor(h, i, j, s2 - s0) ensures Agree(h, i, j, n + 1) {
        assert VisitFor(h, i, j, s1 - s0) || VisitFor(h, i, j, s2 - s1);
      }
    }
  }

  /** The remembered pairs of a run that started with nothing remembered form a bisimulation. */
  lemma {:induction false} RememberedPairsAgree(h: Heap, pairs: set<(Ref, Ref)>, seen: set<Visit>, n: nat)
    requires Justified(h, pairs, {}, seen)
    ensures AllAgree(h, seen, n)
    ensures forall p :: p in pairs ==> Agree(h, p.0, p.1, n)
    decreases n
  {
    if n > 0 {
      RememberedPairsAgree(h, pairs, seen, n - 1);
      assert JustifiedAt(h, pairs, {}, seen, n - 1) && seen - {} == seen;
      assert AllAgree(h, seen, n);
    } else {
      assert AllAgree(h, seen, 0);
    }
  }

  // ---------------------------------------------------------------- the algorithm

  datatype Verdict = Same | Different | Panic

  /** The visited map shared by one comparison. */
  class Visited {
    var seen: set<Visit>
    /** Every visit that can ever be remembered: finitely many, hence termination. */
    ghost const universe: set<Visit>

    constructor (ghost universe: set<Visit>)
      ensures seen == {} && this.universe == universe
    {
      seen := {};
      this.universe := universe;
    }

    /** Visits not yet remembered: the budget of the recursion. */
    ghost function Fuel(): nat
      reads this
    {
      |universe - seen|
    }
  }

  ghost predicate Covers(h: Heap, universe: set<Visit>) {
    forall i, j :: 0 <= i < |h| && 0 <= j < |h| && h[i].addr.Some? && h[j].addr.Some? ==>
      VisitOf(h[i].addr.value, h[j].addr.value, h[i].typ) in universe
  }

  /** No field is unexported and every leaf can be compared: nothing can panic. */
  ghost predicate Readable(h: Heap) {
    forall r :: ReadableAt(h, r)
  }

  ghost predicate ReadableAt(h: Heap, r: Ref) {
    r < |h| ==>
      match h[r].shape
      case Basic(l) => l.comparable
      case Array(l) => l.comparable
      case Struct(fields) => forall f :: f in fields ==> f.exported
      case _ => true
  }

  /** Some finite unfolding tells the two values apart. */
  ghost predicate Distinguishable(h: Heap, r1: Ref, r2: Ref) {
    exists n: nat :: !Agree(h, r1, r2, n)
  }

  /** Two slices of one type, one length and one backing array. */
  ghost predicate SharedSlices(h: Heap, r1: Ref, r2: Ref) {
    && r1 < |h| && r2 < |h| && h[r1].typ == h[r2].typ && h[r1].shape.Slice? && h[r2].shape.Slice?
    && h[r1].shape.pointer == h[r2].shape.pointer
    && |h[r1].shape.elements| == |h[r2].shape.elements|
  }

  /** Two maps of one type that are one map. */
  ghost predicate SharedMaps(h: Heap, r1: Ref, r2: Ref) {
    && r1 < |h| && r2 < |h| && h[r1].typ == h[r2].typ && h[r1].shape.Map? && h[r2].shape.Map?
    && h[r1].shape.pointer == h[r2].shape.pointer
  }

  ghost predicate SharedStorage(h: Heap, r1: Ref, r2: Ref) {
    SharedSlices(h, r1, r2) || SharedMaps(h, r1, r2)
  }

  ghost predicate Comparable(h: Heap, rank: seq<nat>, r1: Ref, r2: Ref, visited: Visited)
    reads visited
  {
    && WellFormed(h) && Guarded(h, rank)
    && r1 < |h| && r2 < |h| && h[r1].typ == h[r2].typ
    && Covers(h, visited.universe) && visited.seen <= visited.universe
  }

  lemma FuelFalls(universe: set<Visit>, s: set<Visit>, t: set<Visit>)
    requires s <= t <= universe
    ensures |universe - t| <= |universe - s|
    ensures s != t ==> |universe - t| < |universe - s|
  {
    SubsetCardinality(universe - t, universe - s);
    if s != t {
      var v :| v in t && v !in s;
      assert v in universe - s && v !in universe - t;
    }
  }

  /** Comparing a value reached one way with a value reached another way: only one of
      them has an address. */
  ghost predicate Unsynced(h: Heap, o1: Option<Ref>, o2: Option<Ref>) {
    && o1.Some? && o2.Some? && o1.value < |h| && o2.value < |h|
    && h[o1.value].addr.Some? != h[o2.value].addr.Some?
  }

  ghost function Phase(h: Heap, o1: Option<Ref>, o2: Option<Ref>): nat {
    if Unsynced(h, o1, o2) then 1 else 0
  }

  /** The rank of the value without address, if the two values differ in that. */
  ghost function Height(h: Heap, rank: seq<nat>, o1: Option<Ref>, o2: Option<Ref>): nat {
    if !(o1.Some? && o2.Some? && o1.value < |h| && o2.value < |h| && |rank| == |h|) then 0
    else if h[o1.value].addr.Some? && h[o2.value].addr.None? then rank[o2.value]
    else rank[o1.value]
  }

  ghost predicate InHeap(h: Heap, o: Option<Ref>) {
    o.Some? ==> o.value < |h|
  }

  /** Going down to a pair of components either follows a recorded visit or gets lower. */
  lemma ComponentsAreLower(h: Heap, rank: seq<nat>, r1: Ref, r2: Ref, c1: Ref, c2: Ref)
    requires WellFormed(h) && Guarded(h, rank) && r1 < |h| && r2 < |h| && h[r1].typ == h[r2].typ
    requires c1 in Children(h[r1].shape) && c2 in Children(h[r2].shape)
    ensures c1 < |h| && c2 < |h|
    ensures Unsynced(h, Some(c1), Some(c2)) ==> Unsynced(h, Some(r1), Some(r2))
    ensures !Recorded(h, r1, r2) && (Unsynced(h, Some(r1), Some(r2)) == Unsynced(h, Some(c1), Some(c2))) ==>
              Height(h, rank, Some(c1), Some(c2)) < Height(h, rank, Some(r1), Some(r2))
  {
    ChildInHeap(h, r1, c1);
    ChildInHeap(h, r2, c2);
    assert CoherentAt(h, r1, r2);
    assert GuardedAt(h, rank, r1) && GuardedAt(h, rank, r2);
  }

  method DeepValueEqual(h: Heap, o1: Option<Ref>, o2: Option<Ref>, access: Access, visited: Visited,
                        ghost rank: seq<nat>)
    returns (verdict: Verdict)
    requires WellFormed(h) && Guarded(h, rank) && InHeap(h, o1) && InHeap(h, o2)
    requires Covers(h, visited.universe) && visited.seen <= visited.universe
    modifies visited
    ensures old(visited.seen) <= visited.seen <= visited.universe
    ensures verdict.Same? ==> o1.Some? == o2.Some?
    ensures verdict.Same? && o1.Some? && SelfEqual(h, o1.value) ==>
            Justified(h, {(o1.value, o2.value)}, old(visited.seen), visited.seen)
    ensures verdict.Different? && o1.Some? && o2.Some? ==> Distinguishable(h, o1.value, o2.value)
    ensures verdict.Different? ==> o1.Some? || o2.Some?
    ensures o1.Some? && o2.Some? && SharedStorage(h, o1.value, o2.value) ==> verdict.Same?
    ensures Readable(h) && access.Exported? ==> !verdict.Panic?
    decreases visited.Fuel(), Phase(h, o1, o2), Height(h, rank, o1, o2), 3
  {
    if o1.None? || o2.None? {
      verdict := if o1 == o2 then Same else Different;
      return;
    }
    var r1, r2 := o1.value, o2.value;
    if h[r1].typ != h[r2].typ {
      assert !Agree(h, r1, r2, 1);
      return Different;
    }
    ghost var start := visited.seen;
    if Recorded(h, r1, r2) {
      var visit := VisitOf(h[r1].addr.value, h[r2].addr.value, h[r1].typ);
      if visit in visited.seen {
        RememberedIsJustified(h, r1, r2, visited.seen);
        return Same;
      }
      FuelFalls(visited.universe, visited.seen, visited.seen + {visit});
      visited.seen := visited.seen + {visit};
    }
    verdict := ContentsEqual(h, r1, r2, access, visited, rank, start);
  }

  /** The switch on the kind of the two values, once their visit is remembered. */
  method ContentsEqual(h: Heap, r1: Ref, r2: Ref, access: Access, visited: Visited, ghost rank: seq<nat>,
                       ghost before: set<Visit>)
    returns (verdict: Verdict)
    requires Comparable(h, rank, r1, r2, visited)
    requires visited.seen == Remember(h, r1, r2, before)
    modifies visited
    ensures old(visited.seen) <= visited.seen <= visited.universe
    ensures verdict.Same? && SelfEqual(h, r1) ==> Justified(h, {(r1, r2)}, before, visited.seen)
    ensures verdict.Different? ==> Distinguishable(h, r1, r2)
    ensures SharedStorage(h, r1, r2) ==> verdict.Same?
    ensures Readable(h) && access.Exported? ==> !verdict.Panic?
    decreases visited.Fuel() + (if Recorded(h, r1, r2) then 1 else 0), Phase(h, Some(r1), Some(r2)),
        Height(h, rank, Some(r1), Some(r2)), 2
  {
    assert CoherentAt(h, r1, r2);
    assert Readable(h) ==> ReadableAt(h, r1);
    ghost var start := visited.seen;
    NothingJustified(h, start);
    match h[r1].shape {
    case Slice(pointer, elements) =>
      if |elements| != |h[r2].shape.elements| {
        assert !Agree(h, r1, r2, 1);
        return Different;
      }
      if pointer == h[r2].shape.pointer {
        SharedStorageIsSame(h, r1, r2, before, start);
        return Same;
      }
      verdict := ElementsEqual(h, r1, r2, access, visited, rank);
    case Interface(content) =>
      var content' := h[r2].shape.content;
      if content.None? || content'.None? {
        verdict := if content == content' then Same else Different;
      } else {
        verdict := ComponentEqual(h, r1, r2, content.value, content'.value, ElementAccess(access), visited, rank,
                                  {}, start);
      }
    case Pointer(target) =>
      var target' := h[r2].shape.target;
      if target.None? || target'.None? { // Elem of a nil pointer is not valid
        verdict := if target == target' then Same else Different;
      } else {
        verdict := ComponentEqual(h, r1, r2, target.value, target'.value, access, visited, rank, {}, start);
      }
    case Instant(at) =>
      verdict := if !access.Exported? then Panic else if at == h[r2].shape.at then Same else Different;
    case Struct(_) =>
      verdict := FieldsEqual(h, r1, r2, access, visited, rank);
    case Map(pointer, isNil, entries) =>
      if isNil != h[r2].shape.isNil || |entries| != |h[r2].shape.entries| {
        assert !Agree(h, r1, r2, 1);
        return Different;
      }
      if pointer == h[r2].shape.pointer {
        SharedStorageIsSame(h, r1, r2, before, start);
        return Same;
      }
      verdict := EntriesEqual(h, r1, r2, access, visited, rank);
    case Func(isNil) =>
      verdict := if isNil && h[r2].shape.isNil then Same else Different;
    case Basic(leaf) =>
      verdict := LeavesEqual(leaf, h[r2].shape.leaf, access);
    case Array(leaf) =>
      verdict := LeavesEqual(leaf, h[r2].shape.leaf, access);
    }

    if !LocalMatch(h[r1], h[r2]) {
      assert !Agree(h, r1, r2, 1);
    }
    if verdict.Same? && SelfEqual(h, r1) {
      assert {} + ChildPairs(h[r1].shape, h[r2].shape) == ChildPairs(h[r1].shape, h[r2].shape);
      ComponentsJustify(h, r1, r2, before, start, visited.seen);
    }
  }

  /** Interface() on both sides, then Go's own equality. */
  function LeavesEqual(l1: Leaf, l2: Leaf, access: Access): Verdict {
    if !access.Exported? || !l1.comparable then Panic
    else if l1 == l2 && l1.selfEqual then Same
    else Different
  }

  lemma SharedStorageIsSame(h: Heap, r1: Ref, r2: Ref, before: set<Visit>, after: set<Visit>)
    requires WellFormed(h) && r1 < |h| && r2 < |h| && h[r1].typ == h[r2].typ && SameContents(h[r1].shape, h[r2].shape)
    requires after == Remember(h, r1, r2, before)
    ensures SelfEqual(h, r1) ==> Justified(h, {(r1, r2)}, before, after)
  {
    if SelfEqual(h, r1) {
      assert CoherentAt(h, r1, r2);
      forall n: nat ensures Agree(h, r1, r2, n) {
        SameContentsAgree(h, r1, r2, n);
      }
      forall n: nat ensures AllAgree(h, after - before, n) {
        assert Agree(h, r1, r2, 1);
        VisitJustified(h, r1, r2, before, after, after, n);
      }
    }
  }

  /** One pair of components of `r1` and `r2`, on top of the components already compared. */
  method ComponentEqual(h: Heap, r1: Ref, r2: Ref, c1: Ref, c2: Ref, access: Access, visited: Visited,
                        ghost rank: seq<nat>, ghost done: set<(Ref, Ref)>, ghost start: set<Visit>)
    returns (verdict: Verdict)
    requires Comparable(h, rank, r1, r2, visited)
    requires (c1, c2) in ChildPairs(h[r1].shape, h[r2].shape)
    requires start <= visited.seen
    requires SelfEqual(h, r1) ==> Justified(h, done, start, visited.seen)
    modifies visited
    ensures old(visited.seen) <= visited.seen <= visited.universe
    ensures verdict.Same? && SelfEqual(h, r1) ==> Justified(h, done + {(c1, c2)}, start, visited.seen)
    ensures verdict.Different? ==> Distinguishable(h, r1, r2)
    ensures Readable(h) && access.Exported? ==> !verdict.Panic?
    decreases visited.Fuel() + (if Recorded(h, r1, r2) then 1 else 0), Phase(h, Some(r1), Some(r2)),
        Height(h, rank, Some(r1), Some(r2)), 0
  {
    ChildPairsInHeap(h, r1, r2, (c1, c2));
    ComponentsAreLower(h, rank, r1, r2, c1, c2);
    ghost var before := visited.seen;
    verdict := DeepValueEqual(h, Some(c1), Some(c2), access, visited, rank);
    if verdict.Same? && SelfEqual(h, r1) {
      ComponentIsSelfEqual(h, r1, c1);
      JustifiedJoin(h, done, {(c1, c2)}, start, before, visited.seen);
    }
    if verdict.Different? {
      ComponentDiffers(h, r1, r2, (c1, c2));
    }
  }

  lemma ComponentDiffers(h: Heap, r1: Ref, r2: Ref, p: (Ref, Ref))
    requires r1 < |h| && r2 < |h| && p in ChildPairs(h[r1].shape, h[r2].shape)
    requires Distinguishable(h, p.0, p.1)
    ensures Distinguishable(h, r1, r2)
  {
    var n: nat :| !Agree(h, p.0, p.1, n);
    assert !Agree(h, r1, r2, n + 1);
  }

  method ElementsEqual(h: Heap, r1: Ref, r2: Ref, access: Access, visited: Visited,
                       ghost rank: seq<nat>) returns (verdict: Verdict)
    requires Comparable(h, rank, r1, r2, visited)
    requires h[r1].shape.Slice? && h[r2].shape.Slice? && |h[r1].shape.elements| == |h[r2].shape.elements|
    modifies visited
    ensures old(visited.seen) <= visited.seen <= visited.universe
    ensures verdict.Same? && SelfEqual(h, r1) ==>
              Justified(h, ChildPairs(h[r1].shape, h[r2].shape), old(visited.seen), visited.seen)
    ensures verdict.Different? ==> Distinguishable(h, r1, r2)
    ensures Readable(h) && access.Exported? ==> !verdict.Panic?
    decreases visited.Fuel() + (if Recorded(h, r1, r2) then 1 else 0), Phase(h, Some(r1), Some(r2)),
        Height(h, rank, Some(r1), Some(r2)), 1
  {
    var e1, e2 := h[r1].shape.elements, h[r2].shape.elements;
    NothingJustified(h, visited.seen);
    for i := 0 to |e1|
      invariant old(visited.seen) <= visited.seen <= visited.universe
      invariant SelfEqual(h, r1) ==> Justified(h, Zip(e1[..i], e2[..i]), old(visited.seen), visited.seen)
    {
      FuelFalls(visited.universe, old(visited.seen), visited.seen);
      verdict := ComponentEqual(h, r1, r2, e1[i], e2[i], ElementAccess(access), visited, rank, Zip(e1[..i], e2[..i]),
                                old(visited.seen));
      if !verdict.Same? {
        return;
      }
      ZipExtends(e1, e2, i);
    }
    assert e1[..|e1|] == e1 && e2[..|e1|] == e2;
    verdict := Same;
  }

  lemma FieldsAreReadable(h: Heap, r: Ref, i: nat, access: Access)
    requires r < |h| && h[r].shape.Struct? && i < |h[r].shape.fields|
    ensures Readable(h) && access.Exported? ==> FieldAccess(access, h[r].shape.fields[i]).Exported?
  {
    assert ReadableAt(h, r) ==> h[r].shape.fields[i] in h[r].shape.fields;
  }

  method FieldsEqual(h: Heap, r1: Ref, r2: Ref, access: Access, visited: Visited,
                     ghost rank: seq<nat>) returns (verdict: Verdict)
    requires Comparable(h, rank, r1, r2, visited)
    requires h[r1].shape.Struct? && h[r2].shape.Struct? && |h[r1].shape.fields| == |h[r2].shape.fields|
    modifies visited
    ensures old(visited.seen) <= visited.seen <= visited.universe
    ensures verdict.Same? && SelfEqual(h, r1) ==>
              Justified(h, ChildPairs(h[r1].shape, h[r2].shape), old(visited.seen), visited.seen)
    ensures verdict.Different? ==> Distinguishable(h, r1, r2)
    ensures Readable(h) && access.Exported? ==> !verdict.Panic?
    decreases visited.Fuel() + (if Recorded(h, r1, r2) then 1 else 0), Phase(h, Some(r1), Some(r2)),
        Height(h, rank, Some(r1), Some(r2)), 1
  {
    var f1 := h[r1].shape.fields;
    var e1, e2 := Values(f1), Values(h[r2].shape.fields);
    NothingJustified(h, visited.seen);
    for i := 0 to |f1|
      invariant old(visited.seen) <= visited.seen <= visited.universe
      invariant SelfEqual(h, r1) ==> Justified(h, Zip(e1[..i], e2[..i]), old(visited.seen), visited.seen)
    {
      FuelFalls(visited.universe, old(visited.seen), visited.seen);
      FieldsAreReadable(h, r1, i, access);
      verdict := ComponentEqual(h, r1, r2, e1[i], e2[i], FieldAccess(access, f1[i]), visited, rank,
                                Zip(e1[..i], e2[..i]), old(visited.seen));
      if !verdict.Same? {
        return;
      }
      ZipExtends(e1, e2, i);
    }
    assert e1[..|f1|] == e1 && e2[..|f1|] == e2;
    verdict := Same;
  }

  method EntriesEqual(h: Heap, r1: Ref, r2: Ref, access: Access, visited: Visited,
                      ghost rank: seq<nat>) returns (verdict: Verdict)
    requires Comparable(h, rank, r1, r2, visited)
    requires h[r1].shape.Map? && h[r2].shape.Map? && h[r1].shape.isNil == h[r2].shape.isNil
    requires |h[r1].shape.entries| == |h[r2].shape.entries|
    modifies visited
    ensures old(visited.seen) <= visited.seen <= visited.universe
    ensures verdict.Same? ==> h[r1].shape.entries.Keys == h[r2].shape.entries.Keys
    ensures verdict.Same? && SelfEqual(h, r1) ==>
              Justified(h, ChildPairs(h[r1].shape, h[r2].shape), old(visited.seen), visited.seen)
    ensures verdict.Different? ==> Distinguishable(h, r1, r2)
    ensures Readable(h) && access.Exported? ==> !verdict.Panic?
    decreases visited.Fuel() + (if Recorded(h, r1, r2) then 1 else 0), Phase(h, Some(r1), Some(r2)),
        Height(h, rank, Some(r1), Some(r2)), 1
  {
    var m1, m2 := h[r1].shape.entries, h[r2].shape.entries;
    var keys := Enumerate(m1.Keys);
    ghost var done: seq<int> := [];
    NothingJustified(h, visited.seen);
    for i := 0 to |keys|
      invariant old(visited.seen) <= visited.seen <= visited.universe
      invariant done == keys[..i]
      invariant forall k :: k in done ==> k in m1 && k in m2
      invariant SelfEqual(h, r1) ==> Justified(h, EntryPairs(m1, m2, done), old(visited.seen), visited.seen)
    {
      var key := keys[i];
      if key !in m2 {
        MissingKey(h, r1, r2, key);
        return Different;
      }
      FuelFalls(visited.universe, old(visited.seen), visited.seen);
      verdict := ComponentEqual(h, r1, r2, m1[key], m2[key], ElementAccess(access), visited, rank,
                                EntryPairs(m1, m2, done), old(visited.seen));
      if !verdict.Same? {
        return;
      }
      EntryPairsExtend(m1, m2, done, key);
      done := done + [key];
    }
    SameKeys(m1, m2, keys);
    AllEntryPairs(m1, m2, keys);
    verdict := Same;
  }

  lemma MissingKey(h: Heap, r1: Ref, r2: Ref, key: int)
    requires r1 < |h| && r2 < |h| && h[r1].shape.Map? && h[r2].shape.Map?
    requires key in h[r1].shape.entries && key !in h[r2].shape.entries
    ensures Distinguishable(h, r1, r2)
  {
    assert key in h[r1].shape.entries.Keys;
    assert !Agree(h, r1, r2, 1);
  }

  ghost function EntryPairs(m1: map<int, Ref>, m2: map<int, Ref>, keys: seq<int>): set<(Ref, Ref)> {
    set k | k in keys && k in m1 && k in m2 :: (m1[k], m2[k])
  }

  lemma EntryPairsExtend(m1: map<int, Ref>, m2: map<int, Ref>, keys: seq<int>, key: int)
    requires key in m1 && key in m2
    ensures EntryPairs(m1, m2, keys + [key]) == EntryPairs(m1, m2, keys) + {(m1[key], m2[key])}
  {
    assert key in keys + [key];
    forall p | p in EntryPairs(m1, m2, keys) ensures p in EntryPairs(m1, m2, keys + [key]) {
      var k :| k in keys && k in m1 && k in m2 && p == (m1[k], m2[k]);
      assert k in keys + [key];
    }
  }

  lemma AllEntryPairs(m1: map<int, Ref>, m2: map<int, Ref>, keys: seq<int>)
    requires Lists(keys, m1.Keys)
    ensures EntryPairs(m1, m2, keys) == set k | k in m1 && k in m2 :: (m1[k], m2[k])
  {
    forall k | k in m1 ensures k in keys {
      assert k in m1.Keys;
    }
  }

  /** Maps of one size, every key of one being a key of the other, have the same keys. */
  lemma SameKeys(m1: map<int, Ref>, m2: map<int, Ref>, keys: seq<int>)
    requires |m1| == |m2| && Lists(keys, m1.Keys) && forall k :: k in keys ==> k in m2
    ensures m1.Keys == m2.Keys
  {
    forall k | k in m1.Keys ensures k in m2.Keys {
      assert k in keys;
    }
    assert m1.Keys <= m2.Keys;
    assert |m1.Keys| == |m1| && |m2.Keys| == |m2|;
    SubsetCardinality(m1.Keys, m2.Keys);
  }

  lemma ZipExtends(a: seq<Ref>, b: seq<Ref>, n: nat)
    requires n < |a| && n < |b|
    ensures Zip(a[..n + 1], b[..n + 1]) == Zip(a[..n], b[..n]) + {(a[n], b[n])}
  {
    var longer, shorter := Zip(a[..n + 1], b[..n + 1]), Zip(a[..n], b[..n]);
    assert (a[..n + 1][n], b[..n + 1][n]) in longer;
    forall p | p in shorter ensures p in longer {
      var i :| 0 <= i < n && p == (a[..n][i], b[..n][i]);
      assert p == (a[..n + 1][i], b[..n + 1][i]);
    }
    forall p | p in longer && p != (a[n], b[n]) ensures p in shorter {
      var i :| 0 <= i < n + 1 && p == (a[..n + 1][i], b[..n + 1][i]);
      assert p == (a[..n][i], b[..n][i]);
    }
  }

  // ---------------------------------------------------------------- results

  ghost function Universe(h: Heap): (universe: set<Visit>)
    ensures Covers(h, universe)
  {
    set i, j | 0 <= i < |h| && 0 <= j < |h| && h[i].addr.Some? && h[j].addr.Some?
      :: VisitOf(h[i].addr.value, h[j].addr.value, h[i].typ)
  }

  /** One comparison from an empty visited map: it returns on every guarded heap, never says
      "different" without a reason, and its "same" is right, at every depth, exactly if the
      value reaches no NaN and no function value. */
  method CompareValues(h: Heap, r1: Ref, r2: Ref, access: Access, ghost rank: seq<nat>) returns (verdict: Verdict)
    requires WellFormed(h) && Guarded(h, rank) && r1 < |h| && r2 < |h|
    ensures verdict.Same? ==> (Indistinguishable(h, r1, r2) <==> SelfEqual(h, r1))
    ensures verdict.Different? ==> !Indistinguishable(h, r1, r2)
    ensures Readable(h) && access.Exported? ==> !verdict.Panic?
    ensures SharedStorage(h, r1, r2) ==> verdict.Same?
  {
    var visited := new Visited(Universe(h));
    verdict := DeepValueEqual(h, Some(r1), Some(r2), access, visited, rank);
    if verdict.Same? {
      JustifiedIsRightIff(h, r1, r2, visited.seen);
    }
  }

  lemma JustifiedIsRightIff(h: Heap, r1: Ref, r2: Ref, seen: set<Visit>)
    requires SelfEqual(h, r1) ==> Justified(h, {(r1, r2)}, {}, seen)
    ensures Indistinguishable(h, r1, r2) <==> SelfEqual(h, r1)
  {
    if SelfEqual(h, r1) {
      forall n: nat ensures Agree(h, r1, r2, n) {
        RememberedPairsAgree(h, {(r1, r2)}, seen, n);
        assert (r1, r2) in {(r1, r2)};
      }
    }
    if Indistinguishable(h, r1, r2) {
      IndistinguishableIsSelfEqual(h, r1, r2);
    }
  }

  /** Two slices over one backing array whose only element is NaN. */
  function SharedNaN(): Heap {
    [Node(0, None, Slice(7, [2])), Node(0, None, Slice(7, [2])), Node(1, Some(7), Basic(Leaf(0, false, true)))]
  }

  /** The shortcut on shared storage is wrong about NaN: CompareValues answers "same" for
      the two slices of this heap, although their only element differs from itself. */
  lemma SharedNaNIsMistaken()
    ensures WellFormed(SharedNaN()) && Guarded(SharedNaN(), [1, 1, 0])
    ensures SharedSlices(SharedNaN(), 0, 1) && !SelfEqual(SharedNaN(), 0)
    ensures !Indistinguishable(SharedNaN(), 0, 1)
  {
    var h := SharedNaN();
    assert Children(h[0].shape) == {2} && Children(h[1].shape) == {2} && Children(h[2].shape) == {};
    assert h[0].shape.elements == h[1].shape.elements;
    assert CoherentAt(h, 0, 1) && CoherentAt(h, 2, 2);
    assert !SelfEqualAt(h, 2) && Reaches(h, 2, 2, 0) && Reaches(h, 0, 2, 1);
    SharedStorageIsRightIff(h, 0, 1);
  }

  datatype DiffResult =
    | Diff(diffMap: map<string, Ref>, equal: bool)
    | Error(message: string)
    | Panics

  function HandlePtr(h: Heap, r: Ref): Option<Ref>
    requires r < |h|
  {
    if h[r].shape.Pointer? then h[r].shape.target else Some(r)
  }

  /** A field takes part in the comparison when it is exported and not tagged diffignore. */
  predicate Compared(field: Field) {
    field.exported && !field.diffIgnore
  }

  ghost predicate DistinctNames(fields: seq<Field>) {
    forall i, j :: 0 <= i < j < |fields| ==> fields[i].name != fields[j].name
  }

  /** A field is named only if its values differ at some depth, with the value it has in the
      second struct; that a compared field is not named is right exactly if it reaches no NaN. */
  ghost predicate Judged(h: Heap, f1: Field, f2: Field, diffMap: map<string, Ref>) {
    && (f1.name in diffMap ==>
          f1.exported && !f1.diffIgnore && !Indistinguishable(h, f1.value, f2.value) && diffMap[f1.name] == f2.value)
    && (f1.name !in diffMap && f1.exported && !f1.diffIgnore ==>
          (Indistinguishable(h, f1.value, f2.value) <==> SelfEqual(h, f1.value)))
  }

  /** `diffMap` judges the first `n` fields, and names no other. */
  ghost predicate DiffsOf(h: Heap, f1: seq<Field>, f2: seq<Field>, n: nat, diffMap: map<string, Ref>)
    requires n <= |f1| == |f2|
  {
    && (forall i :: 0 <= i < n ==> Judged(h, f1[i], f2[i], diffMap))
    && (forall name :: name in diffMap ==> exists i :: 0 <= i < n && f1[i].name == name)
  }

  /** What the value is, or what it points to. */
  ghost function Pointed(h: Heap, r: Ref): Option<Ref>
    requires r < |h|
  {
    match h[r].shape
    case Pointer(target) => target
    case _ => Some(r)
  }

  /** The two values are given, are not nil pointers, and point to values of these nodes. */
  ghost predicate Given(h: Heap, x: Option<Ref>, y: Option<Ref>) {
    && x.Some? && y.Some? && x.value < |h| && y.value < |h|
    && Pointed(h, x.value).Some? && Pointed(h, y.value).Some?
    && Pointed(h, x.value).value < |h| && Pointed(h, y.value).value < |h|
  }

  ghost predicate SameType(h: Heap, x: Option<Ref>, y: Option<Ref>)
    requires Given(h, x, y)
  {
    h[Pointed(h, x.value).value].typ == h[Pointed(h, y.value).value].typ
  }

  /** Nil is an error, and so are values of two types; structs of one type are compared, and
      only a nil pointer, a value that is no struct, or one that cannot be read, panics. */
  method Equal(h: Heap, x: Option<Ref>, y: Option<Ref>, ghost rank: seq<nat>) returns (result: DiffResult)
    requires WellFormed(h) && Guarded(h, rank)
    requires x.Some? ==> x.value < |h|
    requires y.Some? ==> y.value < |h|
    requires forall r :: 0 <= r < |h| && h[r].shape.Struct? ==> DistinctNames(h[r].shape.fields)
    ensures result.Error? <==> x.None? || y.None? || (Given(h, x, y) && !SameType(h, x, y))
    ensures result.Diff? ==> Given(h, x, y) && SameType(h, x, y) && (result.equal <==> result.diffMap == map[])
    ensures Given(h, x, y) && SameType(h, x, y) ==>
              var v1, v2 := Pointed(h, x.value).value, Pointed(h, y.value).value;
              && (h[v1].shape.Struct? && h[v2].shape.Struct? ==>
                    && |h[v1].shape.fields| == |h[v2].shape.fields|
                    && (result.Diff? ==>
                          DiffsOf(h, h[v1].shape.fields, h[v2].shape.fields, |h[v1].shape.fields|, result.diffMap))
                    && (Readable(h) ==> result.Diff?))
              && (h[v1].shape.Instant? ==> result == Diff(map[], true))
  {
    if x.None? || y.None? {
      return Error("use of Equal with nil value");
    }
    var o1, o2 := HandlePtr(h, x.value), HandlePtr(h, y.value);
    if o1.None? || o2.None? {
      return Panics; // Type of the element of a nil pointer
    }
    var v1, v2 := o1.value, o2.value;
    assert ChildrenInHeap(h, x.value) && ChildrenInHeap(h, y.value);
    assert Given(h, x, y) && CoherentAt(h, v1, v2);
    if h[v1].typ != h[v2].typ {
      return Error("use of Equal with different type values");
    }
    if h[v1].shape.Instant? {
      return Diff(map[], true); // time.Time has no exported field
    }
    if !h[v1].shape.Struct? {
      return Panics; // NumField of a value that is not a struct
    }
    result := DifferingFields(h, v1, v2, rank);
  }

  /** The loop over the fields of the two structs. */
  method DifferingFields(h: Heap, v1: Ref, v2: Ref, ghost rank: seq<nat>) returns (result: DiffResult)
    requires WellFormed(h) && Guarded(h, rank) && v1 < |h| && v2 < |h| && h[v1].typ == h[v2].typ
    requires h[v1].shape.Struct? && h[v2].shape.Struct? && |h[v1].shape.fields| == |h[v2].shape.fields|
    requires DistinctNames(h[v1].shape.fields)
    ensures !result.Error? && (Readable(h) ==> result.Diff?)
    ensures result.Diff? ==> (result.equal <==> result.diffMap == map[])
    ensures result.Diff? ==> DiffsOf(h, h[v1].shape.fields, h[v2].shape.fields, |h[v1].shape.fields|, result.diffMap)
  {
    var f1, f2 := h[v1].shape.fields, h[v2].shape.fields;
    var diffMap: map<string, Ref> := map[];
    var equal := true;
    for i := 0 to |f1|
      invariant equal <==> diffMap == map[]
      invariant DiffsOf(h, f1, f2, i, diffMap)
    {
      ghost var before := diffMap;
      if Compared(f1[i]) {
        FieldsInHeap(h, v1, i);
        FieldsInHeap(h, v2, i);
        var verdict := CompareValues(h, f1[i].value, f2[i].value, Exported, rank);
        if verdict.Panic? {
          return Panics;
        }
        if verdict.Different? {
          diffMap := diffMap[f1[i].name := f2[i].value];
          assert f1[i].name in diffMap;
          equal := false;
        }
      }
      DiffsExtend(h, f1, f2, i, before, diffMap);
    }
    result := Diff(diffMap, equal);
  }

  lemma DiffsExtend(h: Heap, f1: seq<Field>, f2: seq<Field>, n: nat, before: map<string, Ref>, after: map<string, Ref>)
    requires n < |f1| == |f2| && DistinctNames(f1) && DiffsOf(h, f1, f2, n, before)
    requires after == before || after == before[f1[n].name := f2[n].value]
    requires f1[n].name in after ==> Compared(f1[n]) && !Indistinguishable(h, f1[n].value, f2[n].value)
    requires f1[n].name !in after && Compared(f1[n]) ==>
               (Indistinguishable(h, f1[n].value, f2[n].value) <==> SelfEqual(h, f1[n].value))
    ensures DiffsOf(h, f1, f2, n + 1, after)
  {
    assert f1[n].name !in before;
    forall i | 0 <= i < n + 1 ensures Judged(h, f1[i], f2[i], after) {
      assert i < n ==> Judged(h, f1[i], f2[i], before) && f1[i].name != f1[n].name;
    }
  }

  lemma FieldsInHeap(h: Heap, r: Ref, i: nat)
    requires WellFormed(h) && r < |h| && h[r].shape.Struct? && i < |h[r].shape.fields|
    ensures h[r].shape.fields[i].value < |h|
  {
    assert Values(h[r].shape.fields)[i] in Children(h[r].shape);
    ChildInHeap(h, r, h[r].shape.fields[i].value);
  }
}
