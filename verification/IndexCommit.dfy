/** What a commit of pending changes does to the index from external identifiers
    (model/transactional_stop_visits.go:181-189, model/transactional_stop_areas.go): it
    deletes some models and then indexes others, both in the arbitrary order of a Go map. */
module IndexCommit {
  import opened Common
  import opened ObjectIdIndex

  function DeletedAll(t: Table, models: seq<ModelId>): Table {
    if models == [] then t else Deleted(DeletedAll(t, models[..|models| - 1]), models[|models| - 1])
  }

  function IndexedAll(t: Table, models: seq<ModelId>, saved: map<ModelId, ObjectIds>): Table
    requires forall m :: m in models ==> m in saved
  {
    if models == [] then t
    else
      var m := models[|models| - 1];
      Indexed(IndexedAll(t, models[..|models| - 1], saved), m, saved[m])
  }

  ghost predicate IndexesTo(t: Table, saved: map<ModelId, ObjectIds>, after: Table) {
    exists models :: Lists(models, saved.Keys) && after == IndexedAll(t, models, saved)
  }

  ghost predicate DeletesTo(t: Table, deleted: set<ModelId>, after: Table) {
    exists models :: Lists(models, deleted) && after == DeletedAll(t, models)
  }

  /** One of the tables that a commit can leave, depending on the two orders. */
  ghost predicate CommitsTo(t: Table, saved: map<ModelId, ObjectIds>, deleted: set<ModelId>, after: Table) {
    exists between :: DeletesTo(t, deleted, between) && IndexesTo(between, saved, after)
  }

  ghost predicate SameLookups(a: Table, b: Table) {
    forall o :: Lookup(a, o) == Lookup(b, o)
  }

  /** The model is remembered with the identifier when the saved models get indexed. */
  predicate Recalls(t: Table, deleted: set<ModelId>, m: ModelId, o: ObjectId) {
    m !in deleted && Remembers(t, m, o)
  }

  /** No identifier of a saved model belongs to another one, or is remembered from before by another one. */
  ghost predicate Uncontested(t: Table, saved: map<ModelId, ObjectIds>, deleted: set<ModelId>) {
    forall m, m', o :: m in saved && m' in saved && m != m' && Has(saved[m], o) ==>
                         !Has(saved[m'], o) && !Recalls(t, deleted, m', o)
  }

  /** Some of these models is remembered with the identifier. */
  ghost predicate Erased(t: Table, models: seq<ModelId>, o: ObjectId) {
    exists m :: m in models && Remembers(t, m, o)
  }

  /** What the second loop of a commit has done after `n` of the saved models. */
  ghost predicate IndexedUpTo(t: Table, saved: map<ModelId, ObjectIds>, models: seq<ModelId>, n: nat, after: Table) {
    && n <= |models| && Lists(models, saved.Keys)
    && (forall m :: m in models[..n] ==> m in saved)
    && after == IndexedAll(t, models[..n], saved)
  }

  lemma OneMoreIndexed(t: Table, saved: map<ModelId, ObjectIds>, models: seq<ModelId>, n: nat, after: Table)
    requires IndexedUpTo(t, saved, models, n, after) && n < |models|
    ensures models[n] in saved
    ensures IndexedUpTo(t, saved, models, n + 1, Indexed(after, models[n], saved[models[n]]))
  {
    assert models[n] in saved.Keys;
    assert models[..n + 1] == models[..n] + [models[n]] && models[..n + 1][..n] == models[..n];
  }

  lemma AllIndexed(t: Table, saved: map<ModelId, ObjectIds>, models: seq<ModelId>, after: Table)
    requires IndexedUpTo(t, saved, models, |models|, after)
    ensures IndexesTo(t, saved, after)
  {
    assert models[..|models|] == models;
  }

  // ---------------------------------------------------------------- what the orders leave

  lemma {:induction false} DeletedAllAnswers(t: Table, models: seq<ModelId>, o: ObjectId)
    ensures Lookup(DeletedAll(t, models), o) == if Erased(t, models, o) then None else Lookup(t, o)
    ensures forall m :: Remembers(DeletedAll(t, models), m, o) <==> m !in models && Remembers(t, m, o)
    ensures forall m :: m in models ==> Remembered(DeletedAll(t, models), m) == map[]
    ensures forall m :: m !in models ==> Remembered(DeletedAll(t, models), m) == Remembered(t, m)
  {
    if models != [] {
      var rest, last := models[..|models| - 1], models[|models| - 1];
      DeletedAllAnswers(t, rest, o);
      assert models == rest + [last];
      SetHas(Remembered(DeletedAll(t, rest), last), o);
      RemembersHas(DeletedAll(t, rest), last, o);
      assert Erased(t, models, o) <==> Erased(t, rest, o) || Remembers(t, last, o);
    }
  }

  lemma {:induction false} IndexedAllRemembers(t: Table, models: seq<ModelId>, saved: map<ModelId, ObjectIds>,
                                               m: ModelId)
    requires forall x :: x in models ==> x in saved
    ensures Remembered(IndexedAll(t, models, saved), m) ==
            if m in models then Remembered(t, m) + saved[m] else Remembered(t, m)
  {
    if models != [] {
      var rest, last := models[..|models| - 1], models[|models| - 1];
      assert models == rest + [last];
      IndexedAllRemembers(t, rest, saved, m);
    }
  }

  /** Without contested identifiers the order in which models are indexed does not matter. */
  lemma {:induction false} IndexedAllAnswers(t: Table, models: seq<ModelId>, saved: map<ModelId, ObjectIds>,
                                             o: ObjectId)
    requires NoDuplicates(models) && forall m :: m in models ==> m in saved
    requires Uncontested(t, saved, {})
    ensures forall m :: m in models && Has(saved[m], o) ==> Lookup(IndexedAll(t, models, saved), o) == Some(m)
    ensures (forall m :: m in models ==> !Has(saved[m], o)) ==>
              Lookup(IndexedAll(t, models, saved), o) == if Erased(t, models, o) then None else Lookup(t, o)
  {
    if models != [] {
      var rest, last := models[..|models| - 1], models[|models| - 1];
      assert models == rest + [last];
      var before := IndexedAll(t, rest, saved);
      IndexedAllAnswers(t, rest, saved, o);
      IndexedAllRemembers(t, rest, saved, last);
      LookupIndexed(before, last, saved[last], o);
      RemembersHas(t, last, o);
      assert Recalls(t, {}, last, o) == Remembers(t, last, o);
      assert Erased(t, models, o) <==> Erased(t, rest, o) || Remembers(t, last, o);
    }
  }

  /** Without contested identifiers a commit leaves the same answers whatever its orders. */
  lemma CommitAnswers(t: Table, saved: map<ModelId, ObjectIds>, deleted: set<ModelId>, after: Table, o: ObjectId)
    requires CommitsTo(t, saved, deleted, after) && Uncontested(t, saved, deleted)
    ensures forall m :: m in saved && Has(saved[m], o) ==> Lookup(after, o) == Some(m)
    ensures (forall m :: m in saved ==> !Has(saved[m], o)) ==>
              Lookup(after, o) ==
              if exists m :: (m in saved || m in deleted) && Remembers(t, m, o) then None else Lookup(t, o)
  {
    var between :| DeletesTo(t, deleted, between) && IndexesTo(between, saved, after);
    var ds :| Lists(ds, deleted) && between == DeletedAll(t, ds);
    var ss :| Lists(ss, saved.Keys) && after == IndexedAll(between, ss, saved);
    DeletedAllAnswers(t, ds, o);
    UncontestedOnceDeleted(t, saved, deleted, ds);
    IndexedAllAnswers(between, ss, saved, o);
    assert forall m :: m in saved.Keys <==> m in saved;
  }

  lemma UncontestedOnceDeleted(t: Table, saved: map<ModelId, ObjectIds>, deleted: set<ModelId>, ds: seq<ModelId>)
    requires Lists(ds, deleted) && Uncontested(t, saved, deleted)
    ensures Uncontested(DeletedAll(t, ds), saved, {})
  {
    forall m, m', o | m in saved && m' in saved && m != m' && Has(saved[m], o)
      ensures !Has(saved[m'], o) && !Recalls(DeletedAll(t, ds), {}, m', o)
    {
      DeletedAllAnswers(t, ds, o);
      assert !Recalls(t, deleted, m', o);
    }
  }

  /** What a saved or deleted model is remembered with after a commit. */
  lemma CommitRemembers(t: Table, saved: map<ModelId, ObjectIds>, deleted: set<ModelId>, after: Table, m: ModelId)
    requires CommitsTo(t, saved, deleted, after) && (m in saved || m in deleted)
    ensures Remembered(after, m) == (if m in deleted then map[] else Remembered(t, m))
            + if m in saved then saved[m] else map[]
  {
    var between :| DeletesTo(t, deleted, between) && IndexesTo(between, saved, after);
    var ds :| Lists(ds, deleted) && between == DeletedAll(t, ds);
    var ss :| Lists(ss, saved.Keys) && after == IndexedAll(between, ss, saved);
    DeletedAllAnswers(t, ds, ObjectId("", ""));
    assert Remembered(between, m) == if m in deleted then map[] else Remembered(t, m);
    IndexedAllRemembers(between, ss, saved, m);
    assert m in ss <==> m in saved.Keys;
  }

  // ---------------------------------------------------------------- committing twice

  /** A second commit leaves every lookup as it was, whatever the orders of the two commits,
      if and only if no identifier is contested before the first. */
  lemma SecondCommitKeepsLookupsIff(t: Table, saved: map<ModelId, ObjectIds>, deleted: set<ModelId>)
    ensures (forall once, twice :: CommitsTo(t, saved, deleted, once) && CommitsTo(once, saved, deleted, twice) ==>
                                     SameLookups(once, twice))
       <==> Uncontested(t, saved, deleted)
  {
    if Uncontested(t, saved, deleted) {
      forall once, twice | CommitsTo(t, saved, deleted, once) && CommitsTo(once, saved, deleted, twice)
        ensures SameLookups(once, twice)
      {
        UncontestedSettles(t, saved, deleted, once, twice);
      }
    } else {
      var m, m', o :| m in saved && m' in saved && m != m' && Has(saved[m], o)
                      && (Has(saved[m'], o) || Recalls(t, deleted, m', o));
      var once, twice := ContestMoves(t, saved, deleted, m, m', o);
    }
  }

  lemma StaysUncontested(t: Table, saved: map<ModelId, ObjectIds>, deleted: set<ModelId>, once: Table)
    requires Uncontested(t, saved, deleted) && CommitsTo(t, saved, deleted, once)
    ensures Uncontested(once, saved, deleted)
  {
    forall m, m', o | m in saved && m' in saved && m != m' && Has(saved[m], o)
      ensures !Has(saved[m'], o) && !Recalls(once, deleted, m', o)
    {
      if Recalls(once, deleted, m', o) && !Has(saved[m'], o) {
        RemembersFromBefore(t, saved, deleted, once, m', o);
      }
      assert !Recalls(t, deleted, m', o);
    }
  }

  lemma UncontestedSettles(t: Table, saved: map<ModelId, ObjectIds>, deleted: set<ModelId>, once: Table, twice: Table)
    requires Uncontested(t, saved, deleted)
    requires CommitsTo(t, saved, deleted, once) && CommitsTo(once, saved, deleted, twice)
    ensures SameLookups(once, twice)
  {
    StaysUncontested(t, saved, deleted, once);
    forall o ensures Lookup(once, o) == Lookup(twice, o) {
      CommitAnswers(t, saved, deleted, once, o);
      CommitAnswers(once, saved, deleted, twice, o);
      if forall m :: m in saved ==> !Has(saved[m], o) {
        forall m | (m in saved || m in deleted) && Remembers(once, m, o) ensures Remembers(t, m, o) {
          RemembersFromBefore(t, saved, deleted, once, m, o);
        }
      }
    }
  }

  lemma RemembersFromBefore(t: Table, saved: map<ModelId, ObjectIds>, deleted: set<ModelId>, once: Table,
                            m: ModelId, o: ObjectId)
    requires CommitsTo(t, saved, deleted, once) && (m in saved || m in deleted)
    requires Remembers(once, m, o) && (m in saved ==> !Has(saved[m], o))
    ensures m !in deleted && Remembers(t, m, o)
  {
    CommitRemembers(t, saved, deleted, once, m);
    RemembersHas(once, m, o);
    RemembersHas(t, m, o);
  }

  /** A contested identifier of `m` leads to `m` or not, depending on who is indexed last. */
  lemma ContestMoves(t: Table, saved: map<ModelId, ObjectIds>, deleted: set<ModelId>, m: ModelId, m': ModelId,
                     o: ObjectId)
    returns (once: Table, twice: Table)
    requires m in saved && m' in saved && m != m' && Has(saved[m], o)
    requires Has(saved[m'], o) || Recalls(t, deleted, m', o)
    ensures CommitsTo(t, saved, deleted, once) && CommitsTo(once, saved, deleted, twice)
    ensures !SameLookups(once, twice)
  {
    var ds := SomeOrder(deleted);
    var endsWithOther := OrderEndingWith(saved.Keys, m');
    var endsWithM := OrderEndingWith(saved.Keys, m);
    once := CommitInOrder(t, saved, deleted, ds, endsWithOther);
    twice := CommitInOrder(once, saved, deleted, ds, endsWithM);
    DeletedAllAnswers(t, ds, o);
    LastErases(DeletedAll(t, ds), endsWithOther, saved, m, o);
    LastWins(DeletedAll(once, ds), endsWithM, saved, o);
    assert Lookup(once, o) != Lookup(twice, o);
  }

  lemma CommitInOrder(t: Table, saved: map<ModelId, ObjectIds>, deleted: set<ModelId>, ds: seq<ModelId>,
                      ss: seq<ModelId>)
    returns (after: Table)
    requires Lists(ds, deleted) && Lists(ss, saved.Keys)
    ensures CommitsTo(t, saved, deleted, after) && after == IndexedAll(DeletedAll(t, ds), ss, saved)
  {
    var between := DeletedAll(t, ds);
    assert DeletesTo(t, deleted, between);
    after := IndexedAll(between, ss, saved);
    assert IndexesTo(between, saved, after);
  }

  lemma LastWins(t: Table, models: seq<ModelId>, saved: map<ModelId, ObjectIds>, o: ObjectId)
    requires models != [] && (forall x :: x in models ==> x in saved) && Has(saved[models[|models| - 1]], o)
    ensures Lookup(IndexedAll(t, models, saved), o) == Some(models[|models| - 1])
  {
    var rest, last := models[..|models| - 1], models[|models| - 1];
    LookupIndexed(IndexedAll(t, rest, saved), last, saved[last], o);
  }

  lemma LastErases(t: Table, models: seq<ModelId>, saved: map<ModelId, ObjectIds>, m: ModelId, o: ObjectId)
    requires models != [] && NoDuplicates(models) && (forall x :: x in models ==> x in saved)
    requires models[|models| - 1] != m
    requires Has(saved[models[|models| - 1]], o) || Remembers(t, models[|models| - 1], o)
    ensures Lookup(IndexedAll(t, models, saved), o) != Some(m)
  {
    var rest, last := models[..|models| - 1], models[|models| - 1];
    IndexedAllRemembers(t, rest, saved, last);
    LookupIndexed(IndexedAll(t, rest, saved), last, saved[last], o);
    RemembersHas(t, last, o);
  }

  lemma OrderEndingWith<T>(all: set<T>, x: T) returns (order: seq<T>)
    requires x in all
    ensures Lists(order, all) && order != [] && order[|order| - 1] == x
  {
    var rest := SomeOrder(all - {x});
    order := rest + [x];
    NoDuplicatesAppend(rest, x);
  }

  lemma {:induction false} SomeOrder<T>(all: set<T>) returns (order: seq<T>)
    ensures Lists(order, all)
    decreases all
  {
    if all == {} {
      order := [];
    } else {
      var x :| x in all;
      var rest := SomeOrder(all - {x});
      order := rest + [x];
      NoDuplicatesAppend(rest, x);
    }
  }
}
