/** What holds over whole runs of the stop monitoring broadcast: a terminal state is the last
    one told, and the last state told stays within the deadband of the visit. */
module BroadcastRuns {
  import opened Common
  import opened StopVisit
  import opened LastStates
  import opened Subscription
  import opened StopMonitoringBroadcast

  /** One atomic step: a visit is checked after an event, the queue is drained, or resources
      and subscriptions change otherwise (expiry, cancellation, other subscriptions). The
      model may change in any way between two steps. */
  datatype Step =
    | Check(w: World, visit: StopVisit)
    | Drain(w: World, sent: map<string, Deliveries>)
    | Housekeeping

  /** The subscription is not given new resources and keeps the states of those it keeps. */
  ghost predicate NotResubscribed(s: State, s': State, sid: string) {
    && Queue(s', sid) == Queue(s, sid)
    && (forall key :: HasResource(s'.subs, sid, key) ==> HasResource(s.subs, sid, key))
    && (forall key, vid :: HasResource(s'.subs, sid, key) ==>
        LastState(s'.subs, sid, key, vid) == LastState(s.subs, sid, key, vid))
  }

  ghost predicate Next(s: State, step: Step, s': State, sid: string) {
    match step
    case Check(w, visit) => visit.id in w.visits && w.visits[visit.id] == visit && Checked(w, s, visit, s')
    case Drain(w, sent) => Drained(w, s, s', sent)
    case Housekeeping => NotResubscribed(s, s', sid)
  }

  /** A sequential run in which the subscription `sid` is not resubscribed. */
  ghost predicate IsRun(states: seq<State>, steps: seq<Step>, sid: string) {
    && |states| == |steps| + 1
    && forall i :: 0 <= i < |steps| ==> StepAt(states, steps, sid, i)
  }

  ghost predicate StepAt(states: seq<State>, steps: seq<Step>, sid: string, i: nat)
    requires i < |steps| && |states| == |steps| + 1
  {
    Next(states[i], steps[i], states[i + 1], sid)
  }

  /** An item about the visit is sent to the subscription in this step. */
  ghost predicate Sends(step: Step, sid: string, vid: string, terminal: bool) {
    step.Drain? && sid in step.sent && exists ref :: Lists1(step.sent[sid], ref, vid, terminal)
  }

  // ---------------------------------------------------------------- a terminal item is the last

  /** Of the resources above the visit, the subscription holds `key` at most. */
  ghost predicate OnlyResource(s: State, step: Step, sid: string, vid: string, key: string) {
    !step.Housekeeping? && vid in step.w.visits ==>
      forall k :: Above(step.w, step.w.visits[vid], k) && HasResource(s.subs, sid, k) ==> k == key
  }

  /** What is queued has a last state on the resource, as long as the resource exists. */
  ghost predicate QueuedHasState(s: State, sid: string, key: string, vid: string) {
    Queued(s, sid, vid) && HasResource(s.subs, sid, key) ==> LastState(s.subs, sid, key, vid).Some?
  }

  /** Nothing more will be told about the visit. */
  ghost predicate Closed(s: State, sid: string, key: string, vid: string) {
    && !Queued(s, sid, vid)
    && (HasResource(s.subs, sid, key) ==>
          LastState(s.subs, sid, key, vid).Some? && Terminal(LastState(s.subs, sid, key, vid).value))
  }

  lemma SameShapeHasResource(a: Table, b: Table, sid: string)
    requires SameShape(a, b)
    ensures forall key :: HasResource(a, sid, key) <==> HasResource(b, sid, key)
  {
    forall key ensures HasResource(a, sid, key) <==> HasResource(b, sid, key) {
      SameShapeSameResources(a, b, sid, key);
    }
  }

  lemma QueuedHasStateIsKept(s: State, step: Step, s': State, sid: string, key: string, vid: string)
    requires Next(s, step, s', sid) && OnlyResource(s, step, sid, vid, key) && QueuedHasState(s, sid, key, vid)
    ensures QueuedHasState(s', sid, key, vid)
  {
    if !step.Housekeeping? {
      SameShapeHasResource(s.subs, s'.subs, sid);
    }
  }

  lemma ClosedIsKept(s: State, step: Step, s': State, sid: string, key: string, vid: string)
    requires Next(s, step, s', sid) && OnlyResource(s, step, sid, vid, key) && Closed(s, sid, key, vid)
    ensures Closed(s', sid, key, vid)
    ensures forall terminal :: !Sends(step, sid, vid, terminal)
  {
    if !step.Housekeeping? {
      SameShapeHasResource(s.subs, s'.subs, sid);
    }
    match step
    case Check(w, visit) =>
      if visit.id == vid {
        forall k | Above(w, visit, k) ensures !Hit(w, s.subs, sid, k, visit) {
          if HasResource(s.subs, sid, k) {
            assert k == key;
          }
        }
      }
    case Drain(w, sent) =>
      SentIsTold(w, s, s', sent, sid, vid);
    case Housekeeping =>
  }

  /** What a drain sends was queued and resolved, under the resource that was picked. */
  lemma SentIsTold(w: World, s: State, s': State, sent: map<string, Deliveries>, sid: string, vid: string)
    requires Drained(w, s, s', sent)
    ensures forall terminal :: Sends(Drain(w, sent), sid, vid, terminal) <==>
              Told(w, s, sid, vid) && TerminalVisit(w.visits[vid]) == terminal
  {
    forall terminal
      ensures Sends(Drain(w, sent), sid, vid, terminal) <==>
              Told(w, s, sid, vid) && TerminalVisit(w.visits[vid]) == terminal
    {
      if sid in s.subs {
        assert TellsQueue(w, s, sid, sent);
        var deliveries := if sid in sent then sent[sid] else map[];
        if Told(w, s, sid, vid) && TerminalVisit(w.visits[vid]) == terminal {
          var ref := Picked(w, s.subs[sid].resources.Keys, vid).value.value;
          assert Lists1(deliveries, ref, vid, terminal);
        }
      }
    }
  }

  lemma TerminalItemCloses(s: State, step: Step, s': State, sid: string, key: string, vid: string)
    requires Next(s, step, s', sid) && OnlyResource(s, step, sid, vid, key) && QueuedHasState(s, sid, key, vid)
    requires Sends(step, sid, vid, true)
    ensures Closed(s', sid, key, vid)
  {
    var w, sent := step.w, step.sent;
    SentIsTold(w, s, s', sent, sid, vid);
    SameShapeHasResource(s.subs, s'.subs, sid);
    var resources := s.subs[sid].resources.Keys;
    FirstHeldIsHeld(resources, w.ascendants(w.visits[vid].stopAreaId));
    var picked := Picked(w, resources, vid).value;
    assert Above(w, w.visits[vid], picked.Key());
    assert picked.Key() == key;
  }

  /** The drain of the step sends an item about the visit under the reference. */
  ghost predicate SendsUnder(step: Step, sid: string, ref: string, vid: string) {
    step.Drain? && (ListsCancelled(step.sent, sid, ref, vid) || ListsMonitored(step.sent, sid, ref, vid))
  }

  ghost predicate AllSingle(states: seq<State>, steps: seq<Step>, sid: string, vid: string, key: string)
    requires |states| == |steps| + 1
  {
    forall n :: 0 <= n < |steps| ==> OnlyResource(states[n], steps[n], sid, vid, key)
  }

  /** In every run in which the subscription holds one resource at most above the visit, and
      is not resubscribed, an item among the cancelled ones, once sent, is the last item ever
      sent for the visit. */
  lemma TerminalItemIsLast(states: seq<State>, steps: seq<Step>, sid: string, key: string, vid: string, i: nat, j: nat,
                           ref: string)
    requires IsRun(states, steps, sid) && QueuedHasState(states[0], sid, key, vid)
    requires AllSingle(states, steps, sid, vid, key)
    requires i < j < |steps| && steps[i].Drain? && ListsCancelled(steps[i].sent, sid, ref, vid)
    ensures forall r :: !SendsUnder(steps[j], sid, r, vid)
  {
    QueuedHasStateInRun(states, steps, sid, key, vid, i);
    ClosesWhenSent(states, steps, sid, key, vid, i, ref);
    ClosedInRun(states, steps, sid, key, vid, i + 1, j);
    NothingSentOnceClosed(states, steps, sid, key, vid, j);
  }

  lemma ClosesWhenSent(states: seq<State>, steps: seq<Step>, sid: string, key: string, vid: string, i: nat, ref: string)
    requires IsRun(states, steps, sid) && AllSingle(states, steps, sid, vid, key) && i < |steps|
    requires QueuedHasState(states[i], sid, key, vid)
    requires steps[i].Drain? && ListsCancelled(steps[i].sent, sid, ref, vid)
    ensures Closed(states[i + 1], sid, key, vid)
  {
    assert StepAt(states, steps, sid, i) && OnlyResource(states[i], steps[i], sid, vid, key);
    assert Lists1(steps[i].sent[sid], ref, vid, true);
    TerminalItemCloses(states[i], steps[i], states[i + 1], sid, key, vid);
  }

  lemma NothingSentOnceClosed(states: seq<State>, steps: seq<Step>, sid: string, key: string, vid: string, j: nat)
    requires IsRun(states, steps, sid) && AllSingle(states, steps, sid, vid, key) && j < |steps|
    requires Closed(states[j], sid, key, vid)
    ensures forall r :: !SendsUnder(steps[j], sid, r, vid)
  {
    assert StepAt(states, steps, sid, j) && OnlyResource(states[j], steps[j], sid, vid, key);
    forall r ensures SendsUnder(steps[j], sid, r, vid) ==> SendsSome(steps[j], sid, vid) {
      UnderIsSome(steps[j], sid, r, vid);
    }
    ClosedIsKept(states[j], steps[j], states[j + 1], sid, key, vid);
  }

  ghost predicate SendsSome(step: Step, sid: string, vid: string) {
    Sends(step, sid, vid, true) || Sends(step, sid, vid, false)
  }

  lemma UnderIsSome(step: Step, sid: string, ref: string, vid: string)
    ensures SendsUnder(step, sid, ref, vid) ==> SendsSome(step, sid, vid)
  {
    if SendsUnder(step, sid, ref, vid) {
      assert Lists1(step.sent[sid], ref, vid, true) || Lists1(step.sent[sid], ref, vid, false);
    }
  }

  // ---------------------------------------------------------------- the end of a visit is told once

  /** The check of a visit that is over, which the subscription hears, and which was told as
      not over through the resource, if at all. */
  ghost predicate EndsFor(s: State, step: Step, sid: string, key: string, vid: string) {
    && step.Check? && step.visit.id == vid && IsOver(step.visit) && step.visit.origin != step.w.slug
    && StandsFor(step.w, step.visit, key) && Hears(step.w, s.subs, sid, key, step.visit)
    && (vid in s.subs[sid].resources[key].lastStates ==>
          var last := s.subs[sid].resources[key].lastStates[vid];
          last.departureStatus !in ["departed", "cancelled"] && last.arrivalStatus != "cancelled")
  }

  /** The drain sees the visit over, under the resource, and the builder accepts it. */
  ghost predicate CanTellEnd(s: State, step: Step, sid: string, key: string, vid: string) {
    && step.Drain? && vid in step.w.visits && IsOver(step.w.visits[vid]) && step.w.canCancel(step.w.visits[vid])
    && StandsFor(step.w, step.w.visits[vid], key) && HasResource(s.subs, sid, key)
  }

  lemma EndIsQueued(s: State, step: Step, s': State, sid: string, key: string, vid: string)
    requires Next(s, step, s', sid) && EndsFor(s, step, sid, key, vid)
    ensures Queued(s', sid, vid)
  {
    CheckedQueuesNews(step.w, s, step.visit, s');
    assert HasNews(s.subs, sid, key, step.visit);
  }

  lemma {:induction false} QueuedUntilDrained(states: seq<State>, steps: seq<Step>, sid: string, vid: string,
                                              m: nat, n: nat)
    requires IsRun(states, steps, sid) && m <= n <= |steps| && Queued(states[m], sid, vid)
    requires forall i :: m <= i < n ==> !steps[i].Drain?
    ensures Queued(states[n], sid, vid)
    decreases n
  {
    if m < n {
      QueuedUntilDrained(states, steps, sid, vid, m, n - 1);
      assert StepAt(states, steps, sid, n - 1) && !steps[n - 1].Drain?;
    }
  }

  /** The drain sends exactly one item about the visit: under `ref`, among the cancelled ones. */
  ghost predicate SendsEndOnce(step: Step, sid: string, ref: string, vid: string) {
    && step.Drain?
    && (forall r :: ListsCancelled(step.sent, sid, r, vid) <==> r == ref)
    && (forall r :: !ListsMonitored(step.sent, sid, r, vid))
    && sid in step.sent && ref in step.sent[sid] && NoDuplicates(step.sent[sid][ref].cancelled)
  }

  lemma EndIsSent(s: State, step: Step, s': State, sid: string, key: string, vid: string) returns (ref: string)
    requires Next(s, step, s', sid) && CanTellEnd(s, step, sid, key, vid) && Queued(s, sid, vid)
    ensures SendsEndOnce(step, sid, ref, vid)
  {
    var w := step.w;
    DrainedSendsDue(w, s, s', step.sent);
    var resources, refs := s.subs[sid].resources.Keys, w.ascendants(w.visits[vid].stopAreaId);
    var o :| o in refs && o.kind + ":" + o.value == key;
    var j :| 0 <= j < |refs| && refs[j] == o;
    var first := FirstHeldIsFirst(resources, refs);
    assert FirstHeldAt(resources, refs, first);
    ref := refs[first].value;
    assert Due(w, s, sid, vid, first) && DueUnder(w, s, sid, ref, vid);
    forall r | DueUnder(w, s, sid, r, vid) ensures r == ref {
      var i :| Due(w, s, sid, vid, i) && w.ascendants(w.visits[vid].stopAreaId)[i].value == r;
      assert i == first;
    }
    assert ListsCancelled(step.sent, sid, ref, vid);
  }

  /** A visit told as not over, or not at all, that becomes departed or cancelled is queued by
      its next handled event, sent once, among the cancelled ones, by the next drain that
      can tell it, and never sent again. */
  lemma EndIsToldOnce(states: seq<State>, steps: seq<Step>, sid: string, key: string, vid: string, i: nat, d: nat)
    returns (ref: string)
    requires IsRun(states, steps, sid) && QueuedHasState(states[0], sid, key, vid)
    requires AllSingle(states, steps, sid, vid, key)
    requires i < d < |steps| && EndsFor(states[i], steps[i], sid, key, vid)
    requires (forall n :: i < n < d ==> !steps[n].Drain?) && CanTellEnd(states[d], steps[d], sid, key, vid)
    ensures Queued(states[i + 1], sid, vid) && SendsEndOnce(steps[d], sid, ref, vid)
    ensures forall n, r :: i < n < |steps| && n != d ==> !SendsUnder(steps[n], sid, r, vid)
  {
    QueuedFromEnd(states, steps, sid, key, vid, i, d);
    ref := SentByDrain(states, steps, sid, key, vid, d);
    OnlySentThere(states, steps, sid, key, vid, i, d, ref);
  }

  lemma QueuedFromEnd(states: seq<State>, steps: seq<Step>, sid: string, key: string, vid: string, i: nat, d: nat)
    requires IsRun(states, steps, sid) && i < d < |steps| && EndsFor(states[i], steps[i], sid, key, vid)
    requires forall n :: i < n < d ==> !steps[n].Drain?
    ensures Queued(states[i + 1], sid, vid) && Queued(states[d], sid, vid)
  {
    assert StepAt(states, steps, sid, i);
    EndIsQueued(states[i], steps[i], states[i + 1], sid, key, vid);
    QueuedUntilDrained(states, steps, sid, vid, i + 1, d);
  }

  lemma SentByDrain(states: seq<State>, steps: seq<Step>, sid: string, key: string, vid: string, d: nat)
    returns (ref: string)
    requires IsRun(states, steps, sid) && d < |steps|
    requires CanTellEnd(states[d], steps[d], sid, key, vid) && Queued(states[d], sid, vid)
    ensures SendsEndOnce(steps[d], sid, ref, vid)
  {
    assert StepAt(states, steps, sid, d);
    ref := EndIsSent(states[d], steps[d], states[d + 1], sid, key, vid);
  }

  lemma OnlySentThere(states: seq<State>, steps: seq<Step>, sid: string, key: string, vid: string, i: nat, d: nat,
                      ref: string)
    requires IsRun(states, steps, sid) && QueuedHasState(states[0], sid, key, vid)
    requires AllSingle(states, steps, sid, vid, key) && i < d < |steps|
    requires (forall n :: i < n < d ==> !steps[n].Drain?) && SendsEndOnce(steps[d], sid, ref, vid)
    ensures forall n, r :: i < n < |steps| && n != d ==> !SendsUnder(steps[n], sid, r, vid)
  {
    forall n, r | i < n < |steps| && n != d ensures !SendsUnder(steps[n], sid, r, vid) {
      if n > d {
        assert ListsCancelled(steps[d].sent, sid, ref, vid);
        TerminalItemIsLast(states, steps, sid, key, vid, d, n, ref);
      }
    }
  }

  lemma {:induction false} QueuedHasStateInRun(states: seq<State>, steps: seq<Step>, sid: string, key: string,
                                               vid: string, n: nat)
    requires IsRun(states, steps, sid) && QueuedHasState(states[0], sid, key, vid) && n <= |steps|
    requires AllSingle(states, steps, sid, vid, key)
    ensures QueuedHasState(states[n], sid, key, vid)
  {
    if n > 0 {
      QueuedHasStateInRun(states, steps, sid, key, vid, n - 1);
      assert StepAt(states, steps, sid, n - 1) && OnlyResource(states[n - 1], steps[n - 1], sid, vid, key);
      QueuedHasStateIsKept(states[n - 1], steps[n - 1], states[n], sid, key, vid);
    }
  }

  lemma {:induction false} ClosedInRun(states: seq<State>, steps: seq<Step>, sid: string, key: string, vid: string,
                                       m: nat, n: nat)
    requires IsRun(states, steps, sid) && m <= n <= |steps| && Closed(states[m], sid, key, vid)
    requires AllSingle(states, steps, sid, vid, key)
    ensures Closed(states[n], sid, key, vid)
    decreases n
  {
    if m < n {
      ClosedInRun(states, steps, sid, key, vid, m, n - 1);
      assert StepAt(states, steps, sid, n - 1) && OnlyResource(states[n - 1], steps[n - 1], sid, vid, key);
      ClosedIsKept(states[n - 1], steps[n - 1], states[n], sid, key, vid);
    }
  }

  /** A new subscription starts in a state from which the theorem applies. */
  lemma IntroducedHasState(w: World, s: State, s': State, sid: string, key: string, visits: seq<StopVisit>, vid: string)
    requires HasResource(s.subs, sid, key) && Introduced(w, s, s', sid, key, visits)
    requires QueuedHasState(s, sid, key, vid)
    ensures QueuedHasState(s', sid, key, vid)
  {
    SameShapeHasResource(s.subs, s'.subs, sid);
  }

  // ---------------------------------------------------------------- the deadband

  function ChangeBeforeUpdates(s: State, sid: string): string
    requires sid in s.subs
  {
    OptionOf(s.subs[sid], "ChangeBeforeUpdates")
  }

  /** The resource findResource picks for the visit. */
  function PickedKey(w: World, s: State, sid: string, vid: string): Option<string> {
    if sid !in s.subs then None
    else match Picked(w, s.subs[sid].resources.Keys, vid)
         case None => None
         case Some(o) => Some(o.Key())
  }

  /** The visit is about to be told, or what was told is terminal or within the deadband:
      every time of the visit that is not zero is strictly within the duration of the one told. */
  ghost predicate Steady(w: World, s: State, sid: string, vid: string, duration: int) {
    && PickedKey(w, s, sid, vid).Some?
    && var last := LastState(s.subs, sid, PickedKey(w, s, sid, vid).value, vid);
    && last.Some?
    && (|| Over(last.value.departureStatus, last.value.arrivalStatus)
        || Queued(s, sid, vid)
        || Within(last.value, w.visits[vid], duration))
  }

  lemma SameShapeSamePick(w: World, a: State, b: State, sid: string, vid: string)
    requires SameShape(a.subs, b.subs)
    ensures PickedKey(w, a, sid, vid) == PickedKey(w, b, sid, vid)
    ensures sid in a.subs ==> sid in b.subs && ChangeBeforeUpdates(a, sid) == ChangeBeforeUpdates(b, sid)
  {
    assert sid in a.subs <==> sid in b.subs.Keys;
    if sid in a.subs {
      assert SameSubscription(a.subs[sid], b.subs[sid]);
    }
  }

  /** A handled event makes a live subscription steady about the visit. */
  lemma EventMakesSteady(w: World, s: State, visit: StopVisit, s': State, sid: string)
    requires visit.id in w.visits && w.visits[visit.id] == visit && Checked(w, s, visit, s')
    requires visit.origin != w.slug && PickedKey(w, s, sid, visit.id).Some?
    requires Listens(w, s.subs, sid, PickedKey(w, s, sid, visit.id).value, visit)
    requires ChangeBeforeUpdates(s, sid) != ""
    ensures Steady(w, s', sid, visit.id, Tolerance(ChangeBeforeUpdates(s, sid)))
  {
    var key := PickedKey(w, s, sid, visit.id).value;
    SameShapeSamePick(w, s, s', sid, visit.id);
    FirstHeldIsHeld(s.subs[sid].resources.Keys, w.ascendants(visit.stopAreaId));
    assert Above(w, visit, key);
    var last := LastState(s.subs, sid, key, visit.id);
    if last.Some? {
      ChangedIffWorthTelling(last.value, visit, ChangeBeforeUpdates(s, sid));
    }
    if Worth(s.subs, sid, key, visit) {
      assert Hit(w, s.subs, sid, key, visit);
    }
  }

  /** Draining keeps it, for a visit the builder accepts, unless the deadband is empty:
      exactly then a visit that was queued, is not terminal, and has a time is left outside. */
  lemma DrainKeepsSteady(w: World, s: State, s': State, sent: map<string, Deliveries>, sid: string, vid: string,
                         duration: int)
    requires Drained(w, s, s', sent) && Steady(w, s, sid, vid, duration) && Buildable(w, w.visits[vid])
    ensures !Queued(s, sid, vid) ==> Steady(w, s', sid, vid, duration)
    ensures Queued(s, sid, vid) ==>
              (Steady(w, s', sid, vid, duration) <==>
               Over(w.visits[vid].departureStatus, w.visits[vid].arrivalStatus) || duration > 0
                   || !HasTime(w.visits[vid]))
  {
    SameShapeSamePick(w, s, s', sid, vid);
    var key := PickedKey(w, s, sid, vid).value;
    if Queued(s, sid, vid) {
      assert Told(w, s, sid, vid) && sid in s.queue.Keys;
      assert LastState(s'.subs, sid, key, vid) == Some(Record(w.visits[vid]));
      WithinOwnRecord(w.visits[vid], duration);
    }
  }

  /** Two worlds show the visit alike: same visit, same ascendants, same builder. */
  ghost predicate SameView(w: World, w': World, vid: string) {
    && vid in w.visits && vid in w'.visits && w.visits[vid] == w'.visits[vid]
    && w.ascendants(w.visits[vid].stopAreaId) == w'.ascendants(w.visits[vid].stopAreaId)
    && Buildable(w, w.visits[vid]) && Buildable(w', w.visits[vid])
  }

  lemma SameViewSteady(w: World, w': World, s: State, sid: string, vid: string, duration: int)
    requires SameView(w, w', vid)
    ensures Steady(w, s, sid, vid, duration) <==> Steady(w', s, sid, vid, duration)
  {
  }

  lemma CheckKeepsSteady(w: World, w': World, s: State, visit: StopVisit, s': State, sid: string, vid: string,
                         duration: int)
    requires Steady(w, s, sid, vid, duration) && Checked(w', s, visit, s')
    ensures Steady(w, s', sid, vid, duration)
  {
    SameShapeSamePick(w, s, s', sid, vid);
  }

  /** A change of subscriptions and resources that leaves the picked resource keeps it. */
  lemma HousekeepingKeepsSteady(w: World, s: State, s': State, sid: string, vid: string, duration: int)
    requires NotResubscribed(s, s', sid) && PickedKey(w, s', sid, vid) == PickedKey(w, s, sid, vid)
    requires vid in w.visits && Steady(w, s, sid, vid, duration)
    ensures Steady(w, s', sid, vid, duration)
  {
    FirstHeldIsHeld(s'.subs[sid].resources.Keys, w.ascendants(w.visits[vid].stopAreaId));
    assert HasResource(s'.subs, sid, PickedKey(w, s', sid, vid).value);
  }

  lemma SteadyStep(w: World, s: State, step: Step, s': State, sid: string, vid: string, duration: int)
    requires Next(s, step, s', sid) && KeepsView(w, s, step, s', sid, vid)
    requires vid in w.visits && Steady(w, s, sid, vid, duration) && duration > 0
    ensures Steady(w, s', sid, vid, duration)
  {
    match step
    case Check(w', visit) =>
      CheckKeepsSteady(w, w', s, visit, s', sid, vid, duration);
    case Drain(w', sent) =>
      SameViewSteady(w, w', s, sid, vid, duration);
      DrainKeepsSteady(w', s, s', sent, sid, vid, duration);
      SameViewSteady(w, w', s', sid, vid, duration);
    case Housekeeping =>
      HousekeepingKeepsSteady(w, s, s', sid, vid, duration);
  }

  /** A check or a drain sees the visit as `w` does; any other change, also of other
      subscriptions and resources, leaves the subscription the resource that is picked. */
  ghost predicate KeepsView(w: World, s: State, step: Step, s': State, sid: string, vid: string) {
    if step.Housekeeping? then PickedKey(w, s', sid, vid) == PickedKey(w, s, sid, vid) else SameView(w, step.w, vid)
  }

  ghost predicate KeepsViewAt(w: World, states: seq<State>, steps: seq<Step>, sid: string, vid: string, n: nat)
    requires n < |steps| && |states| == |steps| + 1
  {
    KeepsView(w, states[n], steps[n], states[n + 1], sid, vid)
  }

  /** Over every run of checks, for any visits, of drains, and of changes elsewhere, that
      leave the visit as it is, a subscription that is steady about it stays steady. */
  lemma {:induction false} SteadyInRun(w: World, states: seq<State>, steps: seq<Step>, sid: string, vid: string,
                                       duration: int, m: nat, n: nat)
    requires IsRun(states, steps, sid) && m <= n <= |steps| && vid in w.visits
    requires Steady(w, states[m], sid, vid, duration) && duration > 0
    requires forall i: nat :: m <= i < n ==> KeepsViewAt(w, states, steps, sid, vid, i)
    ensures Steady(w, states[n], sid, vid, duration)
    decreases n
  {
    if m < n {
      SteadyInRun(w, states, steps, sid, vid, duration, m, n - 1);
      assert StepAt(states, steps, sid, n - 1) && KeepsViewAt(w, states, steps, sid, vid, n - 1);
      SteadyStep(w, states[n - 1], steps[n - 1], states[n], sid, vid, duration);
    }
  }

  /** The event is handled for a live subscription with ChangeBeforeUpdates, on the resource
      findResource picks. */
  ghost predicate HandledFor(s: State, step: Step, sid: string) {
    && step.Check? && step.visit.origin != step.w.slug
    && PickedKey(step.w, s, sid, step.visit.id).Some?
    && Listens(step.w, s.subs, sid, PickedKey(step.w, s, sid, step.visit.id).value, step.visit)
    && ChangeBeforeUpdates(s, sid) != ""
  }

  /** From the event that a change of the visit causes on, and until its next change, every
      state of the run is steady about the visit, if the deadband is not empty. */
  lemma SteadySinceEvent(states: seq<State>, steps: seq<Step>, sid: string, n: nat)
    requires IsRun(states, steps, sid) && 1 <= n <= |steps|
    requires HandledFor(states[0], steps[0], sid)
    requires Tolerance(ChangeBeforeUpdates(states[0], sid)) > 0
    requires forall i: nat :: 1 <= i < n ==> KeepsViewAt(steps[0].w, states, steps, sid, steps[0].visit.id, i)
    ensures Steady(steps[0].w, states[n], sid, steps[0].visit.id, Tolerance(ChangeBeforeUpdates(states[0], sid)))
  {
    assert StepAt(states, steps, sid, 0);
    EventMakesSteady(steps[0].w, states[0], steps[0].visit, states[1], sid);
    SteadyInRun(steps[0].w, states, steps, sid, steps[0].visit.id,
                Tolerance(ChangeBeforeUpdates(states[0], sid)), 1, n);
  }
}
