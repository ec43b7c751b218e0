/** What holds over every run of a partner: which subscriptions it has, what they hold, and how
    often a resource is asked for. */
module PartnerRuns {
  import opened Common
  import opened Subscription
  import opened Partner
  import opened StopMonitoringSubscriber

  /** One atomic step; `sid` and `found` tell the subscription that the map iteration met. */
  datatype Step =
    | Request(kind: string, reference: ObjectId, now: Time, sid: string)
    | Guard(reported: PartnerStatus, now: Time, interval: int)
    | Redefine(limits: Limits)
    | Subscribe(externalId: string, resource: Resource, options: map<string, string>, sid: string)
    | CancelAll
    | CancelOne(externalId: string, found: Option<string>)
    | Terminated(id: string)
    | Ask(requests: Requests, response: Response, now: Time)

  ghost predicate Next(p: PartnerState, step: Step, p': PartnerState) {
    match step
    case Request(kind, reference, now, sid) =>
      kind in {STOP_MONITORING_COLLECT, GENERAL_MESSAGE_COLLECT} && MayRequest(p, kind)
          && Requested(p, p', kind, reference, now, sid)
    case Guard(reported, now, interval) => p' == Guarded(p, reported, now, interval)
    case Redefine(limits) => p' == Redefined(p, limits)
    case Subscribe(externalId, resource, options, sid) =>
      resource.retryCount == 0 && Subscribed(p, p', externalId, resource, options, sid)
    case CancelAll => p' == p.(subs := CollectOnly(p.subs))
    case CancelOne(externalId, found) => Cancelled(p, p', externalId, found)
    case Terminated(id) => p' == p.(subs := p.subs - {id})
    case Ask(requests, response, now) =>
      && p' == p.(subs := p'.subs) && RequestsPending(p.subs, requests)
      && Accounted(p.subs, p'.subs, requests, Verdicts(requests, response), now)
  }

  ghost predicate IsRun(states: seq<PartnerState>, steps: seq<Step>) {
    && |states| == |steps| + 1
    && forall i :: 0 <= i < |steps| ==> StepAt(states, steps, i)
  }

  ghost predicate StepAt(states: seq<PartnerState>, steps: seq<Step>, i: nat)
    requires i < |steps| && |states| == |steps| + 1
  {
    Next(states[i], steps[i], states[i + 1])
  }

  /** Subscribers name their subscriptions. */
  predicate Named(step: Step) {
    step.Subscribe? ==> step.externalId != ""
  }

  ghost predicate AllNamed(steps: seq<Step>) {
    forall step :: step in steps ==> Named(step)
  }

  // ---------------------------------------------------------------- the invariant

  /** A subscription broadcasts, by its kind, exactly if a subscriber has named it. */
  predicate Matched(sub: Subscription) {
    IsBroadcast(sub.kind) <==> sub.externalId != ""
  }

  ghost predicate KindsMatch(subs: Table) {
    forall sid :: sid in subs ==> Matched(subs[sid])
  }

  /** A resource is collected by one subscription of each kind at most. */
  ghost predicate HeldOnce(subs: Table) {
    forall a, b, kind, key :: !IsBroadcast(kind) && Holds(subs, a, kind, key) && Holds(subs, b, kind, key) ==> a == b
  }

  ghost predicate NamedOnce(subs: Table) {
    forall a, b ::
      a in subs && b in subs && subs[a].externalId == subs[b].externalId && subs[a].externalId != "" ==> a == b
  }

  ghost predicate WithinMaximum(subs: Table, maximum: int) {
    maximum >= 1 ==> forall sid :: sid in subs && subs[sid].externalId == "" ==> |subs[sid].resources| <= maximum
  }

  predicate SoundResource(key: string, resource: Resource) {
    resource.reference.Key() == key && 0 <= resource.retryCount <= MAXIMUM_RETRIES + 1
  }

  ghost predicate SoundResources(subs: Table) {
    forall sid, key :: HasResource(subs, sid, key) ==> SoundResource(key, subs[sid].resources[key])
  }

  ghost predicate NoneCollect(subs: Table) {
    forall sid :: sid in subs ==> subs[sid].externalId != ""
  }

  /** A partner that is not up, and whose collect subscriptions are not persistent, has none. */
  ghost predicate NoneLeft(p: PartnerState) {
    !p.status.operationnalStatus.Up? && !p.limits.collectPersistent ==> NoneCollect(p.subs)
  }

  ghost predicate SoundTable(subs: Table, maximum: int) {
    KindsMatch(subs) && HeldOnce(subs) && NamedOnce(subs) && WithinMaximum(subs, maximum)
  }

  ghost predicate Sound(p: PartnerState) {
    SoundTable(p.subs, p.limits.maximumResources) && SoundResources(p.subs) && NoneLeft(p)
  }

  // ---------------------------------------------------------------- steps that remove

  predicate LessSubscription(a: Subscription, b: Subscription) {
    a.kind == b.kind && a.externalId == b.externalId && a.resources.Keys <= b.resources.Keys
  }

  /** Subscriptions and resources have only been removed. */
  ghost predicate Less(after: Table, subs: Table) {
    && (forall sid :: sid in after ==> sid in subs && LessSubscription(after[sid], subs[sid]))
    && (forall sid, key :: HasResource(after, sid, key) ==>
        HasResource(subs, sid, key) && after[sid].resources[key] == subs[sid].resources[key])
  }

  lemma LessKeepsSound(subs: Table, after: Table, maximum: int)
    requires Less(after, subs) && SoundTable(subs, maximum) && SoundResources(subs)
    ensures SoundTable(after, maximum) && SoundResources(after)
    ensures NoneCollect(subs) ==> NoneCollect(after)
  {
    forall a, b, kind, key | !IsBroadcast(kind) && Holds(after, a, kind, key) && Holds(after, b, kind, key)
        ensures a == b {
      assert Holds(subs, a, kind, key) && Holds(subs, b, kind, key);
    }
    forall sid | sid in after ensures |after[sid].resources| <= |subs[sid].resources| {
      SubsetCardinality(after[sid].resources.Keys, subs[sid].resources.Keys);
      assert |after[sid].resources| == |after[sid].resources.Keys|
          && |subs[sid].resources| == |subs[sid].resources.Keys|;
    }
    forall sid | sid in after ensures Matched(after[sid]) {
      assert Matched(subs[sid]);
    }
  }

  lemma SweptIsLess(subs: Table, now: Time)
    ensures Less(Swept(subs, now), subs)
  {
  }

  lemma LessTransitive(a: Table, b: Table, c: Table)
    requires Less(a, b) && Less(b, c)
    ensures Less(a, c)
  {
    forall sid | sid in a ensures sid in c && LessSubscription(a[sid], c[sid]) {
      assert LessSubscription(b[sid], c[sid]);
    }
    forall sid, key | HasResource(a, sid, key)
        ensures HasResource(c, sid, key) && a[sid].resources[key] == c[sid].resources[key] {
      assert HasResource(b, sid, key);
    }
  }

  lemma CheckIsLess(p: PartnerState, reported: PartnerStatus)
    ensures Less(StatusChecked(p, reported).subs, p.subs)
    ensures NoneLeft(p) ==> NoneLeft(StatusChecked(p, reported))
    ensures StatusChecked(p, reported).limits == p.limits
  {
  }

  lemma GuardKeepsSound(p: PartnerState, reported: PartnerStatus, now: Time, interval: int)
    requires Sound(p)
    ensures Sound(Guarded(p, reported, now, interval))
  {
    var checked := StatusChecked(p, reported);
    CheckIsLess(p, reported);
    LessKeepsSound(p.subs, checked.subs, p.limits.maximumResources);
    SweptIsLess(checked.subs, now);
    LessKeepsSound(checked.subs, Swept(checked.subs, now), p.limits.maximumResources);
  }

  lemma RemovalKeepsSound(p: PartnerState, subs: Table)
    requires Sound(p) && Less(subs, p.subs)
    ensures Sound(p.(subs := subs))
  {
    LessKeepsSound(p.subs, subs, p.limits.maximumResources);
  }

  lemma CancelAllKeepsSound(p: PartnerState)
    requires Sound(p)
    ensures Sound(p.(subs := CollectOnly(p.subs)))
  {
    RemovalKeepsSound(p, CollectOnly(p.subs));
  }

  lemma DeletionKeepsSound(p: PartnerState, id: string)
    requires Sound(p)
    ensures Sound(p.(subs := p.subs - {id}))
  {
    RemovalKeepsSound(p, p.subs - {id});
  }

  lemma RedefinitionIsSound(p: PartnerState, limits: Limits)
    ensures Sound(Redefined(p, limits))
  {
    assert forall sid, kind, key :: !Holds(map[], sid, kind, key);
  }

  // ---------------------------------------------------------------- steps that keep the resources

  lemma SameShellHolds(a: Table, b: Table)
    requires SameShell(a, b)
    ensures forall sid, kind, key :: Holds(a, sid, kind, key) <==> Holds(b, sid, kind, key)
  {
    forall sid, kind, key ensures Holds(a, sid, kind, key) <==> Holds(b, sid, kind, key) {
      assert sid in a.Keys <==> sid in b.Keys;
      if sid in a {
        assert SameHeader(a[sid], b[sid]);
        assert key in a[sid].resources.Keys <==> key in b[sid].resources.Keys;
      }
    }
  }

  lemma SameShellKeepsSound(subs: Table, after: Table, maximum: int)
    requires SameShell(subs, after) && SoundTable(subs, maximum)
    ensures SoundTable(after, maximum)
    ensures NoneCollect(subs) ==> NoneCollect(after)
  {
    SameShellHolds(subs, after);
    forall sid | sid in after ensures sid in subs && SameHeader(subs[sid], after[sid])
        && |after[sid].resources| == |subs[sid].resources| {
      assert sid in subs.Keys && SameHeader(subs[sid], after[sid]);
      assert |after[sid].resources| == |after[sid].resources.Keys|
          && |subs[sid].resources| == |subs[sid].resources.Keys|;
    }
    forall sid | sid in after ensures Matched(after[sid]) {
      assert Matched(subs[sid]);
    }
  }

  lemma RenewalKeepsSound(p: PartnerState, kind: string, key: string, until: Time)
    requires Sound(p)
    ensures Sound(p.(subs := Renewed(p.subs, kind, key, until)))
  {
    var after := Renewed(p.subs, kind, key, until);
    forall sid | sid in p.subs ensures SameHeader(p.subs[sid], after[sid]) {
    }
    SameShellKeepsSound(p.subs, after, p.limits.maximumResources);
    forall sid, k | HasResource(after, sid, k) ensures SoundResource(k, after[sid].resources[k]) {
      assert HasResource(p.subs, sid, k) && SoundResource(k, p.subs[sid].resources[k]);
    }
  }

  lemma AskKeepsSound(p: PartnerState, after: Table, requests: Requests, response: Response, now: Time)
    requires Sound(p) && RequestsPending(p.subs, requests)
    requires Accounted(p.subs, after, requests, Verdicts(requests, response), now)
    ensures Sound(p.(subs := after))
  {
    SameShellKeepsSound(p.subs, after, p.limits.maximumResources);
    SameShellHolds(p.subs, after);
    var verdicts := Verdicts(requests, response);
    forall sid, key | HasResource(after, sid, key) ensures SoundResource(key, after[sid].resources[key]) {
      assert Holds(after, sid, after[sid].kind, key) && Holds(p.subs, sid, after[sid].kind, key);
      assert SoundResource(key, p.subs[sid].resources[key]);
      if Decided(requests, verdicts, sid, key) {
        var m :| m in verdicts && AsksFor(requests, m, sid, key);
        assert Asked(requests, sid, key) && ToRequest(p.subs, sid, key);
        assert ResourceAt(after, sid, key) == OutcomeAt(p.subs, sid, key, verdicts[m], now);
      } else {
        assert ResourceAt(after, sid, key) == ResourceAt(p.subs, sid, key);
      }
    }
  }

  // ---------------------------------------------------------------- steps that add

  /** One resource is filed under one subscription, which may be new. */
  ghost predicate Grown(subs: Table, after: Table, sid: string, kind: string, externalId: string, resource: Resource) {
    && after.Keys == subs.Keys + {sid}
    && (forall s :: s in subs && s != sid ==> after[s] == subs[s])
    && after[sid].kind == kind && after[sid].externalId == externalId
    && (if sid in subs then kind == subs[sid].kind && externalId == subs[sid].externalId
                            && after[sid].resources == subs[sid].resources[resource.reference.Key() := resource]
        else after[sid].resources == map[resource.reference.Key() := resource])
  }

  lemma GrownHolds(subs: Table, after: Table, sid: string, kind: string, externalId: string, resource: Resource)
    requires Grown(subs, after, sid, kind, externalId, resource)
    ensures forall s, k, key :: Holds(after, s, k, key) <==>
            Holds(subs, s, k, key) || (s == sid && k == kind && key == resource.reference.Key())
    ensures forall s, key ::
              ResourceAt(after, s, key) ==
              if s == sid && key == resource.reference.Key() then Some(resource) else ResourceAt(subs, s, key)
  {
    forall s ensures s in after <==> s in subs || s == sid {
      assert s in after.Keys <==> s in subs.Keys + {sid};
    }
  }

  lemma GrowthKeepsResources(subs: Table, after: Table, sid: string, kind: string, externalId: string,
                             resource: Resource)
    requires Grown(subs, after, sid, kind, externalId, resource) && SoundResources(subs) && resource.retryCount == 0
    ensures SoundResources(after)
  {
    GrownHolds(subs, after, sid, kind, externalId, resource);
    forall s, key | HasResource(after, s, key) ensures SoundResource(key, after[s].resources[key]) {
      assert ResourceAt(after, s, key) == Some(after[s].resources[key]);
      if !(s == sid && key == resource.reference.Key()) {
        assert HasResource(subs, s, key) && SoundResource(key, subs[s].resources[key]);
      }
    }
  }

  lemma GrowthKeepsKinds(subs: Table, after: Table, sid: string, kind: string, externalId: string, resource: Resource)
    requires Grown(subs, after, sid, kind, externalId, resource) && KindsMatch(subs)
    requires sid !in subs ==> (IsBroadcast(kind) <==> externalId != "")
    ensures KindsMatch(after)
  {
    forall s | s in after ensures Matched(after[s]) {
      assert s in after.Keys;
      assert s in subs ==> Matched(subs[s]);
    }
  }

  lemma GrowthKeepsNames(subs: Table, after: Table, sid: string, kind: string, externalId: string, resource: Resource)
    requires Grown(subs, after, sid, kind, externalId, resource) && NamedOnce(subs)
    requires sid !in subs && externalId != "" ==> Unnamed(subs, externalId)
    ensures NamedOnce(after)
  {
    forall a, b | a in after && b in after && after[a].externalId == after[b].externalId && after[a].externalId != ""
        ensures a == b {
      assert a in after.Keys && b in after.Keys;
    }
  }

  lemma AllocationKeepsSound(p: PartnerState, kind: string, reference: ObjectId, until: Time, sid: string)
    requires Sound(p) && !IsBroadcast(kind) && !IsHeld(p.subs, kind, reference.Key())
    requires MayAllocate(p.subs, kind, p.limits.maximumResources, sid)
    ensures SoundTable(p.subs[sid := Filed(SubscriptionFor(p.subs, kind, sid), NewResource(reference, until))],
                       p.limits.maximumResources)
    ensures SoundResources(p.subs[sid := Filed(SubscriptionFor(p.subs, kind, sid), NewResource(reference, until))])
  {
    var after := p.subs[sid := Filed(SubscriptionFor(p.subs, kind, sid), NewResource(reference, until))];
    assert sid in p.subs ==> Matched(p.subs[sid]);
    AllocationGrows(p.subs, kind, p.limits.maximumResources, reference, until, sid);
    GrownHolds(p.subs, after, sid, kind, "", NewResource(reference, until));
    GrowthKeepsResources(p.subs, after, sid, kind, "", NewResource(reference, until));
    GrowthKeepsKinds(p.subs, after, sid, kind, "", NewResource(reference, until));
    GrowthKeepsNames(p.subs, after, sid, kind, "", NewResource(reference, until));
    forall a, b, k, key | !IsBroadcast(k) && Holds(after, a, k, key) && Holds(after, b, k, key) ensures a == b {
      assert k == kind && key == reference.Key() ==> !Holds(p.subs, a, k, key) && !Holds(p.subs, b, k, key);
    }
    AllocationKeepsMaximum(p.subs, kind, p.limits.maximumResources, reference, until, sid);
  }

  lemma AllocationGrows(subs: Table, kind: string, maximum: int, reference: ObjectId, until: Time, sid: string)
    requires MayAllocate(subs, kind, maximum, sid) && !IsBroadcast(kind)
    requires sid in subs ==> Matched(subs[sid])
    ensures Grown(subs, subs[sid := Filed(SubscriptionFor(subs, kind, sid), NewResource(reference, until))], sid, kind,
                  "", NewResource(reference, until))
  {
  }

  lemma AllocationKeepsMaximum(subs: Table, kind: string, maximum: int, reference: ObjectId, until: Time, sid: string)
    requires MayAllocate(subs, kind, maximum, sid) && WithinMaximum(subs, maximum)
    ensures WithinMaximum(subs[sid := Filed(SubscriptionFor(subs, kind, sid), NewResource(reference, until))], maximum)
  {
    var resources := SubscriptionFor(subs, kind, sid).resources;
    var filed := resources[reference.Key() := NewResource(reference, until)];
    assert filed.Keys == resources.Keys + {reference.Key()};
    assert |filed| == |filed.Keys| && |resources| == |resources.Keys|;
  }

  lemma SubscribedGrows(p: PartnerState, p': PartnerState, externalId: string, resource: Resource,
                        options: map<string, string>, sid: string)
    requires Subscribed(p, p', externalId, resource, options, sid)
    ensures sid in p'.subs && Grown(p.subs, p'.subs, sid, p'.subs[sid].kind, externalId, resource)
    ensures sid !in p.subs ==> IsBroadcast(p'.subs[sid].kind)
  {
    assert IsBroadcast(STOP_MONITORING_BROADCAST);
  }

  lemma SubscribeKeepsSound(p: PartnerState, p': PartnerState, externalId: string, resource: Resource,
                            options: map<string, string>, sid: string)
    requires Sound(p) && externalId != "" && resource.retryCount == 0
    requires Subscribed(p, p', externalId, resource, options, sid)
    ensures Sound(p')
  {
    var kind := p'.subs[sid].kind;
    assert sid in p.subs ==> Matched(p.subs[sid]);
    SubscribedGrows(p, p', externalId, resource, options, sid);
    GrownHolds(p.subs, p'.subs, sid, kind, externalId, resource);
    GrowthKeepsResources(p.subs, p'.subs, sid, kind, externalId, resource);
    GrowthKeepsKinds(p.subs, p'.subs, sid, kind, externalId, resource);
    GrowthKeepsNames(p.subs, p'.subs, sid, kind, externalId, resource);
  }

  // ---------------------------------------------------------------- runs

  /** The kinds that are collected do not end in "Broadcast". */
  lemma CollectKinds()
    ensures !IsBroadcast(STOP_MONITORING_COLLECT) && !IsBroadcast(GENERAL_MESSAGE_COLLECT)
  {
    assert STOP_MONITORING_COLLECT[|STOP_MONITORING_COLLECT| - 9..][8] != "Broadcast"[8]
        || STOP_MONITORING_COLLECT[|STOP_MONITORING_COLLECT| - 9..][0] != "Broadcast"[0];
    assert GENERAL_MESSAGE_COLLECT[|GENERAL_MESSAGE_COLLECT| - 9..][0] != "Broadcast"[0];
  }

  lemma RequestKeepsSound(p: PartnerState, p': PartnerState, kind: string, reference: ObjectId, now: Time, sid: string)
    requires Sound(p) && !IsBroadcast(kind) && MayRequest(p, kind) && Requested(p, p', kind, reference, now, sid)
    ensures Sound(p')
  {
    if IsHeld(p.subs, kind, reference.Key()) {
      RenewalKeepsSound(p, kind, reference.Key(), now + REQUEST_DURATION);
    } else {
      AllocationKeepsSound(p, kind, reference, now + REQUEST_DURATION, sid);
    }
  }

  lemma StepKeepsSound(p: PartnerState, step: Step, p': PartnerState)
    requires Sound(p) && Next(p, step, p') && Named(step)
    ensures Sound(p')
  {
    match step
    case Request(kind, reference, now, sid) =>
      CollectKinds();
      RequestKeepsSound(p, p', kind, reference, now, sid);
    case Guard(reported, now, interval) => GuardKeepsSound(p, reported, now, interval);
    case Redefine(limits) => RedefinitionIsSound(p, limits);
    case Subscribe(externalId, resource, options, sid) => SubscribeKeepsSound(p, p', externalId, resource,
                                                                              options, sid);
    case CancelAll => CancelAllKeepsSound(p);
    case CancelOne(externalId, found) =>
      if found.Some? {
        DeletionKeepsSound(p, found.value);
      }
    case Terminated(id) => DeletionKeepsSound(p, id);
    case Ask(requests, response, now) => AskKeepsSound(p, p'.subs, requests, response, now);
  }

  /** Every state of every run that starts sound, as a new partner does, is sound. */
  lemma {:induction false} SoundInRun(states: seq<PartnerState>, steps: seq<Step>, n: nat)
    requires IsRun(states, steps) && Sound(states[0]) && n <= |steps|
    requires AllNamed(steps)
    ensures Sound(states[n])
  {
    if n > 0 {
      SoundInRun(states, steps, n - 1);
      assert StepAt(states, steps, n - 1) && Named(steps[n - 1]);
      StepKeepsSound(states[n - 1], steps[n - 1], states[n]);
    }
  }

  /** While the stored status of a partner is not up, and its collect subscriptions are not
      persistent, it has no subscription without an external identifier. */
  lemma NothingCollectedUnlessUp(states: seq<PartnerState>, steps: seq<Step>, n: nat, sid: string)
    requires IsRun(states, steps) && Sound(states[0]) && n <= |steps|
    requires AllNamed(steps)
    requires !states[n].status.operationnalStatus.Up? && !states[n].limits.collectPersistent
    ensures sid in states[n].subs ==> states[n].subs[sid].externalId != "" && IsBroadcast(states[n].subs[sid].kind)
  {
    SoundInRun(states, steps, n);
    assert sid in states[n].subs ==> Matched(states[n].subs[sid]);
  }

  // ---------------------------------------------------------------- what stop areas hear

  /** Whether the guardian last told the stop areas that the partner is up. */
  ghost function Heard(states: seq<PartnerState>, steps: seq<Step>, n: nat): bool
    requires n <= |steps| && |states| == |steps| + 1
  {
    if n == 0 then false
    else
      var told := if steps[n - 1].Guard? then ChangeTold(states[n - 1].status, steps[n - 1].reported) else None;
      if told.Some? then told.value else Heard(states, steps, n - 1)
  }

  /** The partner was redefined while it was up, and no check since has answered up or down. */
  ghost predicate Forgotten(states: seq<PartnerState>, steps: seq<Step>, j: nat, n: nat)
    requires |states| == |steps| + 1
  {
    && j < n <= |steps| && steps[j].Redefine? && states[j].status.operationnalStatus.Up?
    && forall k :: j < k < n && steps[k].Guard? ==> steps[k].reported.operationnalStatus.Unknown?
  }

  ghost predicate Stale(states: seq<PartnerState>, steps: seq<Step>, n: nat)
    requires |states| == |steps| + 1
  {
    exists j :: Forgotten(states, steps, j, n)
  }

  /** What the stop areas last heard is whether the partner is up, except after a redefinition
      that nobody is told of, until a check answers up or down. */
  lemma {:induction false} HeardIsUpIff(states: seq<PartnerState>, steps: seq<Step>, n: nat)
    requires IsRun(states, steps) && n <= |steps| && !states[0].status.operationnalStatus.Up?
    ensures (Heard(states, steps, n) <==> states[n].status.operationnalStatus.Up?) <==>
            !Stale(states, steps, n)
    ensures states[n].status.operationnalStatus.Up? ==> Heard(states, steps, n)
    ensures Stale(states, steps, n) ==> states[n].status.operationnalStatus.Unknown?
  {
    if n > 0 {
      HeardIsUpIff(states, steps, n - 1);
      assert StepAt(states, steps, n - 1);
      ForgottenStep(states, steps, n);
    }
  }

  lemma ForgottenStep(states: seq<PartnerState>, steps: seq<Step>, n: nat)
    requires |states| == |steps| + 1 && 0 < n <= |steps|
    ensures Stale(states, steps, n) <==>
            || (steps[n - 1].Redefine? && states[n - 1].status.operationnalStatus.Up?)
            || ((steps[n - 1].Guard? ==> steps[n - 1].reported.operationnalStatus.Unknown?)
                && Stale(states, steps, n - 1))
  {
    forall j: nat | j < n - 1
      ensures Forgotten(states, steps, j, n) <==>
              Forgotten(states, steps, j, n - 1)
                  && (steps[n - 1].Guard? ==> steps[n - 1].reported.operationnalStatus.Unknown?)
    {
    }
    if steps[n - 1].Redefine? && states[n - 1].status.operationnalStatus.Up? {
      assert Forgotten(states, steps, n - 1, n);
    }
    if j :| Forgotten(states, steps, j, n) {
      assert j == n - 1 || Forgotten(states, steps, j, n - 1);
    }
    if (steps[n - 1].Guard? ==> steps[n - 1].reported.operationnalStatus.Unknown?)
       && Stale(states, steps, n - 1) {
      var j :| Forgotten(states, steps, j, n - 1);
      assert Forgotten(states, steps, j, n);
    }
  }

  // ---------------------------------------------------------------- restarts and outages

  /** The start of the service that the last check answering up has told, or the initial one. */
  ghost function LastStart(states: seq<PartnerState>, steps: seq<Step>, n: nat): Time
    requires n <= |steps| && |states| == |steps| + 1
  {
    if n == 0 then states[0].status.serviceStartedAt
    else if steps[n - 1].Guard? && steps[n - 1].reported.operationnalStatus.Up?
    then steps[n - 1].reported.serviceStartedAt
    else LastStart(states, steps, n - 1)
  }

  /** In every run the stored start is that one: neither a failed check nor a redefinition touches it. */
  lemma {:induction false} StartIsLastTold(states: seq<PartnerState>, steps: seq<Step>, n: nat)
    requires IsRun(states, steps) && n <= |steps|
    ensures states[n].status.serviceStartedAt == LastStart(states, steps, n)
  {
    if n > 0 {
      StartIsLastTold(states, steps, n - 1);
      assert StepAt(states, steps, n - 1);
    }
  }

  /** The step is not meant to remove the subscription, and a check that answers up tells the same start. */
  predicate LeavesAlone(step: Step, sub: Subscription, sid: string, start: Time) {
    match step
    case Guard(reported, _, _) => reported.operationnalStatus.Up? ==> reported.serviceStartedAt == start
    case Redefine(_) => false
    case CancelAll => sub.externalId == ""
    case CancelOne(_, found) => found != Some(sid)
    case Terminated(id) => id != sid
    case _ => true
  }

  /** A check finds the resource pending, or not at its end. */
  predicate NotEnded(p: PartnerState, step: Step, sid: string, key: string) {
    step.Guard? && HasResource(p.subs, sid, key) ==>
      p.subs[sid].resources[key].subscribedAt == 0 || p.subs[sid].resources[key].subscribedUntil >= step.now
  }

  /** Some outage-proof setting covers the subscription. */
  predicate Persistent(limits: Limits, sub: Subscription) {
    if sub.externalId == "" then limits.collectPersistent else limits.broadcastPersistent
  }

  ghost predicate SurvivesTo(states: seq<PartnerState>, n: nat, sid: string, key: string, sub: Subscription,
                             limits: Limits)
    requires n < |states|
  {
    && HasResource(states[n].subs, sid, key)
    && states[n].subs[sid].kind == sub.kind && states[n].subs[sid].externalId == sub.externalId
    && states[n].limits == limits
  }

  ghost predicate QuietAt(states: seq<PartnerState>, steps: seq<Step>, i: nat, sid: string, key: string,
                          sub: Subscription, start: Time)
    requires i < |steps| && |states| == |steps| + 1
  {
    LeavesAlone(steps[i], sub, sid, start) && NotEnded(states[i], steps[i], sid, key)
  }

  /** A persistent subscription that no other step removes, and whose resource does not end,
      survives every outage after which the service answers with the start it had before. */
  lemma {:induction false} PersistentSurvivesOutages(states: seq<PartnerState>, steps: seq<Step>, m: nat, n: nat,
                                                     sid: string, key: string)
    requires IsRun(states, steps) && m <= n <= |steps| && HasResource(states[m].subs, sid, key)
    requires Persistent(states[m].limits, states[m].subs[sid])
    requires forall i: nat :: m <= i < n ==>
               QuietAt(states, steps, i, sid, key, states[m].subs[sid], LastStart(states, steps, m))
    ensures SurvivesTo(states, n, sid, key, states[m].subs[sid], states[m].limits)
    ensures LastStart(states, steps, n) == LastStart(states, steps, m)
    decreases n
  {
    if m < n {
      PersistentSurvivesOutages(states, steps, m, n - 1, sid, key);
      assert StepAt(states, steps, n - 1);
      assert QuietAt(states, steps, n - 1, sid, key, states[m].subs[sid], LastStart(states, steps, m));
      StartIsLastTold(states, steps, n - 1);
      QuietStepKeeps(states[n - 1], steps[n - 1], states[n], sid, key);
    }
  }

  lemma QuietStepKeeps(p: PartnerState, step: Step, p': PartnerState, sid: string, key: string)
    requires Next(p, step, p') && HasResource(p.subs, sid, key) && Persistent(p.limits, p.subs[sid])
    requires LeavesAlone(step, p.subs[sid], sid, p.status.serviceStartedAt) && NotEnded(p, step, sid, key)
    ensures HasResource(p'.subs, sid, key) && p'.limits == p.limits
    ensures p'.subs[sid].kind == p.subs[sid].kind && p'.subs[sid].externalId == p.subs[sid].externalId
  {
    HolderStaysIff(p, step, p', sid, p.subs[sid].kind, key);
    if step.Ask? {
      assert SameHeader(p.subs[sid], p'.subs[sid]);
    } else if step.Guard? {
      SweepIsExact(StatusChecked(p, step.reported).subs, step.now);
    }
  }

  /** A check leaves a partner that is up discovered within the interval, at once after an
      outage or a restart; while it is not up, its discovery is due. */
  lemma DiscoveryIsRecent(p: PartnerState, step: Step, p': PartnerState)
    requires Next(p, step, p') && step.Guard?
    ensures p'.status.operationnalStatus.Up? ==>
              || p'.lastDiscovery == step.now
              || (p'.lastDiscovery == p.lastDiscovery && p.lastDiscovery != 0
                  && p.lastDiscovery >= step.now + step.interval)
    ensures p'.status.operationnalStatus.Up? && step.reported.serviceStartedAt != p.status.serviceStartedAt ==>
              p'.lastDiscovery == step.now
    ensures !p'.status.operationnalStatus.Up? ==> p'.lastDiscovery == 0
  {
  }

  // ---------------------------------------------------------------- allocation

  /** The step leaves this resource of this subscription: a check keeps the subscriptions of
      its side and finds the resource not expired, a cancellation is meant for others. */
  predicate Spares(p: PartnerState, step: Step, sid: string, key: string) {
    HasResource(p.subs, sid, key) &&
    match step
    case Guard(reported, now, _) =>
      && (if reported.operationnalStatus.Up? then reported.serviceStartedAt == p.status.serviceStartedAt
          else if p.subs[sid].externalId == "" then p.limits.collectPersistent else p.limits.broadcastPersistent)
      && !Expired(p.subs[sid].resources[key], now)
    case Redefine(_) => false
    case CancelAll => p.subs[sid].externalId == ""
    case CancelOne(_, found) => found != Some(sid)
    case Terminated(id) => id != sid
    case _ => true
  }

  lemma RequestIsHeld(p: PartnerState, p': PartnerState, kind: string, reference: ObjectId, now: Time, sid: string)
    requires Requested(p, p', kind, reference, now, sid) && !IsBroadcast(kind) && KindsMatch(p.subs)
    ensures IsHeld(p'.subs, kind, reference.Key())
  {
    if IsHeld(p.subs, kind, reference.Key()) {
      var s :| Holds(p.subs, s, kind, reference.Key());
      assert Holds(p'.subs, s, kind, reference.Key());
    } else {
      assert sid in p.subs ==> Matched(p.subs[sid]);
      assert Holds(p'.subs, sid, kind, reference.Key());
    }
  }

  /** A subscription goes on holding a resource exactly if the step spares it. */
  lemma HolderStaysIff(p: PartnerState, step: Step, p': PartnerState, sid: string, kind: string, key: string)
    requires Next(p, step, p') && Holds(p.subs, sid, kind, key)
    ensures Holds(p'.subs, sid, kind, key) <==> Spares(p, step, sid, key)
  {
    if step.Ask? {
      SameShellHolds(p.subs, p'.subs);
    } else if step.Guard? {
      SweepIsExact(StatusChecked(p, step.reported).subs, step.now);
    }
  }

  /** The subscription holds the resource, no other of the kind does, and it holds no more
      resources than the maximum. */
  ghost predicate OnlyHolder(p: PartnerState, sid: string, kind: string, key: string) {
    && Holds(p.subs, sid, kind, key)
    && (forall other :: Holds(p.subs, other, kind, key) ==> other == sid)
    && (p.limits.maximumResources >= 1 ==> |p.subs[sid].resources| <= p.limits.maximumResources)
  }

  ghost predicate OnlyHolderAt(states: seq<PartnerState>, n: nat, sid: string, kind: string, key: string)
    requires n < |states|
  {
    OnlyHolder(states[n], sid, kind, key)
  }

  ghost predicate SparedAt(states: seq<PartnerState>, steps: seq<Step>, n: nat, sid: string, key: string)
    requires n < |steps| && |states| == |steps| + 1
  {
    Spares(states[n], steps[n], sid, key)
  }

  lemma HolderIsOnlyHolder(p: PartnerState, sid: string, kind: string, key: string)
    requires Sound(p) && !IsBroadcast(kind) && Holds(p.subs, sid, kind, key)
    ensures OnlyHolder(p, sid, kind, key)
  {
    assert Matched(p.subs[sid]);
  }

  lemma {:induction false} SparedIsOnlyHolder(states: seq<PartnerState>, steps: seq<Step>, m: nat, n: nat,
                                              sid: string, kind: string, key: string)
    requires IsRun(states, steps) && Sound(states[0]) && AllNamed(steps) && m <= n <= |steps|
    requires !IsBroadcast(kind) && Holds(states[m].subs, sid, kind, key)
    requires forall j: nat :: m <= j < n ==> SparedAt(states, steps, j, sid, key)
    ensures OnlyHolderAt(states, n, sid, kind, key)
    decreases n
  {
    SoundInRun(states, steps, n);
    if m < n {
      SparedIsOnlyHolder(states, steps, m, n - 1, sid, kind, key);
      assert StepAt(states, steps, n - 1) && OnlyHolderAt(states, n - 1, sid, kind, key);
      assert SparedAt(states, steps, n - 1, sid, key);
      HolderStaysIff(states[n - 1], steps[n - 1], states[n], sid, kind, key);
    }
    HolderIsOnlyHolder(states[n], sid, kind, key);
  }

  /** Once requested, a resource is held by exactly one subscription of the kind, which holds
      no more resources than the maximum, for as long as the steps spare it and no longer. */
  lemma HeldOnceRequested(states: seq<PartnerState>, steps: seq<Step>, i: nat, n: nat) returns (sid: string)
    requires IsRun(states, steps) && Sound(states[0]) && i < n <= |steps| && steps[i].Request?
    requires AllNamed(steps)
    ensures var kind, key := steps[i].kind, steps[i].reference.Key();
            && OnlyHolderAt(states, i + 1, sid, kind, key)
            && ((forall j: nat :: i < j <= n ==> OnlyHolderAt(states, j, sid, kind, key)) <==>
                (forall j: nat :: i < j < n ==> SparedAt(states, steps, j, sid, key)))
  {
    var kind, key := steps[i].kind, steps[i].reference.Key();
    SoundInRun(states, steps, i);
    assert StepAt(states, steps, i);
    sid := RequestFindsHolder(states[i], steps[i], states[i + 1]);
    SparedIsOnlyHolder(states, steps, i + 1, i + 1, sid, kind, key);
    if forall j: nat :: i < j < n ==> SparedAt(states, steps, j, sid, key) {
      forall j: nat | i < j <= n ensures OnlyHolderAt(states, j, sid, kind, key) {
        SparedIsOnlyHolder(states, steps, i + 1, j, sid, kind, key);
      }
    }
    if forall j: nat :: i < j <= n ==> OnlyHolderAt(states, j, sid, kind, key) {
      forall j: nat | i < j < n ensures SparedAt(states, steps, j, sid, key) {
        assert OnlyHolderAt(states, j, sid, kind, key) && OnlyHolderAt(states, j + 1, sid, kind, key);
        assert StepAt(states, steps, j);
        HolderStaysIff(states[j], steps[j], states[j + 1], sid, kind, key);
      }
    }
  }

  lemma RequestFindsHolder(p: PartnerState, step: Step, p': PartnerState) returns (sid: string)
    requires Sound(p) && Next(p, step, p') && step.Request?
    ensures Holds(p'.subs, sid, step.kind, step.reference.Key()) && !IsBroadcast(step.kind)
  {
    CollectKinds();
    RequestIsHeld(p, p', step.kind, step.reference, step.now, step.sid);
    sid :| Holds(p'.subs, sid, step.kind, step.reference.Key());
  }

  /** The partner has confirmed the resource, and its time is over. */
  predicate HasEnded(resource: Resource, now: Time) {
    resource.subscribedAt != 0 && resource.subscribedUntil < now
  }

  /** A request that finds no holder opens a new subscription exactly if none of its kind may
      take the resource: a maximum of one gives every resource its own, and any other maximum
      has to be reached by all of them. */
  lemma NewSubscriptionOnlyWhenFull(p: PartnerState, p': PartnerState, kind: string, reference: ObjectId, now: Time,
                                    sid: string)
    requires Requested(p, p', kind, reference, now, sid) && !IsHeld(p.subs, kind, reference.Key())
    ensures var maximum := p.limits.maximumResources;
            if sid in p.subs
            then p.subs[sid].kind == kind && maximum != 1 && (maximum < 1 || |p.subs[sid].resources| < maximum)
            else maximum == 1
                 || forall s :: s in p.subs && p.subs[s].kind == kind ==>
                      maximum >= 1 && |p.subs[s].resources| >= maximum
    ensures p'.subs.Keys == p.subs.Keys + {sid} && forall s :: s in p.subs && s != sid ==> p'.subs[s] == p.subs[s]
    ensures p'.subs[sid].kind == kind && (sid !in p.subs ==> p'.subs[sid].externalId == "")
  {
    if sid !in p.subs && p.limits.maximumResources != 1 {
      forall s | s in p.subs && p.subs[s].kind == kind
        ensures p.limits.maximumResources >= 1 && |p.subs[s].resources| >= p.limits.maximumResources
      {
        assert !HasRoom(p.subs[s], kind, p.limits.maximumResources);
      }
    }
  }

  /** A subscription request files its resource under the name, in a broadcast subscription if
      there is none yet; what it asks for takes the place of what was asked before. */
  lemma SubscribeTells(p: PartnerState, p': PartnerState, externalId: string, resource: Resource,
                       options: map<string, string>, sid: string)
    requires Subscribed(p, p', externalId, resource, options, sid)
    ensures p'.subs.Keys == p.subs.Keys + {sid} && forall s :: s in p.subs && s != sid ==> p'.subs[s] == p.subs[s]
    ensures var after := p'.subs[sid];
            var before := if sid in p.subs then p.subs[sid]
                else EmptySubscription("StopMonitoringBroadcast", externalId);
            && after.kind == before.kind && after.externalId == externalId
            && (forall key :: key in after.resources <==>
                  key in before.resources || key == resource.reference.kind + ":" + resource.reference.value)
            && (forall key :: key in after.resources ==>
                  after.resources[key] ==
                  if key == resource.reference.kind + ":" + resource.reference.value then resource
                  else before.resources[key])
            && (forall name :: name in after.options <==> name in before.options || name in options)
            && (forall name :: name in after.options ==>
                  after.options[name] == if name in options then options[name] else before.options[name])
    ensures sid !in p.subs ==> forall s :: s in p.subs ==> p.subs[s].externalId != externalId
  {
  }

  /** A redefinition keeps the start that was told, and makes a discovery due. */
  lemma RedefinitionForgets(p: PartnerState, step: Step, p': PartnerState)
    requires Next(p, step, p') && step.Redefine?
    ensures p'.subs == map[] && p'.limits == step.limits && p'.lastDiscovery == 0
    ensures p'.status.operationnalStatus.Unknown? && p'.status.serviceStartedAt == p.status.serviceStartedAt
  {
  }

  /** A subscription is listed as a broadcast exactly if its kind ends so. */
  lemma BroadcastsEndSo(subs: Table, sid: string)
    ensures Found(subs, Broadcasts, sid) <==> sid in subs && exists prefix :: subs[sid].kind == prefix + "Broadcast"
  {
    if Found(subs, Broadcasts, sid) {
      var kind := subs[sid].kind;
      assert kind == kind[..|kind| - 9] + kind[|kind| - 9..];
      assert kind == kind[..|kind| - 9] + "Broadcast";
    }
    if sid in subs && exists prefix :: subs[sid].kind == prefix + "Broadcast" {
      var prefix :| subs[sid].kind == prefix + "Broadcast";
      assert |"Broadcast"| == 9;
      assert (prefix + "Broadcast")[|prefix|..] == "Broadcast";
    }
  }

  /** The sweep removes exactly the confirmed resources that have expired, and leaves no
      subscription empty. */
  lemma SweepIsExact(subs: Table, now: Time)
    ensures forall sid, key :: ResourceAt(Swept(subs, now), sid, key) ==
              if HasResource(subs, sid, key) && HasEnded(subs[sid].resources[key], now) then None
              else ResourceAt(subs, sid, key)
    ensures forall sid :: sid in Swept(subs, now) ==> Swept(subs, now)[sid].resources != map[]
    ensures forall sid :: sid in Swept(subs, now) ==>
              && sid in subs && Swept(subs, now)[sid].kind == subs[sid].kind
              && Swept(subs, now)[sid].externalId == subs[sid].externalId
  {
    forall sid, key
      ensures ResourceAt(Swept(subs, now), sid, key) ==
              if HasResource(subs, sid, key) && HasEnded(subs[sid].resources[key], now) then None
              else ResourceAt(subs, sid, key)
    {
      if HasResource(subs, sid, key) && !Expired(subs[sid].resources[key], now) {
        assert key in Kept(subs[sid].resources, now);
        assert sid in Swept(subs, now);
      }
    }
  }

  /** A request holds the resource for two minutes, unless it is held and not confirmed yet. */
  lemma RequestHoldsForTwoMinutes(p: PartnerState, p': PartnerState, kind: string, reference: ObjectId, now: Time,
                                  sid: string, holder: string)
    requires Requested(p, p', kind, reference, now, sid) && Holds(p'.subs, holder, kind, reference.Key())
    ensures var after := p'.subs[holder].resources[reference.Key()];
            if !HasResource(p.subs, holder, reference.Key())
            then after == Resource(reference, 0, 0, now + 120_000_000_000, map[])
            else var before := p.subs[holder].resources[reference.Key()];
                 after == if before.subscribedAt == 0 then before
                          else before.(subscribedUntil := now + 120_000_000_000)
  {
    if IsHeld(p.subs, kind, reference.Key()) {
      assert Holds(p.subs, holder, kind, reference.Key());
    } else {
      assert !Holds(p.subs, holder, kind, reference.Key());
    }
  }

  /** A confirmed resource that is requested again survives every sweep for two minutes. */
  lemma RequestRenews(p: PartnerState, p': PartnerState, kind: string, reference: ObjectId, now: Time, sid: string,
                      holder: string, later: Time)
    requires Requested(p, p', kind, reference, now, sid) && Holds(p.subs, holder, kind, reference.Key())
    requires later <= now + 120_000_000_000
    ensures Holds(Swept(p'.subs, later), holder, kind, reference.Key())
  {
    SweepIsExact(p'.subs, later);
    assert IsHeld(p.subs, kind, reference.Key());
    assert !Expired(p'.subs[holder].resources[reference.Key()], later);
    assert ResourceAt(Swept(p'.subs, later), holder, reference.Key()).Some?;
  }

  // ---------------------------------------------------------------- retries

  /** The messages of the step that ask for the resource. */
  predicate Asks(step: Step, sid: string, key: string) {
    step.Ask? && exists m :: m in step.requests && AsksFor(step.requests, m, sid, key)
  }

  predicate Accepts(step: Step, sid: string, key: string) {
    step.Ask? && exists m :: m in step.requests && AsksFor(step.requests, m, sid, key) && Accepted(step.response, m)
  }

  /** Whatever the partner answers, or if it does not, each resource that was asked for is
      accounted for exactly once: it is confirmed, with no retries, or pending with one more;
      all other resources are as they were. */
  lemma AskAccountsOnce(p: PartnerState, step: Step, p': PartnerState, sid: string, key: string)
    requires Next(p, step, p') && step.Ask? && HasResource(p.subs, sid, key)
    ensures HasResource(p'.subs, sid, key)
    ensures var before, after := p.subs[sid].resources[key], p'.subs[sid].resources[key];
            if Accepts(step, sid, key) then after == before.(subscribedAt := step.now, retryCount := 0)
            else if Asks(step, sid, key) then after == before.(retryCount := before.retryCount + 1)
            else after == before
    ensures Asks(step, sid, key) <==>
            && p.subs[sid].kind == "StopMonitoringCollect"
            && p.subs[sid].resources[key].subscribedAt == 0 && p.subs[sid].resources[key].retryCount <= 10
  {
    SameShellHolds(p.subs, p'.subs);
    assert Holds(p.subs, sid, p.subs[sid].kind, key);
    var verdicts := Verdicts(step.requests, step.response);
    assert Asked(step.requests, sid, key) <==> ToRequest(p.subs, sid, key);
    if Asks(step, sid, key) {
      var m :| m in step.requests && AsksFor(step.requests, m, sid, key);
      assert m in verdicts && verdicts[m] == Accepted(step.response, m);
      assert Accepts(step, sid, key) ==> Accepted(step.response, m);
      assert ResourceAt(p'.subs, sid, key) == OutcomeAt(p.subs, sid, key, verdicts[m], step.now);
    } else {
      assert !Decided(step.requests, verdicts, sid, key);
      assert ResourceAt(p'.subs, sid, key) == ResourceAt(p.subs, sid, key);
    }
  }

  /** Nothing else changes the count of a resource that stays. */
  lemma OtherStepsKeepRetries(p: PartnerState, step: Step, p': PartnerState, sid: string, key: string)
    requires Next(p, step, p') && Named(step) && !step.Ask?
    requires Holds(p.subs, sid, STOP_MONITORING_COLLECT, key) && HasResource(p'.subs, sid, key) && Matched(p.subs[sid])
    ensures Holds(p'.subs, sid, STOP_MONITORING_COLLECT, key)
    ensures p'.subs[sid].resources[key].retryCount == p.subs[sid].resources[key].retryCount
    ensures p'.subs[sid].resources[key].subscribedAt == p.subs[sid].resources[key].subscribedAt
  {
    CollectKinds();
    match step
    case Request(kind, reference, now, other) =>
      if !IsHeld(p.subs, kind, reference.Key()) {
        assert other == sid ==> kind == STOP_MONITORING_COLLECT && reference.Key() != key;
      }
    case Guard(reported, now, _) =>
      CheckIsLess(p, reported);
      SweptIsLess(StatusChecked(p, reported).subs, now);
      LessTransitive(Swept(StatusChecked(p, reported).subs, now), StatusChecked(p, reported).subs, p.subs);
      assert Less(p'.subs, p.subs);
    case Subscribe(externalId, resource, options, other) =>
      assert other != sid;
    case _ =>
  }

  /** How many of the first `n` steps ask for the resource. */
  function TimesAsked(steps: seq<Step>, sid: string, key: string, n: nat): nat
    requires n <= |steps|
  {
    if n == 0 then 0 else TimesAsked(steps, sid, key, n - 1) + Once(Asks(steps[n - 1], sid, key))
  }

  function Once(b: bool): nat {
    if b then 1 else 0
  }

  function Retries(p: PartnerState, sid: string, key: string): int {
    if HasResource(p.subs, sid, key) then p.subs[sid].resources[key].retryCount else 0
  }

  ghost predicate NeverAccepts(steps: seq<Step>, sid: string, key: string) {
    forall step :: step in steps ==> !Accepts(step, sid, key)
  }

  ghost predicate HeldThroughout(states: seq<PartnerState>, n: nat, sid: string, key: string) {
    n < |states| && forall i: nat :: i <= n ==> HeldIn(states[i], sid, key)
  }

  ghost predicate HeldIn(p: PartnerState, sid: string, key: string) {
    HasResource(p.subs, sid, key)
  }

  /** Over every run in which the resource stays and is never accepted, the count says how
      often it was asked for. */
  lemma RetriesCountAsks(states: seq<PartnerState>, steps: seq<Step>, sid: string, key: string, n: nat)
    requires IsRun(states, steps) && Sound(states[0]) && n <= |steps|
    requires AllNamed(steps) && NeverAccepts(steps, sid, key)
    requires Holds(states[0].subs, sid, STOP_MONITORING_COLLECT, key)
    requires HeldThroughout(states, n, sid, key)
    ensures Retries(states[n], sid, key) == Retries(states[0], sid, key) + TimesAsked(steps, sid, key, n)
  {
    forall i: nat | i <= n ensures MatchedIn(states[i], sid) {
      SoundInRun(states, steps, i);
    }
    forall i: nat | i < n ensures CountsAt(states, steps, sid, key, i) {
      CollectsInRun(states, steps, sid, key, i);
      assert HeldIn(states[i + 1], sid, key) && MatchedIn(states[i], sid);
      CountInRun(states, steps, sid, key, i);
    }
    CountsAdd(states, steps, sid, key, n);
  }

  predicate MatchedIn(p: PartnerState, sid: string) {
    sid in p.subs ==> Matched(p.subs[sid])
  }

  ghost predicate CountsAt(states: seq<PartnerState>, steps: seq<Step>, sid: string, key: string, i: nat) {
    i < |steps| && i + 1 < |states|
        && Retries(states[i + 1], sid, key) == Retries(states[i], sid, key) + Once(Asks(steps[i], sid, key))
  }

  lemma {:induction false} CountsAdd(states: seq<PartnerState>, steps: seq<Step>, sid: string, key: string, n: nat)
    requires n <= |steps| && |states| == |steps| + 1
    requires forall i: nat :: i < n ==> CountsAt(states, steps, sid, key, i)
    ensures Retries(states[n], sid, key) == Retries(states[0], sid, key) + TimesAsked(steps, sid, key, n)
  {
    if n > 0 {
      CountsAdd(states, steps, sid, key, n - 1);
      assert CountsAt(states, steps, sid, key, n - 1);
    }
  }

  lemma {:induction false} CollectsInRun(states: seq<PartnerState>, steps: seq<Step>, sid: string, key: string, n: nat)
    requires IsRun(states, steps) && n <= |steps|
    requires AllNamed(steps) && NeverAccepts(steps, sid, key)
    requires Holds(states[0].subs, sid, STOP_MONITORING_COLLECT, key)
    requires forall i: nat :: i <= n ==> HeldIn(states[i], sid, key)
    requires forall i: nat :: i <= n ==> MatchedIn(states[i], sid)
    ensures Holds(states[n].subs, sid, STOP_MONITORING_COLLECT, key)
  {
    if n > 0 {
      CollectsInRun(states, steps, sid, key, n - 1);
      assert HeldIn(states[n], sid, key) && MatchedIn(states[n - 1], sid);
      CountInRun(states, steps, sid, key, n - 1);
    }
  }

  lemma CountInRun(states: seq<PartnerState>, steps: seq<Step>, sid: string, key: string, i: nat)
    requires IsRun(states, steps) && AllNamed(steps) && i < |steps|
    requires NeverAccepts(steps, sid, key) && HeldIn(states[i + 1], sid, key) && MatchedIn(states[i], sid)
    requires Holds(states[i].subs, sid, STOP_MONITORING_COLLECT, key)
    ensures Holds(states[i + 1].subs, sid, STOP_MONITORING_COLLECT, key)
    ensures Retries(states[i + 1], sid, key) == Retries(states[i], sid, key) + Once(Asks(steps[i], sid, key))
  {
    assert steps[i] in steps;
    assert StepAt(states, steps, i);
    StepCountsAsk(states[i], steps[i], states[i + 1], sid, key);
  }

  lemma StepCountsAsk(p: PartnerState, step: Step, p': PartnerState, sid: string, key: string)
    requires Next(p, step, p') && Named(step) && !Accepts(step, sid, key)
    requires Holds(p.subs, sid, STOP_MONITORING_COLLECT, key) && HasResource(p'.subs, sid, key) && Matched(p.subs[sid])
    ensures Holds(p'.subs, sid, STOP_MONITORING_COLLECT, key)
    ensures p'.subs[sid].resources[key].retryCount == p.subs[sid].resources[key].retryCount
            + if Asks(step, sid, key) then 1 else 0
  {
    if step.Ask? {
      AskAccountsOnce(p, step, p', sid, key);
      SameShellHolds(p.subs, p'.subs);
    } else {
      OtherStepsKeepRetries(p, step, p', sid, key);
    }
  }

  /** No count exceeds eleven, so a resource that stays and is never accepted is asked for
      eleven times at most. */
  lemma AskedElevenTimesAtMost(states: seq<PartnerState>, steps: seq<Step>, sid: string, key: string, n: nat)
    requires IsRun(states, steps) && Sound(states[0]) && n <= |steps|
    requires AllNamed(steps) && NeverAccepts(steps, sid, key)
    requires Holds(states[0].subs, sid, STOP_MONITORING_COLLECT, key)
    requires HeldThroughout(states, n, sid, key)
    ensures Retries(states[n], sid, key) <= 11
    ensures TimesAsked(steps, sid, key, n) <= 11
  {
    RetriesCountAsks(states, steps, sid, key, n);
    SoundInRun(states, steps, n);
    assert SoundResource(key, states[n].subs[sid].resources[key])
        && SoundResource(key, states[0].subs[sid].resources[key]);
  }

  /** How many of the first `n` steps ask the partner at all. */
  function Exchanges(steps: seq<Step>, n: nat): nat
    requires n <= |steps|
  {
    if n == 0 then 0 else Exchanges(steps, n - 1) + Once(steps[n - 1].Ask?)
  }

  ghost predicate StaysPending(p: PartnerState, sid: string, key: string) {
    && sid in p.subs && p.subs[sid].kind == "StopMonitoringCollect" && key in p.subs[sid].resources
    && p.subs[sid].resources[key].subscribedAt == 0
  }

  /** A pending resource that stays and is never accepted is asked for in every exchange until
      it was asked for eleven times, and in none after. */
  lemma {:induction false} AskedInEveryExchangeUntilEleven(states: seq<PartnerState>, steps: seq<Step>, sid: string,
                                                           key: string, n: nat)
    requires IsRun(states, steps) && Sound(states[0]) && n <= |steps|
    requires AllNamed(steps) && NeverAccepts(steps, sid, key)
    requires StaysPending(states[0], sid, key) && Retries(states[0], sid, key) == 0
    requires HeldThroughout(states, n, sid, key)
    ensures StaysPending(states[n], sid, key)
    ensures Retries(states[n], sid, key) == if Exchanges(steps, n) <= 11 then Exchanges(steps, n) else 11
    ensures TimesAsked(steps, sid, key, n) == if Exchanges(steps, n) <= 11 then Exchanges(steps, n) else 11
  {
    if n > 0 {
      AskedInEveryExchangeUntilEleven(states, steps, sid, key, n - 1);
      PendingInRun(states, steps, sid, key, n - 1);
    }
  }

  lemma PendingInRun(states: seq<PartnerState>, steps: seq<Step>, sid: string, key: string, n: nat)
    requires IsRun(states, steps) && Sound(states[0]) && n < |steps|
    requires AllNamed(steps) && NeverAccepts(steps, sid, key)
    requires StaysPending(states[n], sid, key) && HeldThroughout(states, n + 1, sid, key)
    ensures StaysPending(states[n + 1], sid, key)
    ensures Asks(steps[n], sid, key) <==> steps[n].Ask? && Retries(states[n], sid, key) <= 10
    ensures Retries(states[n + 1], sid, key) == Retries(states[n], sid, key) + Once(Asks(steps[n], sid, key))
  {
    SoundInRun(states, steps, n);
    assert steps[n] in steps;
    assert StepAt(states, steps, n) && Named(steps[n]) && HeldIn(states[n + 1], sid, key);
    assert Matched(states[n].subs[sid]);
    PendingStep(states[n], steps[n], states[n + 1], sid, key);
  }

  lemma PendingStep(p: PartnerState, step: Step, p': PartnerState, sid: string, key: string)
    requires Next(p, step, p') && Named(step) && !Accepts(step, sid, key)
    requires StaysPending(p, sid, key) && HasResource(p'.subs, sid, key) && Matched(p.subs[sid])
    ensures StaysPending(p', sid, key)
    ensures Asks(step, sid, key) <==> step.Ask? && Retries(p, sid, key) <= 10
    ensures Retries(p', sid, key) == Retries(p, sid, key) + Once(Asks(step, sid, key))
  {
    if step.Ask? {
      AskAccountsOnce(p, step, p', sid, key);
      SameShellHolds(p.subs, p'.subs);
      assert Holds(p.subs, sid, STOP_MONITORING_COLLECT, key);
    } else {
      OtherStepsKeepRetries(p, step, p', sid, key);
    }
  }

  // ---------------------------------------------------------------- cancellation

  /** The two cancellations share out the table: what one deletes is what the other leaves. */
  lemma CancellationsPartition(subs: Table)
    ensures CollectOnly(subs) + BroadcastOnly(subs) == subs
    ensures CollectOnly(subs).Keys !! BroadcastOnly(subs).Keys
    ensures KindsMatch(subs) ==>
              forall sid :: sid in subs ==>
                && (sid in BroadcastOnly(subs) <==> IsBroadcast(subs[sid].kind))
                && (sid in CollectOnly(subs) <==> !IsBroadcast(subs[sid].kind))
  {
    forall sid | sid in subs && KindsMatch(subs) ensures IsBroadcast(subs[sid].kind) <==> subs[sid].externalId != "" {
      assert Matched(subs[sid]);
    }
  }

  /** A cancellation of all lists exactly the subscriptions it deletes if and only if kinds and
      external identifiers tell the same of every subscription. */
  lemma ListedIffDeleted(subs: Table, ids: seq<string>)
    requires Finds(subs, Broadcasts, ids)
    ensures (forall sid :: sid in ids <==> sid in subs && sid !in CollectOnly(subs)) <==> KindsMatch(subs)
  {
    forall sid ensures sid in ids <==> sid in subs && IsBroadcast(subs[sid].kind) {
      assert sid in ids <==> Found(subs, Broadcasts, sid);
    }
    forall sid | sid in subs ensures Matched(subs[sid]) <==> (sid in ids <==> sid !in CollectOnly(subs)) {
    }
  }

  /** In every run of the handlers the response to a cancellation of all lists exactly the
      deleted subscriptions, each once. */
  lemma CancelAllListsDeleted(states: seq<PartnerState>, steps: seq<Step>, n: nat, ids: seq<string>)
    requires IsRun(states, steps) && Sound(states[0]) && n < |steps| && steps[n].CancelAll?
    requires AllNamed(steps)
    requires Finds(states[n].subs, Broadcasts, ids)
    ensures NoDuplicates(ids) && forall sid :: sid in ids <==> sid in states[n].subs && sid !in states[n + 1].subs
  {
    SoundInRun(states, steps, n);
    assert StepAt(states, steps, n);
    ListedIffDeleted(states[n].subs, ids);
  }

  /** A cancellation of one deletes the one subscription of that name. */
  lemma CancelOneIsExact(p: PartnerState, p': PartnerState, externalId: string, found: Option<string>)
    requires Sound(p) && externalId != "" && Cancelled(p, p', externalId, found)
    ensures Unnamed(p'.subs, externalId)
    ensures forall sid :: sid in p.subs && p.subs[sid].externalId != externalId ==>
            sid in p'.subs && p'.subs[sid] == p.subs[sid]
    ensures found.None? <==> Unnamed(p.subs, externalId)
  {
  }

  /** A subscription request keeps kinds and identifiers matched if and only if it names a
      subscription, or a subscription without a name is taken for it. */
  lemma SubscribeKeepsKindsIff(p: PartnerState, p': PartnerState, externalId: string, resource: Resource,
                               options: map<string, string>, sid: string)
    requires KindsMatch(p.subs) && Subscribed(p, p', externalId, resource, options, sid)
    ensures KindsMatch(p'.subs) <==> externalId != "" || sid in p.subs
  {
    assert sid in p'.subs;
    assert IsBroadcast(STOP_MONITORING_BROADCAST);
    assert sid in p.subs ==> Matched(p.subs[sid]);
    forall s | s in p'.subs && s != sid ensures Matched(p'.subs[s]) {
      assert Matched(p.subs[s]);
    }
    if KindsMatch(p'.subs) {
      assert Matched(p'.subs[sid]);
    }
  }

  /** With an empty identifier, a partner that is down gets a subscription that counts as a
      collect subscription, and a cancellation of all lists it but leaves it. */
  lemma EmptyNameIsNotCancelled(p: PartnerState, resource: Resource, sid: string) returns (p': PartnerState)
    requires p.subs == map[] && p.status.operationnalStatus.Down? && !p.limits.collectPersistent
    requires resource.retryCount == 0
    ensures Next(p, Subscribe("", resource, map[], sid), p') && !NoneLeft(p')
    ensures Found(p'.subs, Broadcasts, sid) && sid in CollectOnly(p'.subs)
  {
    var sub := Filed(EmptySubscription(STOP_MONITORING_BROADCAST, ""), resource);
    assert sub.options + map[] == sub.options;
    p' := p.(subs := map[sid := sub]);
    assert IsBroadcast(STOP_MONITORING_BROADCAST);
    assert sid in p'.subs && p'.subs[sid].externalId == "";
  }
}
