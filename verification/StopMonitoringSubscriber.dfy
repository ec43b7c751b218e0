/** The subscriber asks the partner for the resources that are not confirmed yet, and accounts
    for its answers (core/siri_stop_monitoring_subscriber.go). */
module StopMonitoringSubscriber {
  import opened Common
  import opened Subscription

  /** saToRequest. */
  datatype StopAreaToRequest = StopAreaToRequest(subId: string, saId: ObjectId)

  /** What is asked for, by message identifier. */
  type Requests = map<string, StopAreaToRequest>

  datatype ResponseStatus = ResponseStatus(requestMessageRef: string, status: bool)

  datatype Response = TransportError | Statuses(statuses: seq<ResponseStatus>)

  const MAXIMUM_RETRIES := 10

  predicate Pending(resource: Resource) {
    IsZero(resource.subscribedAt) && resource.retryCount <= MAXIMUM_RETRIES
  }

  predicate ToRequest(subs: Table, sid: string, key: string) {
    Holds(subs, sid, STOP_MONITORING_COLLECT, key) && Pending(subs[sid].resources[key])
  }

  /** The message asks for that resource. */
  predicate AsksFor(requests: Requests, message: string, sid: string, key: string) {
    message in requests && requests[message].subId == sid && requests[message].saId.Key() == key
  }

  /** No two messages ask for one resource. */
  ghost predicate AskOnce(requests: Requests) {
    forall m, n, sid, key :: AsksFor(requests, m, sid, key) && AsksFor(requests, n, sid, key) ==> m == n
  }

  ghost predicate Asked(requests: Requests, sid: string, key: string) {
    exists m :: AsksFor(requests, m, sid, key)
  }

  /** Among the resources looked at, exactly the pending ones are asked for, each once. */
  ghost predicate RequestsFor(subs: Table, requests: Requests, done: set<(string, string)>) {
    && AskOnce(requests)
    && (forall sid, key :: Asked(requests, sid, key) <==> (sid, key) in done && ToRequest(subs, sid, key))
  }

  /** Exactly the pending resources are asked for, each once. */
  ghost predicate RequestsPending(subs: Table, requests: Requests) {
    && AskOnce(requests)
    && (forall sid, key :: Asked(requests, sid, key) <==> ToRequest(subs, sid, key))
  }

  ghost predicate Issued(generator: Generator, n: nat, message: string) {
    exists i: nat :: i < n && generator(i) == message
  }

  /** Resources are filed under their references. */
  ghost predicate KeyedByReference(subs: Table) {
    forall sid, key :: HasResource(subs, sid, key) ==> subs[sid].resources[key].reference.Key() == key
  }

  // ---------------------------------------------------------------- answers

  /** The first status about a message counts. */
  function FirstStatus(statuses: seq<ResponseStatus>, message: string): Option<bool> {
    if statuses == [] then None
    else if statuses[0].requestMessageRef == message then Some(statuses[0].status)
    else FirstStatus(statuses[1..], message)
  }

  lemma {:induction false} FirstStatusOnceAppended(statuses: seq<ResponseStatus>, last: ResponseStatus, message: string)
    ensures FirstStatus(statuses + [last], message) ==
            if FirstStatus(statuses, message).Some? then FirstStatus(statuses, message)
            else if last.requestMessageRef == message then Some(last.status) else None
  {
    if statuses == [] {
      assert statuses + [last] == [last];
    } else {
      FirstStatusOnceAppended(statuses[1..], last, message);
      assert (statuses + [last])[1..] == statuses[1..] + [last];
    }
  }

  predicate Accepted(response: Response, message: string) {
    response.Statuses? && FirstStatus(response.statuses, message) == Some(true)
  }

  /** An accepted resource is confirmed; one that is not will be asked for again. */
  function Outcome(resource: Resource, accepted: bool, now: Time): Resource {
    if accepted then resource.(subscribedAt := now, retryCount := 0)
    else resource.(retryCount := resource.retryCount + 1)
  }

  function OutcomeAt(subs: Table, sid: string, key: string, accepted: bool, now: Time): Option<Resource> {
    match ResourceAt(subs, sid, key)
    case None => None
    case Some(resource) => Some(Outcome(resource, accepted, now))
  }

  /** The tables have the same subscriptions, which hold the same resources. */
  ghost predicate SameShell(a: Table, b: Table) {
    && a.Keys == b.Keys
    && forall sid :: sid in a ==> SameHeader(a[sid], b[sid])
  }

  predicate SameHeader(a: Subscription, b: Subscription) {
    a.kind == b.kind && a.externalId == b.externalId && a.options == b.options && a.resources.Keys == b.resources.Keys
  }

  ghost predicate Decided(requests: Requests, verdicts: map<string, bool>, sid: string, key: string) {
    exists m :: m in verdicts && AsksFor(requests, m, sid, key)
  }

  /** The messages with a verdict have been accounted for, each once; nothing else changed. */
  ghost predicate Accounted(subs: Table, after: Table, requests: Requests, verdicts: map<string, bool>, now: Time) {
    && SameShell(subs, after)
    && (forall m, sid, key :: m in verdicts && AsksFor(requests, m, sid, key) ==>
          ResourceAt(after, sid, key) == OutcomeAt(subs, sid, key, verdicts[m], now))
    && (forall sid, key :: !Decided(requests, verdicts, sid, key) ==>
        ResourceAt(after, sid, key) == ResourceAt(subs, sid, key))
  }

  /** The verdict about every message. */
  ghost function Verdicts(requests: Requests, response: Response): map<string, bool> {
    map m | m in requests :: Accepted(response, m)
  }

  lemma OneMoreAccounted(subs: Table, before: Table, after: Table, requests: Requests, verdicts: map<string, bool>,
                         message: string, accepted: bool, now: Time)
    requires Accounted(subs, before, requests, verdicts, now) && AskOnce(requests)
    requires message in requests && message !in verdicts
    requires var sid, key := requests[message].subId, requests[message].saId.Key();
             after == if HasResource(before, sid, key)
                 then WithResource(before, sid, key, Outcome(before[sid].resources[key], accepted, now)) else before
    ensures Accounted(subs, after, requests, verdicts[message := accepted], now)
  {
    var sid, key := requests[message].subId, requests[message].saId.Key();
    assert AsksFor(requests, message, sid, key);
    assert !Decided(requests, verdicts, sid, key);
    assert ResourceAt(before, sid, key) == ResourceAt(subs, sid, key);
    OtherResources(before, after, sid, key, accepted, now);
    forall s, k ensures !Decided(requests, verdicts[message := accepted], s, k) ==>
        ResourceAt(after, s, k) == ResourceAt(subs, s, k) {
      if Decided(requests, verdicts, s, k) {
        var m :| m in verdicts && AsksFor(requests, m, s, k);
        assert m in verdicts[message := accepted];
      }
    }
    forall m, s, k | m in verdicts[message := accepted] && AsksFor(requests, m, s, k)
      ensures ResourceAt(after, s, k) == OutcomeAt(subs, s, k, verdicts[message := accepted][m], now)
    {
    }
  }

  lemma OtherResources(before: Table, after: Table, sid: string, key: string, accepted: bool, now: Time)
    requires after == if HasResource(before, sid, key)
             then WithResource(before, sid, key, Outcome(before[sid].resources[key], accepted, now)) else before
    ensures SameShell(before, after)
    ensures ResourceAt(after, sid, key) == OutcomeAt(before, sid, key, accepted, now)
    ensures forall s, k :: (s, k) != (sid, key) ==> ResourceAt(after, s, k) == ResourceAt(before, s, k)
  {
  }

  class StopMonitoringSubscriber {
    const subscriptions: MemorySubscriptions

    constructor (subscriptions: MemorySubscriptions)
      ensures this.subscriptions == subscriptions
    {
      this.subscriptions := subscriptions;
    }

    /** The requests for the pending resources. That resources are filed under their references
        holds in every run of the partner (PartnerRuns.SoundInRun). */
    method StopAreasToRequest(generator: Generator) returns (requests: Requests)
      requires KeyedByReference(subscriptions.byIdentifier) && Distinct(generator)
      ensures RequestsPending(subscriptions.byIdentifier, requests)
    {
      requests := map[];
      var n: nat := 0;
      ghost var done := {};
      ghost var subs := subscriptions.byIdentifier;
      var found := Select(subscriptions.byIdentifier, OfKind(STOP_MONITORING_COLLECT));
      for i := 0 to |found|
        invariant RequestsFor(subs, requests, done)
        invariant forall m :: m in requests ==> Issued(generator, n, m)
        invariant forall sid, key :: (sid, key) in done <==> sid in found[..i] && HasResource(subs, sid, key)
      {
        assert found[i] in found && Found(subs, OfKind(STOP_MONITORING_COLLECT), found[i]);
        assert found[..i + 1] == found[..i] + [found[i]] && found[i] !in found[..i];
        requests, n, done := SubscriptionRequests(found[i], generator, requests, n, done);
      }
      assert found[..|found|] == found;
      forall sid, key ensures ToRequest(subs, sid, key) ==> (sid, key) in done {
        assert ToRequest(subs, sid, key) ==> Found(subs, OfKind(STOP_MONITORING_COLLECT), sid);
      }
    }

    /** The inner loop: the resources of one subscription. */
    method SubscriptionRequests(sid: string, generator: Generator, requests: Requests, n: nat,
                                ghost done: set<(string, string)>)
      returns (requests': Requests, n': nat, ghost done': set<(string, string)>)
      requires KeyedByReference(subscriptions.byIdentifier) && Distinct(generator)
      requires sid in subscriptions.byIdentifier && subscriptions.byIdentifier[sid].kind == STOP_MONITORING_COLLECT
      requires RequestsFor(subscriptions.byIdentifier, requests, done)
      requires forall m :: m in requests ==> Issued(generator, n, m)
      requires forall key :: (sid, key) !in done
      ensures RequestsFor(subscriptions.byIdentifier, requests', done')
      ensures forall m :: m in requests' ==> Issued(generator, n', m)
      ensures forall s, key :: (s, key) in done' <==>
              (s, key) in done || (s == sid && HasResource(subscriptions.byIdentifier, sid, key))
    {
      requests', n', done' := requests, n, done;
      ghost var subs := subscriptions.byIdentifier;
      var resources := subscriptions.byIdentifier[sid].resources;
      var keys := Enumerate(resources.Keys);
      for i := 0 to |keys|
        invariant RequestsFor(subs, requests', done')
        invariant forall m :: m in requests' ==> Issued(generator, n', m)
        invariant forall s, key :: (s, key) in done' <==> (s, key) in done || (s == sid && key in keys[..i])
      {
        var key := keys[i];
        assert key in resources.Keys && HasResource(subs, sid, key);
        assert keys[..i + 1] == keys[..i] + [key] && key !in keys[..i];
        if Pending(resources[key]) {
          NotIssued(generator, n', requests');
          OneMoreRequest(subs, requests', done', sid, key, generator(n'));
          requests' := requests'[generator(n') := StopAreaToRequest(sid, resources[key].reference)];
          n' := n' + 1;
          StillIssued(generator, n' - 1, requests');
        } else {
          NoMoreRequest(subs, requests', done', sid, key);
        }
        done' := done' + {(sid, key)};
      }
      assert keys[..|keys|] == keys;
      forall key ensures key in keys <==> HasResource(subs, sid, key) {
        assert key in resources.Keys <==> HasResource(subs, sid, key);
      }
    }

    /** The handling of one status of the response. */
    method HandleStatus(status: ResponseStatus, requests: Requests, now: Time, ghost subs: Table,
                        ghost all: Requests, ghost verdicts: map<string, bool>)
      returns (requests': Requests, ghost verdicts': map<string, bool>)
      requires AskOnce(all) && Accounted(subs, subscriptions.byIdentifier, all, verdicts, now)
      requires requests == all - verdicts.Keys
      modifies subscriptions
      ensures verdicts' == if status.requestMessageRef in requests
              then verdicts[status.requestMessageRef := status.status] else verdicts
      ensures Accounted(subs, subscriptions.byIdentifier, all, verdicts', now)
      ensures requests' == all - verdicts'.Keys
    {
      requests', verdicts' := requests, verdicts;
      if status.requestMessageRef !in requests {
        return;
      }
      var requested := requests[status.requestMessageRef];
      requests' := requests - {status.requestMessageRef};
      verdicts' := verdicts[status.requestMessageRef := status.status];
      OneMoreAccounted(subs, subscriptions.byIdentifier,
                       After(subscriptions.byIdentifier, requested, status.status, now), all, verdicts,
                       status.requestMessageRef, status.status, now);
      SetOutcome(requested, status.status, now);
    }

    static function After(subs: Table, requested: StopAreaToRequest, accepted: bool, now: Time): Table {
      if HasResource(subs, requested.subId, requested.saId.Key())
      then WithResource(subs, requested.subId, requested.saId.Key(),
                        Outcome(subs[requested.subId].resources[requested.saId.Key()], accepted, now))
      else subs
    }

    /** The resource, if it is still there, is updated in place. */
    method SetOutcome(requested: StopAreaToRequest, accepted: bool, now: Time)
      modifies subscriptions
      ensures subscriptions.byIdentifier == After(old(subscriptions.byIdentifier), requested, accepted, now)
    {
      if requested.subId !in subscriptions.byIdentifier {
        return;
      }
      var sub := subscriptions.byIdentifier[requested.subId];
      if requested.saId.Key() !in sub.resources {
        return;
      }
      var resource := sub.resources[requested.saId.Key()];
      if !accepted {
        subscriptions.SetResource(requested.subId, requested.saId.Key(),
                                  resource.(retryCount := resource.retryCount + 1));
        return;
      }
      subscriptions.SetResource(requested.subId, requested.saId.Key(), resource.(subscribedAt := now, retryCount := 0));
    }

    /** incrementRetryCountFromMap. */
    method IncrementRetryCountFromMap(requests: Requests, now: Time, ghost subs: Table, ghost all: Requests,
                                      ghost verdicts: map<string, bool>)
      returns (ghost verdicts': map<string, bool>)
      requires AskOnce(all) && Accounted(subs, subscriptions.byIdentifier, all, verdicts, now)
      requires requests == all - verdicts.Keys
      modifies subscriptions
      ensures Accounted(subs, subscriptions.byIdentifier, all, verdicts', now)
      ensures forall m :: m in verdicts' <==> m in verdicts || m in requests
      ensures forall m :: m in verdicts' ==> verdicts'[m] == (m in verdicts && verdicts[m])
    {
      verdicts' := verdicts;
      var messages := Enumerate(requests.Keys);
      for i := 0 to |messages|
        invariant Accounted(subs, subscriptions.byIdentifier, all, verdicts', now)
        invariant forall m :: m in verdicts' <==> m in verdicts || m in messages[..i]
        invariant forall m :: m in verdicts' ==> verdicts'[m] == (m in verdicts && verdicts[m])
      {
        var message := messages[i];
        assert message in requests.Keys && messages[..i + 1] == messages[..i] + [message] && message !in messages[..i];
        OneMoreAccounted(subs, subscriptions.byIdentifier,
                         After(subscriptions.byIdentifier, requests[message], false, now), all, verdicts',
                         message, false, now);
        SetOutcome(requests[message], false, now);
        verdicts' := verdicts'[message := false];
      }
      assert messages[..|messages|] == messages;
      forall m ensures m in messages <==> m in requests {
        assert m in messages <==> m in requests.Keys;
      }
    }

    /** What becomes of the requests once the partner has answered, or has not, whatever has
        become of the subscriptions in the meantime: each resource that is still there is
        accounted for exactly once. */
    method HandleResponse(requests: Requests, response: Response, now: Time)
      requires AskOnce(requests)
      modifies subscriptions
      ensures Accounted(old(subscriptions.byIdentifier), subscriptions.byIdentifier, requests,
                        Verdicts(requests, response), now)
    {
      ghost var subs := subscriptions.byIdentifier;
      ghost var verdicts: map<string, bool> := map[];
      var remaining := requests;
      if response.Statuses? {
        for i := 0 to |response.statuses|
          invariant Accounted(subs, subscriptions.byIdentifier, requests, verdicts, now)
          invariant remaining == requests - verdicts.Keys
          invariant DecidedBy(requests, verdicts, response.statuses[..i])
        {
          ghost var before := verdicts;
          remaining, verdicts := HandleStatus(response.statuses[i], remaining, now, subs, requests, verdicts);
          assert response.statuses[..i + 1] == response.statuses[..i] + [response.statuses[i]];
          OneMoreDecided(requests, before, response.statuses[..i], response.statuses[i]);
        }
        assert response.statuses[..|response.statuses|] == response.statuses;
      }
      ghost var decided := verdicts;
      verdicts := IncrementRetryCountFromMap(remaining, now, subs, requests, verdicts);
      AllDecided(requests, response, decided, verdicts);
    }

    /** prepareSIRIStopMonitoringSubscriptionRequest, with the answer the partner gives. */
    method PrepareSIRIStopMonitoringSubscriptionRequest(generator: Generator, response: Response,
                                                        now: Time) returns (requests: Requests)
      requires KeyedByReference(subscriptions.byIdentifier) && Distinct(generator)
      modifies subscriptions
      ensures RequestsPending(old(subscriptions.byIdentifier), requests)
      ensures Accounted(old(subscriptions.byIdentifier), subscriptions.byIdentifier, requests,
                        Verdicts(requests, response), now)
    {
      requests := StopAreasToRequest(generator);
      if |requests| == 0 {
        return;
      }
      HandleResponse(requests, response, now);
    }
  }

  lemma NotIssued(generator: Generator, n: nat, requests: Requests)
    requires Distinct(generator) && forall m :: m in requests ==> Issued(generator, n, m)
    ensures generator(n) !in requests
  {
    assert !Issued(generator, n, generator(n));
  }

  lemma StillIssued(generator: Generator, n: nat, requests: Requests)
    requires forall m :: m in requests && m != generator(n) ==> Issued(generator, n, m)
    ensures forall m :: m in requests ==> Issued(generator, n + 1, m)
  {
    forall m | m in requests ensures Issued(generator, n + 1, m) {
      if m != generator(n) {
        var i: nat :| i < n && generator(i) == m;
      }
    }
  }

  lemma OneMoreRequest(subs: Table, requests: Requests, done: set<(string, string)>, sid: string, key: string,
                       message: string)
    requires KeyedByReference(subs) && RequestsFor(subs, requests, done)
    requires ToRequest(subs, sid, key) && (sid, key) !in done && message !in requests
    ensures RequestsFor(subs, requests[message := StopAreaToRequest(sid, subs[sid].resources[key].reference)],
                        done + {(sid, key)})
  {
    var after := requests[message := StopAreaToRequest(sid, subs[sid].resources[key].reference)];
    assert AsksFor(after, message, sid, key);
    assert !Asked(requests, sid, key);
    forall m, s, k ensures AsksFor(after, m, s, k) <==>
        AsksFor(requests, m, s, k) || (m == message && s == sid && k == key) {
    }
    forall s, k ensures Asked(after, s, k) <==> Asked(requests, s, k) || (s == sid && k == key) {
      if Asked(requests, s, k) {
        var m :| AsksFor(requests, m, s, k);
        assert AsksFor(after, m, s, k);
      }
    }
    forall m, n, s, k | AsksFor(after, m, s, k) && AsksFor(after, n, s, k) ensures m == n {
      if s == sid && k == key {
        assert !AsksFor(requests, m, s, k) && !AsksFor(requests, n, s, k);
      }
    }
  }

  lemma NoMoreRequest(subs: Table, requests: Requests, done: set<(string, string)>, sid: string, key: string)
    requires RequestsFor(subs, requests, done) && !ToRequest(subs, sid, key)
    ensures RequestsFor(subs, requests, done + {(sid, key)})
  {
  }

  /** The messages with a status have their first one as verdict. */
  ghost predicate DecidedBy(requests: Requests, verdicts: map<string, bool>, statuses: seq<ResponseStatus>) {
    && (forall m :: m in verdicts <==> m in requests && FirstStatus(statuses, m).Some?)
    && (forall m :: m in verdicts ==> FirstStatus(statuses, m) == Some(verdicts[m]))
  }

  lemma OneMoreDecided(requests: Requests, verdicts: map<string, bool>, statuses: seq<ResponseStatus>,
                       last: ResponseStatus)
    requires DecidedBy(requests, verdicts, statuses)
    ensures DecidedBy(requests,
                      if last.requestMessageRef in requests - verdicts.Keys
                          then verdicts[last.requestMessageRef := last.status] else verdicts,
                      statuses + [last])
  {
    forall m ensures FirstStatus(statuses + [last], m) ==
                     if FirstStatus(statuses, m).Some? then FirstStatus(statuses, m)
                     else if last.requestMessageRef == m then Some(last.status) else None
    {
      FirstStatusOnceAppended(statuses, last, m);
    }
  }

  lemma AllDecided(requests: Requests, response: Response, decided: map<string, bool>, verdicts: map<string, bool>)
    requires if response.Statuses? then DecidedBy(requests, decided, response.statuses) else decided == map[]
    requires forall m :: m in verdicts <==> m in decided || m in requests - decided.Keys
    requires forall m :: m in verdicts ==> verdicts[m] == (m in decided && decided[m])
    ensures verdicts == Verdicts(requests, response)
  {
    forall m ensures m in verdicts <==> m in requests {
    }
    forall m | m in requests ensures verdicts[m] == Accepted(response, m) {
      assert m in verdicts;
    }
  }
}
