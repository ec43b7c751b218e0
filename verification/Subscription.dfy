/** Subscriptions and the resources they hold (core/subscription.go). */
module Subscription {
  import opened Common
  import opened LastStates

  /** `subscribedAt` stays zero until the partner accepts the resource. */
  datatype Resource = Resource(
    reference: ObjectId,
    retryCount: int,
    subscribedAt: Time,
    subscribedUntil: Time,
    lastStates: map<string, LastChange>)

  /** Resources are filed under the key of their reference. */
  datatype Subscription = Subscription(
    kind: string,
    externalId: string,
    resources: map<string, Resource>,
    options: map<string, string>)

  type Table = map<string, Subscription>

  const STOP_MONITORING_BROADCAST := "StopMonitoringBroadcast"
  const STOP_MONITORING_COLLECT := "StopMonitoringCollect"
  const GENERAL_MESSAGE_COLLECT := "GeneralMessageCollect"

  /** strings.HasSuffix(kind, "Broadcast"). */
  predicate IsBroadcast(kind: string) {
    |kind| >= 9 && kind[|kind| - 9..] == "Broadcast"
  }

  function OptionOf(sub: Subscription, name: string): string {
    if name in sub.options then sub.options[name] else ""
  }

  predicate HasResource(subs: Table, sid: string, key: string) {
    sid in subs && key in subs[sid].resources
  }

  function ResourceAt(subs: Table, sid: string, key: string): Option<Resource> {
    if HasResource(subs, sid, key) then Some(subs[sid].resources[key]) else None
  }

  /** The subscription collects, or broadcasts, `key` under that kind. */
  predicate Holds(subs: Table, sid: string, kind: string, key: string) {
    HasResource(subs, sid, key) && subs[sid].kind == kind
  }

  function EmptySubscription(kind: string, externalId: string): Subscription {
    Subscription(kind, externalId, map[], map[])
  }

  /** A resource that no partner has accepted yet, until `until`. */
  function NewResource(reference: ObjectId, until: Time): Resource {
    Resource(reference, 0, ZERO_TIME, until, map[])
  }

  function Filed(sub: Subscription, resource: Resource): Subscription {
    sub.(resources := sub.resources[resource.reference.Key() := resource])
  }

  function WithResource(subs: Table, sid: string, key: string, resource: Resource): Table
    requires HasResource(subs, sid, key)
  {
    subs[sid := subs[sid].(resources := subs[sid].resources[key := resource])]
  }

  /** The room that a subscription of the kind has; a maximum below one is no maximum. */
  predicate HasRoom(sub: Subscription, kind: string, maximum: int) {
    sub.kind == kind && (maximum < 1 || |sub.resources| < maximum)
  }

  /** The subscription that FindOrCreateByKind may answer: one with room, or a new one if
      there is none; with a maximum of one, always a new one. */
  ghost predicate MayAllocate(subs: Table, kind: string, maximum: int, sid: string) {
    if sid in subs then maximum != 1 && HasRoom(subs[sid], kind, maximum)
    else maximum == 1 || NoRoom(subs, kind, maximum)
  }

  function SubscriptionFor(subs: Table, kind: string, sid: string): Subscription {
    if sid in subs then subs[sid] else EmptySubscription(kind, "")
  }

  ghost predicate NoRoom(subs: Table, kind: string, maximum: int) {
    forall sid :: sid in subs ==> !HasRoom(subs[sid], kind, maximum)
  }

  /** What CancelBroadcastSubscriptions, and CancelCollectSubscriptions, leave. */
  function CollectOnly(subs: Table): Table {
    map sid | sid in subs && subs[sid].externalId == "" :: subs[sid]
  }

  function BroadcastOnly(subs: Table): Table {
    map sid | sid in subs && subs[sid].externalId != "" :: subs[sid]
  }

  /** What the finders look for. */
  datatype Search = OfKind(kind: string) | Broadcasts | Holding(key: string, kind: string)
  {
    predicate Matches(sub: Subscription) {
      match this
      case OfKind(kind) => sub.kind == kind
      case Broadcasts => IsBroadcast(sub.kind)
      case Holding(key, kind) => key in sub.resources && sub.kind == kind
    }
  }

  predicate Found(subs: Table, search: Search, sid: string) {
    sid in subs && search.Matches(subs[sid])
  }

  /** `ids` lists the matching subscriptions, each once, in any order. */
  ghost predicate Finds(subs: Table, search: Search, ids: seq<string>) {
    NoDuplicates(ids) && forall sid :: sid in ids <==> Found(subs, search, sid)
  }

  /** The loop of FindSubscriptionsByKind, FindBroadcastSubscriptions and FindByResourceId. */
  method Select(subs: Table, search: Search) returns (ids: seq<string>)
    ensures Finds(subs, search, ids)
  {
    ids := [];
    var all := Enumerate(subs.Keys);
    for i := 0 to |all|
      invariant NoDuplicates(ids)
      invariant forall sid :: sid in ids <==> sid in all[..i] && Found(subs, search, sid)
    {
      assert all[i] in subs.Keys && all[..i + 1] == all[..i] + [all[i]];
      assert all[i] !in all[..i];
      if search.Matches(subs[all[i]]) {
        NoDuplicatesAppend(ids, all[i]);
        ids := ids + [all[i]];
      }
    }
    assert all[..|all|] == all;
    forall sid | Found(subs, search, sid) ensures sid in all {
      assert sid in subs.Keys;
    }
  }

  class MemorySubscriptions {
    var byIdentifier: Table

    constructor ()
      ensures byIdentifier == map[]
    {
      byIdentifier := map[];
    }

    /** New saves the subscription under the identifier the generator gives it. */
    method New(kind: string, id: string)
      modifies this
      ensures byIdentifier == old(byIdentifier)[id := EmptySubscription(kind, "")]
    {
      byIdentifier := byIdentifier[id := EmptySubscription(kind, "")];
    }

    method FindByExternalId(externalId: string) returns (found: Option<string>)
      ensures found.Some? ==> found.value in byIdentifier && byIdentifier[found.value].externalId == externalId
      ensures found.None? ==> forall sid :: sid in byIdentifier ==> byIdentifier[sid].externalId != externalId
    {
      var all := Enumerate(byIdentifier.Keys);
      for i := 0 to |all|
        invariant forall sid :: sid in all[..i] ==> sid in byIdentifier && byIdentifier[sid].externalId != externalId
      {
        assert all[i] in byIdentifier.Keys;
        if byIdentifier[all[i]].externalId == externalId {
          return Some(all[i]);
        }
        assert all[..i + 1] == all[..i] + [all[i]];
      }
      forall sid | sid in byIdentifier ensures byIdentifier[sid].externalId != externalId {
        assert sid in byIdentifier.Keys && all[..|all|] == all;
      }
      return None;
    }

    /** `id` is the identifier given to the subscription if there has to be a new one. */
    method FindOrCreateByKind(kind: string, maximum: int, id: string) returns (sid: string)
      requires id !in byIdentifier
      modifies this
      ensures MayAllocate(old(byIdentifier), kind, maximum, sid)
      ensures byIdentifier == old(byIdentifier)[sid := SubscriptionFor(old(byIdentifier), kind, sid)]
    {
      if maximum == 1 {
        New(kind, id);
        return id;
      }
      var all := Enumerate(byIdentifier.Keys);
      for i := 0 to |all|
        invariant byIdentifier == old(byIdentifier)
        invariant forall sid :: sid in all[..i] ==> sid in byIdentifier && !HasRoom(byIdentifier[sid], kind, maximum)
      {
        assert all[i] in byIdentifier.Keys;
        if HasRoom(byIdentifier[all[i]], kind, maximum) {
          return all[i];
        }
        assert all[..i + 1] == all[..i] + [all[i]];
      }
      forall sid | sid in byIdentifier ensures !HasRoom(byIdentifier[sid], kind, maximum) {
        assert sid in byIdentifier.Keys && all[..|all|] == all;
      }
      New(kind, id);
      return id;
    }

    method SetExternalId(sid: string, externalId: string)
      requires sid in byIdentifier
      modifies this
      ensures byIdentifier == old(byIdentifier)[sid := old(byIdentifier)[sid].(externalId := externalId)]
    {
      byIdentifier := byIdentifier[sid := byIdentifier[sid].(externalId := externalId)];
    }

    method SetSubscriptionOptions(sid: string, options: map<string, string>)
      requires sid in byIdentifier
      modifies this
      ensures byIdentifier == old(byIdentifier)[sid :=
                                                old(byIdentifier)[sid].(options :=
                                                                        old(byIdentifier)[sid].options + options)]
    {
      byIdentifier := byIdentifier[sid := byIdentifier[sid].(options := byIdentifier[sid].options + options)];
    }

    /** AddNewResource, CreateAddNewResource. */
    method AddNewResource(sid: string, resource: Resource)
      requires sid in byIdentifier
      modifies this
      ensures byIdentifier == old(byIdentifier)[sid := Filed(old(byIdentifier)[sid], resource)]
    {
      byIdentifier := byIdentifier[sid := Filed(byIdentifier[sid], resource)];
    }

    /** A resource is changed through its pointer. */
    method SetResource(sid: string, key: string, resource: Resource)
      requires HasResource(byIdentifier, sid, key)
      modifies this
      ensures byIdentifier == WithResource(old(byIdentifier), sid, key, resource)
    {
      byIdentifier := WithResource(byIdentifier, sid, key, resource);
    }

    method DeleteResource(sid: string, key: string)
      requires sid in byIdentifier
      modifies this
      ensures byIdentifier == old(byIdentifier)[sid :=
                                                old(byIdentifier)[sid].(resources :=
                                                                        old(byIdentifier)[sid].resources - {key})]
    {
      byIdentifier := byIdentifier[sid := byIdentifier[sid].(resources := byIdentifier[sid].resources - {key})];
    }

    method DeleteById(id: string)
      modifies this
      ensures byIdentifier == old(byIdentifier) - {id}
    {
      byIdentifier := byIdentifier - {id};
    }

    method CancelSubscriptions()
      modifies this
      ensures byIdentifier == map[]
    {
      var all := Enumerate(byIdentifier.Keys);
      for i := 0 to |all|
        invariant forall sid :: sid in byIdentifier ==> sid in all[i..]
      {
        byIdentifier := byIdentifier - {all[i]};
      }
    }

    method CancelBroadcastSubscriptions()
      modifies this
      ensures byIdentifier == CollectOnly(old(byIdentifier))
    {
      var all := Enumerate(byIdentifier.Keys);
      ghost var before := byIdentifier;
      for i := 0 to |all|
        invariant forall sid :: sid in byIdentifier <==>
                  sid in before && (sid in Prefix(all, i) ==> before[sid].externalId == "")
        invariant forall sid :: sid in byIdentifier ==> byIdentifier[sid] == before[sid]
      {
        assert all[i] in before.Keys && all[i] !in Prefix(all, i);
        PrefixGrows(all, i);
        if byIdentifier[all[i]].externalId != "" {
          byIdentifier := byIdentifier - {all[i]};
        }
      }
      PrefixIsAll(all, before.Keys);
    }

    method CancelCollectSubscriptions()
      modifies this
      ensures byIdentifier == BroadcastOnly(old(byIdentifier))
    {
      var all := Enumerate(byIdentifier.Keys);
      ghost var before := byIdentifier;
      for i := 0 to |all|
        invariant forall sid :: sid in byIdentifier <==>
                  sid in before && (sid in Prefix(all, i) ==> before[sid].externalId != "")
        invariant forall sid :: sid in byIdentifier ==> byIdentifier[sid] == before[sid]
      {
        assert all[i] in before.Keys && all[i] !in Prefix(all, i);
        PrefixGrows(all, i);
        if byIdentifier[all[i]].externalId == "" {
          byIdentifier := byIdentifier - {all[i]};
        }
      }
      PrefixIsAll(all, before.Keys);
    }
  }
}
