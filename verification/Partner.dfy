/** The life cycle of a partner and of its subscriptions: requests of the collectors, checks
    of the guardian, redefinition, and the handlers of subscription requests (core/partner.go,
    core/partner_guardian.go, core/siri_stop_monitoring_subscription_collector.go,
    core/siri_subscription_request_dispatcher.go). */
module Partner {
  import opened Common
  import opened Durations
  import opened Subscription

  datatype OperationnalStatus = Unknown | Up | Down

  datatype PartnerStatus = PartnerStatus(operationnalStatus: OperationnalStatus, serviceStartedAt: Time)

  type Settings = map<string, string>

  /** The settings that matter here, as they are read. */
  datatype Limits = Limits(collectPersistent: bool, broadcastPersistent: bool, filterGeneralMessages: bool,
                           maximumResources: int)

  datatype PartnerState = PartnerState(
    status: PartnerStatus,
    lastDiscovery: Time,
    limits: Limits,
    subs: Table)

  // ---------------------------------------------------------------- settings

  function Setting(settings: Settings, name: string): string {
    if name in settings then settings[name] else ""
  }

  /** strconv.ParseBool; a text that is no boolean counts as false. */
  predicate ParseBool(text: string) {
    text in {"1", "t", "T", "true", "TRUE", "True"}
  }

  /** strconv.Atoi; a text that is no number counts as zero, and a number that does not fit
      as the nearest that does. */
  function Atoi(text: string): int {
    var signed := text != "" && text[0] in {'+', '-'};
    var digits := if signed then text[1..] else text;
    if digits == "" || !AllDigits(digits) then 0
    else
      var number: int := Decimal(digits);
      if signed && text[0] == '-' then (if number <= MAX_INT64 + 1 then -number else -MAX_INT64 - 1)
      else if number <= MAX_INT64 then number else MAX_INT64
  }

  const COLLECT_SUBSCRIPTIONS_PERSISTENT := "collect.subscriptions.persistent"
  const BROADCAST_SUBSCRIPTIONS_PERSISTENT := "broadcast.subscriptions.persistent"
  const COLLECT_FILTER_GENERAL_MESSAGES := "collect.filter_general_messages"
  const SUBSCRIPTIONS_MAXIMUM_RESOURCES := "subscriptions.maximum_resources"

  function Read(settings: Settings): Limits {
    Limits(ParseBool(Setting(settings, COLLECT_SUBSCRIPTIONS_PERSISTENT)),
           ParseBool(Setting(settings, BROADCAST_SUBSCRIPTIONS_PERSISTENT)),
           ParseBool(Setting(settings, COLLECT_FILTER_GENERAL_MESSAGES)),
           Atoi(Setting(settings, SUBSCRIPTIONS_MAXIMUM_RESOURCES)))
  }

  ghost predicate IsTrue(settings: Settings, name: string) {
    name in settings && settings[name] in ["1", "t", "T", "true", "TRUE", "True"]
  }

  function DigitOf(n: nat): char
    requires n < 10
  {
    ('0' as int + n) as char
  }

  /** A number as it is usually written. */
  function InDecimal(n: nat): string {
    if n < 10 then [DigitOf(n)] else InDecimal(n / 10) + [DigitOf(n % 10)]
  }

  lemma {:induction false} DecimalOfInDecimal(n: nat)
    ensures AllDigits(InDecimal(n)) && InDecimal(n) != "" && Decimal(InDecimal(n)) == n
  {
    if n < 10 {
      DecimalOfOneMore("", n);
      assert "" + [DigitOf(n)] == InDecimal(n);
    } else {
      DecimalOfInDecimal(n / 10);
      DecimalOfOneMore(InDecimal(n / 10), n % 10);
    }
  }

  lemma DecimalOfOneMore(digits: string, n: nat)
    requires AllDigits(digits) && n < 10
    ensures AllDigits(digits + [DigitOf(n)]) && Decimal(digits + [DigitOf(n)]) == 10 * Decimal(digits) + n
  {
    assert (digits + [DigitOf(n)])[..|digits|] == digits;
  }

  predicate MaximumIs(settings: Settings, n: nat) {
    "subscriptions.maximum_resources" in settings && settings["subscriptions.maximum_resources"] == InDecimal(n)
  }

  /** Which settings the limits come from. */
  lemma SettingsAreRead(settings: Settings)
    ensures Read(settings).collectPersistent <==> IsTrue(settings, "collect.subscriptions.persistent")
    ensures Read(settings).broadcastPersistent <==> IsTrue(settings, "broadcast.subscriptions.persistent")
    ensures Read(settings).filterGeneralMessages <==> IsTrue(settings, "collect.filter_general_messages")
    ensures "subscriptions.maximum_resources" !in settings ==> Read(settings).maximumResources == 0
    ensures forall n: nat :: n <= MAX_INT64 && MaximumIs(settings, n) ==>
              Read(settings).maximumResources == n
  {
    forall n: nat | n <= MAX_INT64 && MaximumIs(settings, n)
      ensures Read(settings).maximumResources == n
    {
      DecimalOfInDecimal(n);
      assert InDecimal(n)[0] in InDecimal(n);
    }
  }

  // ---------------------------------------------------------------- requests of the collectors

  const REQUEST_DURATION: int := 2 * MINUTE

  /** A confirmed resource is subscribed until later; one that is not is left alone. */
  function RenewedSubscription(sub: Subscription, key: string, until: Time): Subscription {
    if key in sub.resources && !IsZero(sub.resources[key].subscribedAt)
    then sub.(resources := sub.resources[key := sub.resources[key].(subscribedUntil := until)]) else sub
  }

  function Renewed(subs: Table, kind: string, key: string, until: Time): Table {
    map sid | sid in subs :: if subs[sid].kind == kind then RenewedSubscription(subs[sid], key, until) else subs[sid]
  }

  ghost predicate IsHeld(subs: Table, kind: string, key: string) {
    exists sid :: Holds(subs, sid, kind, key)
  }

  /** A request renews the resource where it is held; otherwise `sid` gets it as a new one. */
  ghost predicate Requested(p: PartnerState, p': PartnerState, kind: string, reference: ObjectId, now: Time,
                            sid: string) {
    if IsHeld(p.subs, kind, reference.Key())
    then p' == p.(subs := Renewed(p.subs, kind, reference.Key(), now + REQUEST_DURATION))
    else
      && MayAllocate(p.subs, kind, p.limits.maximumResources, sid)
      && p' == p.(subs := p.subs[sid :=
                                 Filed(SubscriptionFor(p.subs, kind, sid),
                                       NewResource(reference, now + REQUEST_DURATION))])
  }

  /** The guards of the collect manager: only an up partner is asked for situations, and a
      partner that is not up is asked for stop visits if its subscriptions are persistent. */
  predicate MayRequest(p: PartnerState, kind: string) {
    || p.status.operationnalStatus.Up?
    || (kind == STOP_MONITORING_COLLECT && p.limits.collectPersistent)
  }

  // ---------------------------------------------------------------- the guardian

  /** Whether the partner is up, if its status has changed. */
  function ChangeTold(status: PartnerStatus, reported: PartnerStatus): Option<bool> {
    if reported.operationnalStatus == status.operationnalStatus then None else Some(reported.operationnalStatus.Up?)
  }

  /** checkPartnerStatus: a restarted service loses all subscriptions, and one that is not up
      the subscriptions that are not persistent. */
  function StatusChecked(p: PartnerState, reported: PartnerStatus): PartnerState {
    if reported.operationnalStatus.Up? && reported.serviceStartedAt != p.status.serviceStartedAt then
      p.(status := reported, subs := map[], lastDiscovery := ZERO_TIME)
    else if !reported.operationnalStatus.Up? then
      var collected := if p.limits.collectPersistent then p.subs else BroadcastOnly(p.subs);
      PartnerState(
        p.status.(operationnalStatus := reported.operationnalStatus), ZERO_TIME, p.limits,
        if p.limits.broadcastPersistent then collected else CollectOnly(collected))
    else p.(status := reported)
  }

  /** Whether the guardian sweeps after the check. */
  predicate SweepsAfter(p: PartnerState, reported: PartnerStatus) {
    if reported.operationnalStatus.Up? then reported.serviceStartedAt == p.status.serviceStartedAt
    else p.limits.collectPersistent || p.limits.broadcastPersistent
  }

  predicate Expired(resource: Resource, now: Time) {
    resource.subscribedUntil < now && !IsZero(resource.subscribedAt)
  }

  function Kept(resources: map<string, Resource>, now: Time): map<string, Resource> {
    map key | key in resources && !Expired(resources[key], now) :: resources[key]
  }

  ghost predicate KeptFor(resources: map<string, Resource>, after: map<string, Resource>, done: set<string>,
                          now: Time) {
    && (forall key :: key in after <==> key in resources && (key in done ==> !Expired(resources[key], now)))
    && (forall key :: key in after ==> after[key] == resources[key])
  }

  /** checkSubscriptionsTerminatedTime. */
  function Swept(subs: Table, now: Time): Table {
    map sid | sid in subs && Kept(subs[sid].resources, now) != map[] ::
        subs[sid].(resources := Kept(subs[sid].resources, now))
  }

  function SweptOne(subs: Table, sid: string, now: Time): Table
    requires sid in subs
  {
    if Kept(subs[sid].resources, now) == map[] then subs - {sid}
    else subs[sid := subs[sid].(resources := Kept(subs[sid].resources, now))]
  }

  /** Only the subscriptions of `done` have been swept. */
  ghost predicate SweptFor(subs: Table, after: Table, done: set<string>, now: Time) {
    && (forall sid :: sid in after <==> if sid in done then sid in Swept(subs, now) else sid in subs)
    && (forall sid :: sid in after ==> after[sid] == if sid in done then Swept(subs, now)[sid] else subs[sid])
  }

  lemma OneMoreSwept(subs: Table, before: Table, after: Table, done: set<string>, sid: string, now: Time)
    requires SweptFor(subs, before, done, now) && sid in subs && sid !in done
    requires after == SweptOne(before, sid, now)
    ensures SweptFor(subs, after, done + {sid}, now)
  {
    assert before[sid] == subs[sid];
    assert sid in Swept(subs, now) <==> Kept(subs[sid].resources, now) != map[];
  }

  lemma AllSwept(subs: Table, after: Table, now: Time)
    requires SweptFor(subs, after, subs.Keys, now)
    ensures after == Swept(subs, now)
  {
  }

  /** checkPartnerDiscovery: a partner that is up is asked for its stops again after a while;
      `interval` is what DiscoveryInterval answers, a negative duration. */
  function Discovered(p: PartnerState, now: Time, interval: int): PartnerState {
    if p.status.operationnalStatus.Up? && (IsZero(p.lastDiscovery) || p.lastDiscovery < now + interval)
    then p.(lastDiscovery := now) else p
  }

  /** routineWork. */
  function Guarded(p: PartnerState, reported: PartnerStatus, now: Time, interval: int): PartnerState {
    var checked := StatusChecked(p, reported);
    Discovered(if SweepsAfter(p, reported) then checked.(subs := Swept(checked.subs, now)) else checked, now, interval)
  }

  // ---------------------------------------------------------------- redefinition

  /** Stop, SetDefinition and Start. */
  function Redefined(p: PartnerState, limits: Limits): PartnerState {
    PartnerState(p.status.(operationnalStatus := Unknown), ZERO_TIME, limits, map[])
  }

  // ---------------------------------------------------------------- subscription requests

  ghost predicate Unnamed(subs: Table, externalId: string) {
    forall sid :: sid in subs ==> subs[sid].externalId != externalId
  }

  /** One entry of a subscription request: a subscription of that name, or a new one if there
      is none, gets the resource and the options. */
  ghost predicate Subscribed(p: PartnerState, p': PartnerState, externalId: string, resource: Resource,
                             options: map<string, string>, sid: string) {
    && (if sid in p.subs then p.subs[sid].externalId == externalId else Unnamed(p.subs, externalId))
    && var sub := if sid in p.subs then p.subs[sid] else EmptySubscription(STOP_MONITORING_BROADCAST, externalId);
    && p' == p.(subs := p.subs[sid := Filed(sub, resource).(options := sub.options + options)])
  }

  /** One subscription of that name is deleted, if there is one. */
  ghost predicate Cancelled(p: PartnerState, p': PartnerState, externalId: string, found: Option<string>) {
    match found
    case None => Unnamed(p.subs, externalId) && p' == p
    case Some(sid) => sid in p.subs && p.subs[sid].externalId == externalId && p' == p.(subs := p.subs - {sid})
  }

  /** The listing names the subscriptions `ids`. */
  ghost predicate Names(subs: Table, ids: seq<string>, listed: seq<string>) {
    && |listed| == |ids|
    && forall i :: 0 <= i < |ids| ==> ids[i] in subs && listed[i] == subs[ids[i]].externalId
  }

  class Partner {
    var partnerStatus: PartnerStatus
    var lastDiscovery: Time
    var settings: Settings
    const subscriptions: MemorySubscriptions

    constructor ()
      ensures fresh(subscriptions)
      ensures Contents() == PartnerState(PartnerStatus(Unknown, ZERO_TIME), ZERO_TIME, Read(map[]), map[])
    {
      partnerStatus := PartnerStatus(Unknown, ZERO_TIME);
      lastDiscovery := ZERO_TIME;
      settings := map[];
      subscriptions := new MemorySubscriptions();
    }

    ghost function Contents(): PartnerState
      reads this, subscriptions
    {
      PartnerState(partnerStatus, lastDiscovery, Read(settings), subscriptions.byIdentifier)
    }

    /** RequestStopAreaUpdate, or RequestSituationUpdate, of the subscription collector of
        that kind; `id` is the identifier of a new subscription. */
    method RequestUpdate(kind: string, reference: ObjectId, now: Time, id: string) returns (ghost sid: string)
      requires id !in subscriptions.byIdentifier
      modifies subscriptions
      ensures Requested(old(Contents()), Contents(), kind, reference, now, sid)
    {
      sid := "";
      var subs := subscriptions.byIdentifier;
      var key := reference.Key();
      var found := Select(subs, Holding(key, kind));
      if |found| > 0 {
        assert found[0] in found && Found(subs, Holding(key, kind), found[0]) && Holds(subs, found[0], kind, key);
        Renew(kind, key, now + REQUEST_DURATION, found);
        return;
      }
      forall s ensures !Holds(subs, s, kind, key) {
        assert Found(subs, Holding(key, kind), s) ==> s in found;
      }
      var maximum := Atoi(Setting(settings, SUBSCRIPTIONS_MAXIMUM_RESOURCES));
      var subscription := subscriptions.FindOrCreateByKind(kind, maximum, id);
      sid := subscription;
      subscriptions.AddNewResource(subscription, NewResource(reference, now + REQUEST_DURATION));
    }

    method Renew(kind: string, key: string, until: Time, found: seq<string>)
      requires Finds(subscriptions.byIdentifier, Holding(key, kind), found)
      modifies subscriptions
      ensures subscriptions.byIdentifier == Renewed(old(subscriptions.byIdentifier), kind, key, until)
    {
      ghost var before := subscriptions.byIdentifier;
      for i := 0 to |found|
        invariant subscriptions.byIdentifier.Keys == before.Keys
        invariant forall sid :: sid in before ==>
          subscriptions.byIdentifier[sid] ==
              if sid in found[..i] then RenewedSubscription(before[sid], key, until) else before[sid]
      {
        var sid := found[i];
        assert sid in found && Found(before, Holding(key, kind), sid) && sid in before.Keys;
        assert found[..i + 1] == found[..i] + [sid] && sid !in found[..i];
        var sub := subscriptions.byIdentifier[sid];
        if !IsZero(sub.resources[key].subscribedAt) {
          subscriptions.SetResource(sid, key, sub.resources[key].(subscribedUntil := until));
        }
      }
      assert found[..|found|] == found;
      forall sid | sid in before ensures sid in found <==> Found(before, Holding(key, kind), sid) {
      }
    }

    /** checkPartnerStatus; `told` is what the collect manager hears, for the stop areas of the
        partner (MemoryStopAreas.StatusPropagation.HandlePartnerStatusChange). */
    method CheckPartnerStatus(reported: PartnerStatus) returns (sweep: bool, told: Option<bool>)
      modifies this, subscriptions
      ensures Contents() == StatusChecked(old(Contents()), reported)
      ensures sweep <==> SweepsAfter(old(Contents()), reported)
      ensures told == ChangeTold(old(partnerStatus), reported)
    {
      told := None;
      if reported.operationnalStatus != partnerStatus.operationnalStatus {
        told := Some(reported.operationnalStatus == Up);
      }
      if reported.operationnalStatus == Up && reported.serviceStartedAt != partnerStatus.serviceStartedAt {
        partnerStatus := reported;
        subscriptions.CancelSubscriptions();
        lastDiscovery := ZERO_TIME;
        return false, told;
      }
      if reported.operationnalStatus == Unknown || reported.operationnalStatus == Down {
        partnerStatus := partnerStatus.(operationnalStatus := reported.operationnalStatus);
        lastDiscovery := ZERO_TIME;
        var collectPersistent := ParseBool(Setting(settings, COLLECT_SUBSCRIPTIONS_PERSISTENT));
        if !collectPersistent {
          subscriptions.CancelCollectSubscriptions();
        }
        var broadcastPersistent := ParseBool(Setting(settings, BROADCAST_SUBSCRIPTIONS_PERSISTENT));
        if !broadcastPersistent {
          subscriptions.CancelBroadcastSubscriptions();
        }
        return collectPersistent || broadcastPersistent, told;
      }
      partnerStatus := reported;
      return true, told;
    }

    /** checkSubscriptionsTerminatedTime. */
    method CheckSubscriptionsTerminatedTime(now: Time)
      modifies subscriptions
      ensures Contents() == old(Contents()).(subs := Swept(old(Contents()).subs, now))
    {
      ghost var before := subscriptions.byIdentifier;
      var all := Enumerate(subscriptions.byIdentifier.Keys);
      for i := 0 to |all|
        invariant SweptFor(before, subscriptions.byIdentifier, Prefix(all, i), now)
      {
        ghost var mid := subscriptions.byIdentifier;
        assert all[i] in before.Keys && all[i] !in Prefix(all, i);
        PrefixGrows(all, i);
        assert mid[all[i]] == before[all[i]];
        SweepOne(all[i], now);
        OneMoreSwept(before, mid, subscriptions.byIdentifier, Prefix(all, i), all[i], now);
      }
      PrefixIsAll(all, before.Keys);
      AllSwept(before, subscriptions.byIdentifier, now);
    }

    /** The body of its loop. */
    method SweepOne(sid: string, now: Time)
      requires sid in subscriptions.byIdentifier
      modifies subscriptions
      ensures subscriptions.byIdentifier == SweptOne(old(subscriptions.byIdentifier), sid, now)
    {
      ghost var before := subscriptions.byIdentifier;
      DeleteExpired(sid, now);
      assert subscriptions.byIdentifier[sid].resources == Kept(before[sid].resources, now);
      if |subscriptions.byIdentifier[sid].resources| == 0 {
        subscriptions.DeleteById(sid);
      }
    }

    /** The inner loop: the expired resources of one subscription. */
    method DeleteExpired(sid: string, now: Time)
      requires sid in subscriptions.byIdentifier
      modifies subscriptions
      ensures var before := old(subscriptions.byIdentifier);
              subscriptions.byIdentifier == before[sid := before[sid].(resources := Kept(before[sid].resources, now))]
    {
      ghost var before := subscriptions.byIdentifier;
      ghost var resources := before[sid].resources;
      var keys := Enumerate(subscriptions.byIdentifier[sid].resources.Keys);
      for i := 0 to |keys|
        invariant sid in subscriptions.byIdentifier
        invariant subscriptions.byIdentifier ==
                  before[sid := before[sid].(resources := subscriptions.byIdentifier[sid].resources)]
        invariant KeptFor(resources, subscriptions.byIdentifier[sid].resources, Prefix(keys, i), now)
      {
        assert keys[i] in resources.Keys && keys[i] !in Prefix(keys, i);
        PrefixGrows(keys, i);
        if Expired(subscriptions.byIdentifier[sid].resources[keys[i]], now) {
          subscriptions.DeleteResource(sid, keys[i]);
        }
      }
      PrefixIsAll(keys, resources.Keys);
      assert subscriptions.byIdentifier[sid].resources == Kept(resources, now);
    }

    /** checkPartnerDiscovery; what the partner answers is not part of this model. */
    method CheckPartnerDiscovery(now: Time, interval: int)
      modifies this`lastDiscovery
      ensures Contents() == Discovered(old(Contents()), now, interval)
    {
      if partnerStatus.operationnalStatus != Up {
        return;
      }
      if IsZero(lastDiscovery) || lastDiscovery < now + interval {
        lastDiscovery := now;
      }
    }

    /** routineWork. */
    method RoutineWork(reported: PartnerStatus, now: Time, interval: int) returns (told: Option<bool>)
      modifies this, subscriptions
      ensures Contents() == Guarded(old(Contents()), reported, now, interval)
      ensures told == ChangeTold(old(partnerStatus), reported)
    {
      var sweep;
      sweep, told := CheckPartnerStatus(reported);
      if sweep {
        CheckSubscriptionsTerminatedTime(now);
      }
      CheckPartnerDiscovery(now, interval);
    }

    /** Stop, SetDefinition and Start, as a partner is redefined: given settings override
        those there are. */
    method Redefine(definition: Settings)
      modifies this, subscriptions
      ensures settings == old(settings) + definition
      ensures Contents() == Redefined(old(Contents()), Read(old(settings) + definition))
    {
      subscriptions.CancelSubscriptions();
      settings := settings + definition;
      partnerStatus := partnerStatus.(operationnalStatus := Unknown);
      lastDiscovery := ZERO_TIME;
    }

    /** An entry of HandleSubscriptionRequest whose stop area exists. */
    method HandleSubscriptionEntry(externalId: string, reference: ObjectId, until: Time, options: map<string,
                                   string>, now: Time, id: string)
      returns (ghost sid: string)
      requires id !in subscriptions.byIdentifier
      modifies subscriptions
      ensures Subscribed(old(Contents()), Contents(), externalId, Resource(reference, 0, now, until, map[]),
                         options, sid)
    {
      var found := subscriptions.FindByExternalId(externalId);
      var subscription := if found.Some? then found.value else id;
      if found.None? {
        subscriptions.New(STOP_MONITORING_BROADCAST, id);
        subscriptions.SetExternalId(id, externalId);
      }
      sid := subscription;
      subscriptions.AddNewResource(subscription, Resource(reference, 0, now, until, map[]));
      subscriptions.SetSubscriptionOptions(subscription, options);
    }

    /** CancelSubscription of all: the response lists the subscriptions whose kind says that
        they broadcast; those with an external identifier are deleted. */
    method CancelAll() returns (listed: seq<string>, ghost ids: seq<string>)
      modifies subscriptions
      ensures Finds(old(Contents()).subs, Broadcasts, ids) && Names(old(Contents()).subs, ids, listed)
      ensures Contents() == old(Contents()).(subs := CollectOnly(old(Contents()).subs))
    {
      var found := Select(subscriptions.byIdentifier, Broadcasts);
      ids := found;
      listed := [];
      ghost var subs := subscriptions.byIdentifier;
      for i := 0 to |found|
        invariant subscriptions.byIdentifier == subs && Names(subs, found[..i], listed)
      {
        assert found[i] in found && Found(subs, Broadcasts, found[i]);
        listed := listed + [subscriptions.byIdentifier[found[i]].externalId];
      }
      assert found[..|found|] == found;
      subscriptions.CancelBroadcastSubscriptions();
    }

    /** CancelSubscription of one: answers whether the subscription was found. */
    method CancelOne(externalId: string) returns (ok: bool, ghost found: Option<string>)
      modifies subscriptions
      ensures Cancelled(old(Contents()), Contents(), externalId, found) && (ok <==> found.Some?)
    {
      var sub := subscriptions.FindByExternalId(externalId);
      found := sub;
      if sub.None? {
        return false, found;
      }
      subscriptions.DeleteById(sub.value);
      return true, found;
    }

    /** HandleSubscriptionTerminatedNotification, HandleNotifySubscriptionTerminated. */
    method HandleTerminated(id: string)
      modifies subscriptions
      ensures Contents() == old(Contents()).(subs := old(Contents()).subs - {id})
    {
      subscriptions.DeleteById(id);
    }
  }
}
