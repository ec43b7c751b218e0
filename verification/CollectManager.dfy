/** Which partners are asked for data, and how (core/collect_manager.go). */
module CollectManager {
  import opened Common
  import opened Subscription
  import opened Partner
  import opened StopArea
  import opened Text
  import opened LocalCredentialsIndex

  /** A partner, in the order of collect priority, with the connectors it has for the data that
      is asked for, and the stop areas that its discovery has found. */
  datatype Candidate = Candidate(
    partner: Partner,
    subscriptionCollector: bool,
    requestCollector: bool,
    discovered: set<string>)

  const ALL_SITUATIONS := ObjectId("generalMessageCollect", "all")

  // ---------------------------------------------------------------- what a partner may collect

  const REMOTE_OBJECTID_KIND := "remote_objectid_kind"
  const COLLECT_INCLUDE_LINES := "collect.include_lines"
  const COLLECT_INCLUDE_STOP_AREAS := "collect.include_stop_areas"
  const COLLECT_EXCLUDE_STOP_AREAS := "collect.exclude_stop_areas"
  const COLLECT_USE_DISCOVERED_SA := "collect.use_discovered_stop_areas"

  /** core/collect_settings.go. */
  datatype CollectSettings = CollectSettings(
    useDiscovered: bool,
    includedSA: seq<string>,
    includedLines: seq<string>,
    excludedSA: seq<string>)
  {
    predicate Empty() {
      |includedSA| == 0 && |includedLines| == 0 && |excludedSA| == 0 && !useDiscovered
    }

    /** A partner without restrictions collects everything; otherwise the stop must not be
        excluded, and it, one of its lines, or its discovery, must admit it. */
    predicate Admits(discovered: set<string>, stopId: string, lineIds: set<string>) {
      || Empty()
      || (stopId !in excludedSA
          && (stopId in includedSA || stopId in discovered || exists line :: line in includedLines && line in lineIds))
    }
  }

  /** trimedSlice: the pieces between commas, trimmed; empty ones stay. */
  function TrimmedSlice(text: string): seq<string> {
    if text == "" then [] else Trimmed(Split(text))
  }

  function Trimmed(pieces: seq<string>): seq<string> {
    if pieces == [] then [] else [TrimSpace(pieces[0])] + Trimmed(pieces[1..])
  }

  function ReadCollect(settings: Settings): CollectSettings {
    CollectSettings(Setting(settings, COLLECT_USE_DISCOVERED_SA) != "",
                    TrimmedSlice(Setting(settings, COLLECT_INCLUDE_STOP_AREAS)),
                    TrimmedSlice(Setting(settings, COLLECT_INCLUDE_LINES)),
                    TrimmedSlice(Setting(settings, COLLECT_EXCLUDE_STOP_AREAS)))
  }

  /** The setting lists these texts, separated by commas; an empty list is no setting. */
  ghost predicate SettingLists(settings: Settings, name: string, items: seq<string>) {
    && (forall item :: item in items ==> Clean(item))
    && (if items == [] then name !in settings || settings[name] == ""
        else name in settings && settings[name] == Join(items))
  }

  lemma {:induction false} TrimmedOfClean(items: seq<string>)
    requires forall item :: item in items ==> Clean(item)
    ensures Trimmed(items) == items
  {
    if items != [] {
      assert Clean(items[0]) && TrimSpace(items[0]) == items[0];
      TrimmedOfClean(items[1..]);
    }
  }

  lemma SliceOfSetting(settings: Settings, name: string, items: seq<string>)
    requires SettingLists(settings, name, items)
    ensures TrimmedSlice(Setting(settings, name)) == items
  {
    if items != [] {
      SplitOfJoin(items);
      TrimmedOfClean(items);
      JoinIsNotEmpty(items);
    }
  }

  lemma JoinIsNotEmpty(items: seq<string>)
    requires items != [] && forall item :: item in items ==> Clean(item)
    ensures Join(items) != ""
  {
    assert Clean(items[0]);
  }

  /** What a partner may collect, in terms of its settings: without restrictions everything;
      otherwise not what is excluded, and only stops, or stops on lines, that are included or
      were discovered. */
  lemma CollectSettingsAreRead(settings: Settings, included: seq<string>, excluded: seq<string>, lines: seq<string>,
                               discovered: set<string>, stopId: string, lineIds: set<string>)
    requires SettingLists(settings, "collect.include_stop_areas", included)
    requires SettingLists(settings, "collect.exclude_stop_areas", excluded)
    requires SettingLists(settings, "collect.include_lines", lines)
    ensures var useDiscovered := "collect.use_discovered_stop_areas" in settings
                                 && settings["collect.use_discovered_stop_areas"] != "";
            ReadCollect(settings).Admits(discovered, stopId, lineIds) <==>
            || (included == [] && excluded == [] && lines == [] && !useDiscovered)
            || (stopId !in excluded
                && (stopId in included || stopId in discovered || exists line :: line in lines && line in lineIds))
  {
    SliceOfSetting(settings, "collect.include_stop_areas", included);
    SliceOfSetting(settings, "collect.exclude_stop_areas", excluded);
    SliceOfSetting(settings, "collect.include_lines", lines);
  }

  /** The values that the known lines of the stop area have in that kind. */
  function LineValues(area: StopArea, lines: map<string, ObjectIds>, kind: string): set<string> {
    set id | id in area.lineIds && id in lines && kind in lines[id] :: lines[id][kind]
  }

  method CollectLineValues(area: StopArea, lines: map<string, ObjectIds>, kind: string) returns (lineIds: set<string>)
    ensures lineIds == LineValues(area, lines, kind)
  {
    lineIds := {};
    for i := 0 to |area.lineIds|
      invariant lineIds == set id | id in area.lineIds[..i] && id in lines && kind in lines[id] :: lines[id][kind]
    {
      var id := area.lineIds[i];
      assert area.lineIds[..i + 1] == area.lineIds[..i] + [id];
      if id in lines && kind in lines[id] {
        lineIds := lineIds + {lines[id][kind]};
      }
    }
    assert area.lineIds[..|area.lineIds|] == area.lineIds;
  }

  /** collection.isInMap. */
  method IsInMap(items: seq<string>, values: set<string>) returns (ok: bool)
    ensures ok <==> exists item :: item in items && item in values
  {
    for i := 0 to |items|
      invariant forall j :: 0 <= j < i ==> items[j] !in values
    {
      if items[i] in values {
        return true;
      }
    }
    return false;
  }

  /** Partner.CanCollect. */
  method CanCollect(settings: CollectSettings, discovered: set<string>, stopId: string, lineIds: set<string>)
    returns (ok: bool)
    ensures ok <==> settings.Admits(discovered, stopId, lineIds)
  {
    if settings.Empty() {
      return true;
    }
    if stopId in settings.excludedSA {
      return false;
    }
    var byLine := IsInMap(settings.includedLines, lineIds);
    return stopId in settings.includedSA || byLine || stopId in discovered;
  }

  /** The identifier of the stop area for the partner. */
  function ReferenceFor(settings: Settings, area: StopArea): Option<ObjectId> {
    var kind := Setting(settings, REMOTE_OBJECTID_KIND);
    if kind in area.objectIds then Some(ObjectId(kind, area.objectIds[kind])) else None
  }

  lemma ReferenceIsRead(settings: Settings, area: StopArea)
    ensures forall o: ObjectId :: ReferenceFor(settings, area) == Some(o) <==>
              && o.kind == (if "remote_objectid_kind" in settings then settings["remote_objectid_kind"] else "")
              && o.kind in area.objectIds && area.objectIds[o.kind] == o.value
  {
  }

  /** The guards of UpdateStopArea. */
  predicate CollectsStopArea(c: Candidate, p: PartnerState, settings: Settings, area: StopArea,
                             lines: map<string, ObjectIds>) {
    var reference := ReferenceFor(settings, area);
    && (c.subscriptionCollector || c.requestCollector)
    && (p.status.operationnalStatus.Up? || (p.limits.collectPersistent && c.subscriptionCollector))
    && reference.Some?
    && ReadCollect(settings).Admits(c.discovered, reference.value.value, LineValues(area, lines, reference.value.kind))
  }

  ghost predicate Apart(candidates: seq<Candidate>) {
    forall i, j :: 0 <= i < j < |candidates| ==>
        candidates[i].partner.subscriptions != candidates[j].partner.subscriptions
  }

  ghost function Managers(candidates: seq<Candidate>): set<MemorySubscriptions> {
    set c | c in candidates :: c.partner.subscriptions
  }

  /** In terms of the settings: a partner with a collector for stop areas collects the stop area if
      it is up, or keeps its subscriptions through outages and takes any, if the area has an
      identifier of its kind, and if its restrictions admit this or a known line of the area. */
  lemma CollectsStopAreaIff(c: Candidate, p: PartnerState, settings: Settings, area: StopArea,
                            lines: map<string, ObjectIds>, included: seq<string>, excluded: seq<string>,
                            onLines: seq<string>, kind: string)
    requires SettingLists(settings, "collect.include_stop_areas", included)
    requires SettingLists(settings, "collect.exclude_stop_areas", excluded)
    requires SettingLists(settings, "collect.include_lines", onLines)
    requires kind == if "remote_objectid_kind" in settings then settings["remote_objectid_kind"] else ""
    ensures var useDiscovered := "collect.use_discovered_stop_areas" in settings
                                 && settings["collect.use_discovered_stop_areas"] != "";
            CollectsStopArea(c, p, settings, area, lines) <==>
            && (c.subscriptionCollector || c.requestCollector)
            && (p.status.operationnalStatus.Up? || (p.limits.collectPersistent && c.subscriptionCollector))
            && kind in area.objectIds
            && var stopId := area.objectIds[kind];
            && (|| (included == [] && excluded == [] && onLines == [] && !useDiscovered)
                || (stopId !in excluded
                    && (stopId in included || stopId in c.discovered || OnSomeLine(area, lines, kind, onLines))))
  {
    if kind in area.objectIds {
      var lineIds := LineValues(area, lines, kind);
      CollectSettingsAreRead(settings, included, excluded, onLines, c.discovered, area.objectIds[kind], lineIds);
      OnSomeLineIff(area, lines, kind, onLines);
    }
  }

  /** A known line of the area has one of these values. */
  ghost predicate OnSomeLine(area: StopArea, lines: map<string, ObjectIds>, kind: string, values: seq<string>) {
    exists id :: id in area.lineIds && id in lines && kind in lines[id] && lines[id][kind] in values
  }

  lemma OnSomeLineIff(area: StopArea, lines: map<string, ObjectIds>, kind: string, values: seq<string>)
    ensures OnSomeLine(area, lines, kind, values) <==>
            exists line :: line in values && line in LineValues(area, lines, kind)
  {
    if OnSomeLine(area, lines, kind, values) {
      var id :| id in area.lineIds && id in lines && kind in lines[id] && lines[id][kind] in values;
      assert lines[id][kind] in LineValues(area, lines, kind);
    }
  }

  /** The partner of the candidate, as it is now, collects the stop area. */
  ghost predicate Collects(c: Candidate, area: StopArea, lines: map<string, ObjectIds>)
    reads c.partner, c.partner.subscriptions
  {
    CollectsStopArea(c, c.partner.Contents(), c.partner.settings, area, lines)
  }

  /** UpdateStopArea: the first partner that can collect the stop area is asked, through a
      subscription if it takes any, and no other partner. */
  method UpdateStopArea(candidates: seq<Candidate>, areas: Areas, lines: map<string, ObjectIds>, stopAreaId: string,
                        now: Time, id: string)
    returns (chosen: Option<nat>)
    requires Apart(candidates)
    requires forall c :: c in candidates ==> id !in c.partner.subscriptions.byIdentifier
    modifies Managers(candidates)
    ensures stopAreaId !in areas ==> chosen.None?
    ensures chosen.None? && stopAreaId in areas ==>
              forall i :: 0 <= i < |candidates| ==> !old(Collects(candidates[i], areas[stopAreaId], lines))
    ensures chosen.Some? ==>
              && chosen.value < |candidates| && old(Collects(candidates[chosen.value], areas[stopAreaId], lines))
              && (forall i :: 0 <= i < chosen.value ==> !old(Collects(candidates[i], areas[stopAreaId], lines)))
    ensures chosen.Some? && candidates[chosen.value].subscriptionCollector ==>
              AskedForStopArea(candidates[chosen.value], areas[stopAreaId],
                               old(candidates[chosen.value].partner.Contents()),
                               candidates[chosen.value].partner.Contents(), now)
    ensures forall i :: 0 <= i < |candidates| && !(chosen == Some(i) && candidates[i].subscriptionCollector) ==>
              candidates[i].partner.Contents() == old(candidates[i].partner.Contents())
  {
    if stopAreaId !in areas {
      return None;
    }
    chosen := FirstCollecting(candidates, areas[stopAreaId], lines);
    if chosen.Some? && candidates[chosen.value].subscriptionCollector {
      var c := candidates[chosen.value];
      assert c in candidates && c.partner.subscriptions in Managers(candidates);
      var reference := ReferenceFor(c.partner.settings, areas[stopAreaId]).value;
      ghost var sid := c.partner.RequestUpdate(STOP_MONITORING_COLLECT, reference, now, id);
    }
  }

  /** Its loop, up to the partner that is asked. */
  method FirstCollecting(candidates: seq<Candidate>, area: StopArea, lines: map<string, ObjectIds>)
    returns (chosen: Option<nat>)
    ensures chosen.None? ==> forall i :: 0 <= i < |candidates| ==> !Collects(candidates[i], area, lines)
    ensures chosen.Some? ==>
              && chosen.value < |candidates| && Collects(candidates[chosen.value], area, lines)
              && forall i :: 0 <= i < chosen.value ==> !Collects(candidates[i], area, lines)
  {
    for i := 0 to |candidates|
      invariant forall j :: 0 <= j < i ==> !Collects(candidates[j], area, lines)
    {
      var collects := MayCollect(candidates[i], area, lines);
      if collects {
        return Some(i);
      }
    }
    return None;
  }

  /** The guards of its loop. */
  method MayCollect(c: Candidate, area: StopArea, lines: map<string, ObjectIds>) returns (ok: bool)
    ensures ok <==> Collects(c, area, lines)
  {
    if !c.subscriptionCollector && !c.requestCollector {
      return false;
    }
    if c.partner.partnerStatus.operationnalStatus != Up {
      if !ParseBool(Setting(c.partner.settings, COLLECT_SUBSCRIPTIONS_PERSISTENT)) || !c.subscriptionCollector {
        return false;
      }
    }
    var partnerKind := Setting(c.partner.settings, REMOTE_OBJECTID_KIND);
    if partnerKind !in area.objectIds {
      return false;
    }
    var lineIds := CollectLineValues(area, lines, partnerKind);
    ok := CanCollect(ReadCollect(c.partner.settings), c.discovered, area.objectIds[partnerKind], lineIds);
  }

  /** What a request for a stop area does to the partner that takes subscriptions. */
  ghost predicate AskedForStopArea(c: Candidate, area: StopArea, p: PartnerState, p': PartnerState, now: Time)
    reads c.partner
  {
    var reference := ReferenceFor(c.partner.settings, area);
    && reference.Some? && MayRequest(p, STOP_MONITORING_COLLECT)
    && exists sid :: Requested(p, p', STOP_MONITORING_COLLECT, reference.value, now, sid)
  }

  /** What a request for all situations does to one partner. */
  ghost predicate AskedForSituations(c: Candidate, p: PartnerState, p': PartnerState, now: Time) {
    if p.status.operationnalStatus.Up? && !p.limits.filterGeneralMessages && c.subscriptionCollector
    then
      && MayRequest(p, "GeneralMessageCollect")
      && exists sid ::
           Requested(p, p', "GeneralMessageCollect", ObjectId("generalMessageCollect", "all"), now, sid)
    else p' == p
  }

  /** requestAllSituations: every partner that is up and is not filtered is asked. */
  method RequestAllSituations(candidates: seq<Candidate>, now: Time, id: string)
    requires Apart(candidates)
    requires forall c :: c in candidates ==> id !in c.partner.subscriptions.byIdentifier
    modifies Managers(candidates)
    ensures forall i :: 0 <= i < |candidates| ==>
              AskedForSituations(candidates[i], old(candidates[i].partner.Contents()),
                                 candidates[i].partner.Contents(), now)
  {
    for i := 0 to |candidates|
      invariant forall j :: 0 <= j < i ==>
        AskedForSituations(candidates[j], old(candidates[j].partner.Contents()), candidates[j].partner.Contents(), now)
      invariant forall j :: i <= j < |candidates| ==> unchanged(candidates[j].partner.subscriptions)
    {
      var c := candidates[i];
      assert c in candidates && c.partner.subscriptions in Managers(candidates);
      AskForSituations(c, now, id);
    }
  }

  /** The body of its loop. */
  method AskForSituations(c: Candidate, now: Time, id: string)
    requires id !in c.partner.subscriptions.byIdentifier
    modifies c.partner.subscriptions
    ensures AskedForSituations(c, old(c.partner.Contents()), c.partner.Contents(), now)
  {
    if c.partner.partnerStatus.operationnalStatus != Up {
      return;
    }
    if ParseBool(Setting(c.partner.settings, COLLECT_FILTER_GENERAL_MESSAGES)) {
      return;
    }
    if !c.requestCollector && !c.subscriptionCollector {
      return;
    }
    if c.subscriptionCollector {
      ghost var sid := c.partner.RequestUpdate(GENERAL_MESSAGE_COLLECT, ALL_SITUATIONS, now, id);
    }
  }
}
