# Ara: a verified model of its hard state

Ara keeps a real-time public transport model in memory. It ingests updates that partners send
(SIRI, EN 15531), keeps subscriptions with partners, and broadcasts the changes that matter.
This Dafny project models the parts of Ara that carry the hard state and proves what they are for.
`dafny verify dfyconfig.toml` checks all of it.

The modules follow the components of the program:

- `Index`, `ObjectIdIndex`, `StopVisit`, `MemoryStopVisits`, `TransactionalStopVisits`, `IndexCommit`:
  the store of stop visits, its indexes kept by hand, the overlay of a transaction, and what its commit
  does to lookups. Indexes agree with a scan, the overlay with what a commit leaves.
- `StopArea`, `MemoryStopAreas`, `ParentAssignment`: the graph of stop areas, walked up and down, the
  propagation of a partner's status along it, and which parents keep it without cycles.
- `UpdateEventBuilder`, `UpdateManager`, `EventEffects`, `Ingestion`, `Tellings`,
  `StopMonitoringCollector`: from the visits of a delivery to update events and to stored objects, with
  the references between them intact and the fields that the partner told.
- `Subscription`, `Partner`, `CollectManager`, `StopMonitoringSubscriber`, `PartnerRuns`: the life cycle
  of a partner and its subscriptions as one state machine. The class methods meet the relations that
  the steps of `PartnerRuns.Step` use, and the theorems are about every run of these steps.
- `Durations`, `LastStates`, `StopMonitoringBroadcast`, `BroadcastRuns`: change detection, queues and
  notifications, and what holds over runs of checked events and drains.
- `Diff`, `LocalCredentialsIndex`, `TripUpdates` (with `Network` for lines and journeys): structural
  comparison of possibly cyclic values, the index of credentials, the GTFS Realtime feed.
- `Common` and `Text` hold shared vocabulary.

Conventions. One event, visit, request or check is one atomic step. Objects that the program updates
in place are classes; stored entities are values, since saving takes ownership. The order in which a
Go map is iterated is arbitrary (`Common.Enumerate`). Time is an integer number of nanoseconds, zero
being the zero instant, and each step has one `now`. Identifiers from generators are parameters
that are fresh by precondition. A stop-area graph without cycles is one with a rank (`StopArea.Ranked`).

Where the code and what it is meant for differ, the model follows the code:

- The comparison of two slices or maps that share storage answers "equal" without looking inside,
  which is wrong for NaN (`Diff.SharedNaNIsMistaken`). It is right exactly for values that reach no
  NaN and no function (`Diff.SharedStorageIsRightIff`).
- An xsd:duration (XML Schema Part 2, section 3.2.6) is read without its sign, more than three
  decimals of a second lose the seconds, and a duration of more than some 292 years wraps and may turn
  negative (`Durations.LongDurationWraps`). `Durations.MeetsXsdDuration` says exactly when it is right.
- A model that drops a kind of identifier and is indexed again erases whoever owns the identifier by
  then (`ObjectIdIndex.DroppedKindErases`). `ObjectIdIndex.RunLooksUpIff` says exactly over which runs
  lookups stay right.
- A commit is applied in the order of two map iterations. Committing again leaves the visits as they
  are, but may move an identifier from one visit to another, or lose it; exactly when is
  `TransactionalStopVisits.SecondCommitChangesNothingIff`.
- A redefinition sets the status of a partner to unknown and tells nobody. Stop areas that heard it is
  up keep this until a check answers up or down (`PartnerRuns.HeardIsUpIff`).
- An area whose Parent is also its Referent is counted twice by one walk and once by the other
  (`StopArea.PathCountsAgree`).
- A finder of the overlay ignores pending deletions (`TransactionalStopVisits.OverlayAgreesWithCommit`
  says exactly when this shows).
- An empty subscription identifier makes a broadcast subscription that counts as a collect one
  (`PartnerRuns.SubscribeKeepsKindsIff`, `PartnerRuns.EmptyNameIsNotCancelled`).
- An item that a delivery lists under two stop points is stored as the stop point handled last tells
  it, in the order of a map iteration (`StopMonitoringCollector.StopMonitoringCollector.HandleDelivery`).
- A visit event saves the stop area and its referent with the statuses they had before the status of
  the event was spread (`EventEffects.VisitEventOnAreas`).
- With `_default` as the kind of the partner, a line that was just created is not found again
  (`StopMonitoringCollector.DefaultKindIsLost`).

## Model

| member | source | states |
|---|---|---|
| Diff.DeepValueEqual | model/diff.go:70-168 | On every heap whose cycles pass through addressable values the comparison returns; "different" comes with a difference at some depth, and the pairs remembered during "same" justify one another. |
| Diff.RememberedPairsAgree | model/diff.go:70-115 | The visited pairs of a comparison that answered "same" form a bisimulation: every remembered pair agrees at every unfolding depth. |
| Diff.CompareValues | model/diff.go:70-168 | From an empty visited map: "different" only if the values differ at some depth; after "same" they agree at every depth if and only if the first reaches no NaN and no function; shared storage is answered "same"; no panic on readable values. |
| Diff.AgreeReflexive | model/diff.go:70-168 | A value that reaches no NaN and no function agrees with itself at every depth. |
| Diff.AgreeSymmetric | model/diff.go:70-168 | Agreement is symmetric, although the code looks only at the left map's keys. |
| Diff.AlikeIff | model/diff.go:70-168 | What it means, kind by kind, that two values agree at every depth: one type, equal basic values or instants, nil functions, elements and fields alike at each position, maps alike under each key. |
| Diff.IndistinguishableIsSelfEqual | model/diff.go:70-168 | Conversely, a value that agrees with anything at every depth reaches no NaN and no function. |
| Diff.SharedStorageIsRightIff | model/diff.go:116-140 | For slices or maps with shared storage the answer "equal" is right if and only if the value reaches no NaN and no function. |
| Diff.SharedNaNIsMistaken | model/diff.go:116-140 | A well-formed heap on which that condition fails: two slices with shared storage holding NaN, called equal, differ. |
| Diff.Equal | model/diff.go:24-56 | An error if and only if one is nil or the types differ; otherwise, for readable structs, the compared fields that the map lacks can be told apart only if they reach NaN or a function, those it has always can, with the values of the second struct. |
| Diff.DifferingFields | model/diff.go:40-55 | On readable structs the loop returns; it collects only fields that can be told apart, and misses one if and only if it reaches NaN or a function. |
| Index.Index.Index | model/index.go:19-34 | Indexing moves the model from the bucket of its old indexable to that of the new one; other buckets keep their order. |
| Index.Index.Delete | model/index.go:41-49 | Deleting removes the model from its bucket and drops a bucket that becomes empty. |
| Index.Index.RemoveFromIndexable | model/index.go:51-64 | The removal loop takes out one occurrence and keeps the order of the others. |
| Index.RunFindsExactly | model/index.go:19-64 | After every run of Index and Delete each model is in exactly one bucket, once, no bucket is empty, and a bucket holds exactly the models last indexed there. |
| ObjectIdIndex.ObjectIdIndex.Index | model/objectid_index.go:15-34 | Indexing a model erases its outdated identifiers, takes over the current ones, and only extends what is remembered of it. |
| ObjectIdIndex.ObjectIdIndex.Delete | model/objectid_index.go:41-51 | Deleting erases every identifier remembered of the model, whoever owns it now. |
| ObjectIdIndex.LookupIndexed | model/objectid_index.go:15-39 | What one Index call does to the answer for any identifier. |
| ObjectIdIndex.IndexedIsExact | model/objectid_index.go:15-34 | Exactness of lookups is kept by an Index call with identifiers that no other model is remembered with. |
| ObjectIdIndex.DeletedIsExact | model/objectid_index.go:41-51 | Exactness of lookups is kept by every Delete call. |
| ObjectIdIndex.RunFindsExactly | model/objectid_index.go:15-51 | If no identifier is ever claimed by two models, Find answers m for o exactly when m's last identifiers contain o, over every run. |
| ObjectIdIndex.RunKeepingKindsFindsExactly | model/objectid_index.go:15-51 | The same when identifiers may pass between models but no model drops a kind. |
| ObjectIdIndex.DroppedKindErases | model/objectid_index.go:19-26 | A run in which each identifier has one owner at a time and a dropped kind makes a lookup fail. |
| ObjectIdIndex.IndexedLooksUpIff | model/objectid_index.go:15-39 | An Index call keeps all lookups right if and only if no identifier that another model has is among those given, or remembered of this model. |
| ObjectIdIndex.DeletedLooksUpIff | model/objectid_index.go:36-51 | A Delete call keeps all lookups right if and only if no identifier remembered of this model belongs to another one. |
| ObjectIdIndex.RunLooksUpIff | model/objectid_index.go:15-51 | Lookups are right after every prefix of a run if and only if each of its calls meets its condition. |
| ObjectIdIndex.OwnedOnceIndexed | model/objectid_index.go:15-39 | Exactness for one kind alone is kept although models share identifiers of other kinds. |
| StopVisit.SortByTime | model/stop_visit.go:200-229 | Sorting gives a permutation in the order of the deciding times. |
| StopVisit.ReferenceIsDeciding | model/stop_visit.go:200-223 | The reference time is the actual arrival if it is told, else the expected, else the aimed one, and only without any arrival the departures in the same order (with model/stop_visit.go:14-18). |
| StopVisit.ScansArePermutations | model/stop_visit.go:308-420 | Two listings that answer a query exactly are the same multiset. |
| MemoryStopVisits.MemoryStopVisits.FindByStopAreaId | model/stop_visit.go:339-351 | The index-backed finder returns exactly what a scan of all visits finds, each once. |
| MemoryStopVisits.MemoryStopVisits.FindByVehicleJourneyId | model/stop_visit.go:308-320 | The same for vehicle journeys. |
| MemoryStopVisits.MemoryStopVisits.FindFollowingByStopAreaId | model/stop_visit.go:366-381 | The stored visits of the stop area whose deciding time, read off the schedules, is after now, each once, in the order of these times. |
| MemoryStopVisits.MemoryStopVisits.FindFollowingByVehicleJourneyId | model/stop_visit.go:322-337 | The same for vehicle journeys. |
| MemoryStopVisits.MemoryStopVisits.FindAllAfter | model/stop_visit.go:416-427 | Exactly the visits whose deciding time is later, each once. |
| MemoryStopVisits.MemoryStopVisits.Save | model/stop_visit.go:429-453 | Saving keeps the three indexes in agreement with the store and gives a new visit an identifier. |
| MemoryStopVisits.MemoryStopVisits.Delete | model/stop_visit.go:455-465 | Deleting keeps the three indexes in agreement with the store. |
| TransactionalStopVisits.TransactionalStopVisits.Commit | model/transactional_stop_visits.go:181-189 | In any iteration orders a commit leaves the base without the deleted visits, overridden by the saved ones, and the identifier index after deleting and then indexing them in those orders. |
| TransactionalStopVisits.SecondCommitChangesNothingIff | model/transactional_stop_visits.go:181-189 | For all orders of two commits, the second leaves every visit and every lookup as it was if and only if no identifier of a saved visit belongs to another saved visit or is remembered of one that is not deleted. |
| IndexCommit.CommitAnswers | model/transactional_stop_visits.go:181-189 | Without contested identifiers every order of a commit leaves the same answer: the saved model that has the identifier, none if a saved or deleted model is remembered with it, otherwise as before. |
| IndexCommit.ContestMoves | model/transactional_stop_visits.go:185-187 | For every contested identifier there are two orders between which its lookup changes. |
| TransactionalStopVisits.OverlayAgreesWithCommit | model/transactional_stop_visits.go:54-166 | A finder that ignores pending deletions answers as the base will after the commit if and only if no visit it asks for is deleted and not saved. |
| TransactionalStopVisits.TransactionalStopVisits.FindByStopAreaId | model/transactional_stop_visits.go:89-107 | A scan of base overridden by saved. |
| TransactionalStopVisits.TransactionalStopVisits.FindByVehicleJourneyId | model/transactional_stop_visits.go:54-70 | A scan of base overridden by saved. |
| TransactionalStopVisits.TransactionalStopVisits.FindFollowingByStopAreaId | model/transactional_stop_visits.go:113-127 | The visits of base overridden by saved at the stop area whose deciding time is after now, in the order of these times. |
| TransactionalStopVisits.TransactionalStopVisits.FindFollowingByVehicleJourneyId | model/transactional_stop_visits.go:72-87 | The same for vehicle journeys. |
| TransactionalStopVisits.TransactionalStopVisits.FindAll | model/transactional_stop_visits.go:154-166 | A scan of everything in base overridden by saved. |
| TransactionalStopVisits.TransactionalStopVisits.FindAllAfter | model/transactional_stop_visits.go:137-152 | The scan of what a commit would leave, even with pending deletions. |
| TransactionalStopVisits.TransactionalStopVisits.FindByObjectId | model/transactional_stop_visits.go:44-52 | A matching saved visit first, otherwise the base's answer; a missing kind matches the empty value. |
| TransactionalStopVisits.Transaction.Commit | model/transaction.go:30-38 | Commit applies the overlay to the base and its identifier index, and marks the transaction. |
| TransactionalStopVisits.Transaction.Close | model/transaction.go:50-59 | Closing without a commit leaves the base untouched and drops what was pending. |
| TransactionalStopVisits.Transaction.Rollback | model/transaction.go:40-48 | A rollback drops what was pending and leaves the base untouched. |
| StopArea.WalksAreDual | model/stop_area.go:370-404 | y is above x in the walk up exactly when x is in the family of y; both walks list it once per path, and equally often when no area has one area as Parent and Referent. |
| StopArea.FindFamily | model/stop_area.go:370-378 | The walk down lists every area as often as there are paths from it, a double edge counting once. |
| StopArea.AscendantsCountPaths | model/stop_area.go:390-404 | The walk up lists every area as often as there are paths to it. |
| StopArea.PathCountsAgree | model/stop_area.go:370-404 | The two multiplicities agree for all areas if and only if no area has one stored area as both Parent and Referent. |
| StopArea.KindVariantIsFilteredMap | model/stop_area.go:416-435 | The walk for identifiers of a kind is exactly the filtered map of the walk of areas, in the same order. |
| StopArea.AscendantsIgnoreRank | model/stop_area.go:390-404 | The walk up is determined by the graph alone. |
| StopArea.PathsAtLastEdge | model/stop_area.go:370-378 | Cutting paths at their last edge gives the same count as cutting them at the first one. |
| StopArea.Monitored | model/stop_area_origin.go:75-86 | An area is monitored exactly when every origin is up. |
| StopArea.PartnersLost | model/stop_area_origin.go:99-115 | Exactly the partners that were up and are not up in the compared origins, each once. |
| MemoryStopAreas.MemoryStopAreas.FindByOrigin | model/stop_area.go:301-312 | Exactly the areas that have the partner among their origins, each once. |
| MemoryStopAreas.MemoryStopAreas.Save | model/stop_area.go:325-348 | The saved area is stored and indexed under its identifiers. |
| MemoryStopAreas.TransactionalStopAreas.FindAscendants | model/transactional_stop_areas.go:101-116 | The walk of the base without deleted areas and with the saved versions: the listing sits at exactly the positions of the areas that are not deleted, increasing. |
| MemoryStopAreas.TransactionalStopAreas.FindByObjectId | model/transactional_stop_areas.go:37-46 | A matching saved area first, otherwise the base's answer. |
| MemoryStopAreas.TransactionalStopAreas.Commit | model/transactional_stop_areas.go:150-158 | The base without deleted areas overridden by the saved ones, and the identifier index after the same deletions and savings, in any order; without pending deletions lookups of a kind stay exact if the saved identifiers are admissible. |
| MemoryStopAreas.StatusPropagation.UpdateStatus | model/update_manager.go:262-274 | Every ascendant gets the partner's status and its Monitored flag anew, nothing else changes, and lookups stay exact. |
| MemoryStopAreas.StatusPropagation.HandlePartnerStatusChange | core/collect_manager.go:90-95 | The events for all areas that mention the partner, in any order, leave one determined result. |
| MemoryStopAreas.StatusIsSettled | core/collect_manager.go:90-95 | Afterwards every area that mentions the partner has it at the new status, Monitored is the conjunction of its origins, other partners are as before, and areas not above an affected one are untouched. |
| MemoryStopAreas.SameGraphSameWalk | model/stop_area.go:390-404 | Which areas are walked depends on the Parent and Referent edges only. |
| ParentAssignment.ParentAcyclicIff | model/update_manager.go:61-64 | Giving a stored area its parent leaves a graph without cycles if and only if the area is not above the parent. |
| ParentAssignment.AllowedParentIsRanked | model/update_manager.go:61-64 | An allowed parent, for a known or a new area, leaves a graph on which the walks end. |
| ParentAssignment.WalkAvoids | model/stop_area.go:390-404 | A walk that does not meet an area is the same after the area changes. |
| UpdateEventBuilder.StopMonitoringUpdateEventBuilder.BuildUpdateEvents | core/stop_monitoring_update_event_builder.go:49-147 | One visit adds the events of its stop area, line, journey and item where they are missing, with the attributes and references of the journey (model/vehicle_journey_update_event.go:33-88). |
| UpdateEventBuilder.StopMonitoringUpdateEventBuilder.SetUpdateEvents | core/stop_monitoring_update_event_builder.go:149-153 | All visits, one after the other. |
| UpdateEventBuilder.StopMonitoringUpdateEventBuilder.SetStopVisitCancellationEvents | core/stop_monitoring_update_event_builder.go:156-162 | One cancellation for each cancelled item, in order, and its monitoring reference. |
| UpdateEventBuilder.BatchIsClosed | core/stop_monitoring_update_event_builder.go:49-153 | Every event of a batch refers to events of the batch and is filed under its own reference. |
| UpdateEventBuilder.FirstVisitCounts | core/stop_monitoring_update_event_builder.go:55-145 | Each reference has one event, made from the first visit that has the reference, and no other reference has any. |
| UpdateEventBuilder.EveryVisitHasEvent | core/stop_monitoring_update_event_builder.go:108-145 | No visit of a delivery is lost. |
| EventEffects.EventsTellFirstVisit | core/stop_monitoring_update_event_builder.go:49-106 | Field by field, with attributes and references, what the area, line and journey events of a delivery have from the first visit with their reference. |
| UpdateManager.UpdateManager.UpdateStopArea | model/update_manager.go:45-78 | The known or new area with its parent if it had none, the status of its origin settled on all ascendants; the graph stays without cycles and lookups stay exact. |
| EventEffects.AreaEventStores | model/update_manager.go:45-78 | Field by field: a known area gets the parent it lacks, a new one name and identifier of the event; the origin is up on exactly the ascendants. |
| UpdateManager.UpdateManager.UpdateLine | model/update_manager.go:94-116 | The known or new line, with the time of the update. |
| EventEffects.LineEventStores | model/update_manager.go:94-116 | Through lookups: the line of the event is collected at now, a new one has its name, origin and hash; no other line of the kind changes. |
| UpdateManager.UpdateManager.UpdateVehicleJourney | model/update_manager.go:118-158 | The known journey, or a new one if its line is known, otherwise nothing; an empty origin, destination or direction leaves the known one. |
| EventEffects.JourneyEventStores | model/update_manager.go:118-158 | Through lookups: names, flag, references, direction and, for a new journey, line and attributes, as the event tells them; no other journey of the kind changes. |
| UpdateManager.UpdateManager.UpdateStopVisit | model/update_manager.go:160-232 | Nothing without stop area and journey; otherwise the merged visit, the journey's flag, the settled status, and over it the earlier copies of the areas with the line. Tellings.EventMerges, EventEffects.VisitEventFlags and EventEffects.VisitEventOnAreas say what that is, field by field. |
| Tellings.EventMerges | model/update_manager.go:186-217 | Through lookups: the visit of the event has its statuses, and each schedule it tells or had; a known one stays the object it is, a new one stands at the area and for the journey that are found; no other visit of the kind changes. |
| EventEffects.VisitEventFlags | model/update_manager.go:219-222 | The journey of the event has its flag; no other journey of the kind changes. |
| EventEffects.VisitEventOnAreas | model/update_manager.go:174-229 | For every area: the stop area and its referent list the line, with the statuses they had; other areas above get the status told, and Monitored anew, if it was not known; the rest stays. |
| UpdateManager.RecordedAtLastNews | model/update_manager.go:205-211 | After any events for a visit, its recorded time is that of the last event with news, or of its handling if the event has none; an event is news if it has a recorded time or a schedule other than the one told last of its kind, and repeated events are not. |
| UpdateManager.SchedulesAreLastTold | model/stop_visit_schedule.go:103-116 | After any events each kind has the schedule told last, and no kind is lost. |
| UpdateManager.Include | model/stop_visit_schedule.go:118-135 | The loop answers whether all the schedules are there with the same times. |
| UpdateManager.UpdateManager.UpdateNotCollected | model/update_manager.go:276-293 | A known visit becomes cancelled, departed and not collected; an unknown one is ignored. |
| UpdateManager.VisitKeepsGraph | model/update_manager.go:175-185 | A visit update changes neither identifiers nor edges of the stop areas. |
| Ingestion.AreaStepIsSound | model/update_manager.go:45-78 | A stop area event keeps references and lookups intact, makes its identifier resolve, and creates nothing if it resolved. |
| Ingestion.LineStepIsSound | model/update_manager.go:94-116 | The same for a line event. |
| Ingestion.JourneyStepIsSound | model/update_manager.go:118-158 | The same for a journey event whose line resolves. |
| Ingestion.VisitStepIsSound | model/update_manager.go:160-232 | The same for a visit event whose stop area and journey resolve. |
| Ingestion.CancellationIsSound | model/update_manager.go:276-293 | A cancellation keeps references and lookups intact and creates nothing. |
| Ingestion.AttachableStep | model/update_manager.go:61-64 | After any stop area event of a batch, every area that still waits for its parent can get it without a cycle. |
| Ingestion.VersionsAreAttachable | model/update_manager.go:160-232 | Visit events keep that too. |
| StopMonitoringCollector.StopMonitoringCollector.BroadcastUpdateEvents | core/siri_stop_monitoring_subscription_collector.go:209-230 | The events of a closed batch, each map in any order, leave every object of the batch stored, the model sound and the graph without cycles; nothing is created if all was known. |
| StopMonitoringCollector.StopMonitoringCollector.HandleDelivery | core/siri_stop_monitoring_subscription_collector.go:145-163 | From a sound model in which no area to be attached is above the origin, every item of a delivery ends up as a stop visit whose stop area, journey and line exist. For every item: unless it was cancelled the visit has the statuses of the first monitored visit at the stop point handled last, is collected at now, has each schedule told last or the one it had, and a new one stands at the stop area and for the journey told first. |
| Tellings.ToldAtOneStop | core/stop_monitoring_update_event_builder.go:108-145 | An item listed under one stop point only is told by the first visit of the delivery with that stop point and item. |
| Tellings.MergedIsStored | model/update_manager.go:205-217 | From merged events to the words of the delivery: which visit of it each field of the stored visit comes from. |
| StopMonitoringCollector.StopMonitoringCollector.HandleAgain | core/siri_stop_monitoring_subscription_collector.go:153-163 | Handling the same delivery again creates no object. |
| StopMonitoringCollector.KnownBatchResolves | core/siri_stop_monitoring_subscription_collector.go:222-226 | In a sound model that knows a batch every item resolves to a visit with stop area, journey and line. |
| StopMonitoringCollector.DefaultKindIsLost | model/update_manager.go:101-102 | A created line is found under its event's identifier if and only if this is not of kind `_default` or is its own hash. |
| Subscription.Select | core/subscription.go:298-348 | The finders return exactly the matching subscriptions, each once. |
| Subscription.MemorySubscriptions.FindByExternalId | core/subscription.go:322-332 | A subscription of that name, or none exists. |
| Subscription.MemorySubscriptions.FindOrCreateByKind | core/subscription.go:350-366 | A subscription of the kind with room, or a new one when there is none; with a maximum of one always a new one. |
| Subscription.MemorySubscriptions.CancelBroadcastSubscriptions | core/subscription.go:432-441 | Exactly the subscriptions without an external identifier are left. |
| Subscription.MemorySubscriptions.CancelCollectSubscriptions | core/subscription.go:443-452 | Exactly the subscriptions with an external identifier are left. |
| Subscription.MemorySubscriptions.CancelSubscriptions | core/subscription.go:423-430 | No subscription is left. |
| Partner.Partner.RequestUpdate | core/siri_stop_monitoring_subscription_collector.go:84-107 | A request renews the confirmed resource where it is held, or files it as new in a subscription that may take it. |
| PartnerRuns.RequestHoldsForTwoMinutes | core/siri_stop_monitoring_subscription_collector.go:84-107 | A new or confirmed resource is held until two minutes after the request; one that is held and not confirmed is left as it is. |
| PartnerRuns.NewSubscriptionOnlyWhenFull | core/subscription.go:350-366 | A new subscription is opened only if the maximum is one or every subscription of the kind has reached it, and a known one is used only with room. |
| Partner.Partner.CheckPartnerStatus | core/partner_guardian.go:75-125 | A restarted service loses all subscriptions, one that is not up those that are not persistent; the stored start changes only with a check that answers up (PartnerRuns.StartIsLastTold). The answer says whether to sweep and, if the status changed, what the collect manager hears. |
| Partner.Partner.CheckSubscriptionsTerminatedTime | core/partner_guardian.go:127-144 | The two deletion loops leave the swept table in any order. |
| Partner.Partner.RoutineWork | core/partner_guardian.go:64-73 | Check, then sweep if the check says so, then discover if the partner is up and was not discovered within the interval. |
| PartnerRuns.DiscoveryIsRecent | core/partner_guardian.go:146-154 | After a check a partner that is up was discovered within the interval, at once after an outage or restart; while it is not up its discovery is due. |
| Partner.Partner.Redefine | core/partner.go:303-312 | All subscriptions are gone, the status is unknown, given settings override (with core/partner.go:352-358). |
| Partner.Partner.HandleSubscriptionEntry | core/siri_stop_monitoring_subscription_broadcaster.go:219-237 | A subscription of that name, or a new one if there is none, gets the resource and the options. |
| PartnerRuns.SubscribeTells | core/siri_stop_monitoring_subscription_broadcaster.go:219-237 | Field by field: kind and name, the resource under its key, options that take the place of earlier ones. |
| Partner.Partner.CancelAll | core/siri_subscription_request_dispatcher.go:126-138 | The response lists the external identifiers of the subscriptions of broadcast kind, each once; those with an external identifier are deleted. |
| Partner.Partner.CancelOne | core/siri_subscription_request_dispatcher.go:150-166 | One subscription of that name is deleted, or the response says there is none. |
| Partner.Partner.HandleTerminated | core/siri_subscription_request_dispatcher.go:169-185 | The terminated subscription is deleted, all others stay. |
| CollectManager.UpdateStopArea | core/collect_manager.go:97-149 | The first partner, by priority, that can collect the stop area is asked and no other changes; a partner that is not up is asked only through persistent subscriptions. |
| CollectManager.CanCollect | core/partner.go:332-340 | A partner collects a stop if it has no restrictions, or does not exclude it and includes it, one of its lines, or has discovered it (with core/collect_settings.go). |
| CollectManager.CollectsStopAreaIff | core/collect_manager.go:105-141 | In terms of the settings, by name and text: the partners that may be asked for a stop area. |
| CollectManager.RequestAllSituations | core/collect_manager.go:174-196 | Exactly the partners that are up and not filtered are asked; a partner that is not up is untouched. |
| PartnerRuns.StepKeepsSound | core/partner_guardian.go:64-73 | Every step of the handlers keeps kinds, names, holders, maxima, counts and the absence of collect subscriptions in order. |
| PartnerRuns.SoundInRun | core/partner_guardian.go:38-54 | So does every run. |
| PartnerRuns.NothingCollectedUnlessUp | core/partner_guardian.go:106-121 | In every run, while a partner is stored as not up and its collect subscriptions are not persistent, it has no subscription with an empty external identifier. |
| PartnerRuns.HeldOnceRequested | core/subscription.go:334-366 | Once requested, a resource is held by exactly one subscription of the kind, which holds no more resources than the maximum, for as long as every step spares it and no longer. |
| PartnerRuns.HolderStaysIff | core/partner_guardian.go:99-144 | A step keeps a held resource if and only if it is a check that finds the subscription persistent or the partner up as before, and the resource not expired, or a cancellation or redefinition that does not reach it, or adds. |
| PartnerRuns.HeardIsUpIff | core/partner_guardian.go:82-107 | In every run, what stop areas last heard is whether the partner is up, if and only if it was not redefined while up without a check that answered up or down since (with core/partner.go:352-358). |
| PartnerRuns.StartIsLastTold | core/partner_guardian.go:99-124 | In every run the stored start of the service is the one told by the last check that answered up, or the initial one. |
| PartnerRuns.PersistentSurvivesOutages | core/partner_guardian.go:99-144 | In every run a persistent subscription that no other step removes, and whose resource does not end, survives every outage after which the service answers with the start it had. |
| Partner.SettingsAreRead | core/partner_guardian.go:110-118 | Which settings, by name and text, make subscriptions persistent, filter situations, and bound the resources (with core/partner_settings.go:31-32). |
| PartnerRuns.SweepIsExact | core/partner_guardian.go:127-144 | The sweep removes exactly the confirmed expired resources and leaves no subscription empty. |
| PartnerRuns.RequestRenews | core/siri_stop_monitoring_subscription_collector.go:84-98 | A resource that is requested again survives every sweep for two minutes, 120 seconds of nanoseconds. |
| StopMonitoringSubscriber.StopMonitoringSubscriber.StopAreasToRequest | core/siri_stop_monitoring_subscriber.go:100-111 | Exactly the pending resources are asked for, each in one message. |
| StopMonitoringSubscriber.StopMonitoringSubscriber.HandleResponse | core/siri_stop_monitoring_subscriber.go:159-208 | For any list of statuses or a transport error, and whatever became of the table, each requested resource that is there is accounted for exactly once by its first status; nothing else changes. |
| StopMonitoringSubscriber.StopMonitoringSubscriber.IncrementRetryCountFromMap | core/siri_stop_monitoring_subscriber.go:211-223 | Every message without a status counts as one more retry. |
| StopMonitoringSubscriber.StopMonitoringSubscriber.PrepareSIRIStopMonitoringSubscriptionRequest | core/siri_stop_monitoring_subscriber.go:90-209 | Both together. |
| StopMonitoringSubscriber.FirstStatusOnceAppended | core/siri_stop_monitoring_subscriber.go:176-182 | A later status about the same message does not count. |
| PartnerRuns.AskAccountsOnce | core/siri_stop_monitoring_subscriber.go:176-223 | Per resource: confirmed with no retries, or pending with one more, or untouched if it was not asked for; exactly the collected resources that are not confirmed and were refused ten times at most are asked for. |
| PartnerRuns.RetriesCountAsks | core/siri_stop_monitoring_subscriber.go:103-109 | Over every run in which a resource stays and is never accepted, its count grows by exactly the number of times it was asked for. |
| PartnerRuns.AskedElevenTimesAtMost | core/siri_stop_monitoring_subscriber.go:103-109 | The count never exceeds eleven and such a resource is asked for eleven times at most. |
| PartnerRuns.AskedInEveryExchangeUntilEleven | core/siri_stop_monitoring_subscriber.go:100-111 | Over every run a new resource that stays and is never accepted is asked for in every exchange until it was asked eleven times, and in none after. |
| PartnerRuns.CancellationsPartition | core/subscription.go:432-452 | What one cancellation deletes is what the other leaves; with matching kinds this is the split by kind. |
| PartnerRuns.ListedIffDeleted | core/siri_subscription_request_dispatcher.go:126-138 | A cancellation of all lists exactly what it deletes if and only if kind and external identifier tell the same of every subscription. |
| PartnerRuns.CancelAllListsDeleted | core/siri_subscription_request_dispatcher.go:126-138 | In every run of named subscriptions the response lists exactly the deleted subscriptions, each once. |
| PartnerRuns.CancelOneIsExact | core/siri_subscription_request_dispatcher.go:150-166 | Cancelling a name leaves no subscription of that name and every other as it was. |
| PartnerRuns.SubscribeKeepsKindsIff | core/siri_stop_monitoring_subscription_broadcaster.go:219-223 | A subscription request keeps kinds and identifiers matched if and only if it names a subscription, or takes an unnamed one. |
| PartnerRuns.EmptyNameIsNotCancelled | core/siri_stop_monitoring_subscription_broadcaster.go:219-223 | With an empty identifier, a down partner gets a subscription that is listed as cancelled and stays. |
| Durations.GetOptionDuration | core/last_states.go:240-257 | The duration of the matched groups, years of 365 and months of 30 days, cut to 64 bits. |
| Durations.DurationPow | core/last_states.go:270-280 | Square-and-multiply computes the power. |
| Durations.DurationOfWritten | core/last_states.go:240-268 | What the code reads in any written xsd:duration, wrapped to 64 bits. |
| Durations.MeetsXsdDuration | core/last_states.go:240-268 | Among all written durations the code meets xsd:duration if and only if the duration is not negative, its seconds have three decimals at most, and it fits in 64 bits of nanoseconds, but for dropped zeros. |
| Durations.LongDurationWraps | core/last_states.go:240-268 | Three hundred years are read as a negative duration. |
| LastStates.HasChanged | core/last_states.go:69-100 | Whether a visit changed, by statuses and times: nothing after a departure or cancellation, otherwise a listed new status, no option, or a time outside the tolerance. |
| LastStates.ChangedIffWorthTelling | core/last_states.go:69-100 | The early returns and the loop decide exactly what is worth telling: the statuses by their texts, the tolerance one minute when the option reads as zero, the times strictly within it. |
| LastStates.WithinOwnRecord | core/last_states.go:194-212 | A visit is within the deadband of its own record exactly when the deadband is not empty or it has no time. |
| StopMonitoringBroadcast.Broadcaster.CheckEvent | core/siri_stop_monitoring_subscription_broadcaster.go:104-141 | A checked visit sets last states where there were none and names exactly the subscriptions to tell. |
| StopMonitoringBroadcast.Broadcaster.HandleVisit | core/siri_stop_monitoring_subscription_broadcaster.go:66-102 | The visit is queued for exactly the broadcast subscriptions that hold its stop area or one above, until now or later, on its line, and for which it is new or worth telling; its statuses and schedules are kept where it was new. |
| StopMonitoringBroadcast.Broadcaster.HandleStopMonitoringBroadcastEvent | core/siri_stop_monitoring_subscription_broadcaster.go:66-94 | A visit event checks the visit; a journey event checks the visits of the journey that are still to come, found in the store and ordered by time, one after the other. |
| StopMonitoringBroadcast.Broadcaster.AddStopAreaStopVisits | core/siri_stop_monitoring_subscription_broadcaster.go:261-283 | A new resource is told about exactly the visits still to come in the family of its stop area that it has no state for, on its line. |
| StopMonitoringBroadcast.Broadcaster.FindResource | core/stop_monitoring_broadcaster.go:239-247 | By position: the ascendant that is held when none before it is, or none if none is held. |
| StopMonitoringBroadcast.Broadcaster.PrepareSIRIStopMonitoringNotify | core/stop_monitoring_broadcaster.go:133-221 | A drain sends each subscription every queued visit that is found and accepted, once, under the value of its first held ascendant, as cancelled if and only if its arrival is cancelled or its departure cancelled or departed, nothing else and nothing empty; the queue ends empty and the told states are recorded. |
| BroadcastRuns.SentIsTold | core/stop_monitoring_broadcaster.go:133-221 | What is sent is exactly what was queued and resolves, as cancelled exactly when terminal. |
| BroadcastRuns.TerminalItemIsLast | core/stop_monitoring_broadcaster.go:203-209 | In every run in which a subscription holds one resource above a visit and is not resubscribed, an item sent as cancelled is the last one about the visit. |
| BroadcastRuns.EndIsToldOnce | core/stop_monitoring_broadcaster.go:133-256 | In such a run a visit told as not over, or not at all, that becomes departed or cancelled is queued by its next handled event, sent exactly once, as cancelled, by the next drain, and never sent again. |
| BroadcastRuns.IntroducedHasState | core/siri_stop_monitoring_subscription_broadcaster.go:261-283 | A new resource starts in a state from which that theorem applies. |
| BroadcastRuns.EventMakesSteady | core/siri_stop_monitoring_subscription_broadcaster.go:104-141 | After a handled event the visit is queued, or told as terminal, or each of its times is strictly within the deadband of the one told. |
| BroadcastRuns.DrainKeepsSteady | core/stop_monitoring_broadcaster.go:133-221 | Draining keeps this, for a queued visit that is not terminal if and only if the deadband is not empty or the visit has no time. |
| BroadcastRuns.SteadyInRun | core/stop_monitoring_broadcaster.go:133-221 | Every run of checks, drains, and changes elsewhere that leave the picked resource keeps it. |
| BroadcastRuns.SteadySinceEvent | core/last_states.go:69-100 | From the event that a change causes until the next change, every state of every run is steady about the visit. |
| LocalCredentialsIndex.SplitCredentials | core/local_credentials_index.go:66-79 | The credentials of a comma-separated text, trimmed and without empty ones. |
| LocalCredentialsIndex.SplitUndoesJoin | core/local_credentials_index.go:66-79 | Splitting what was joined from clean credentials gives them back. |
| LocalCredentialsIndex.CredentialsAreClean | core/local_credentials_index.go:66-79 | Split credentials have no comma and no space around them. |
| LocalCredentialsIndex.Difference | core/local_credentials_index.go:81-94 | The elements of the first list that are not in the second, in their order and as often: the result sits at exactly their positions, increasing. |
| LocalCredentialsIndex.LocalCredentialsIndex.Index | core/local_credentials_index.go:19-33 | Credentials that the partner no longer has are dropped, the current ones become its own. |
| LocalCredentialsIndex.LocalCredentialsIndex.UniqCredentials | core/local_credentials_index.go:52-64 | Whether no other partner has one of the credentials. |
| LocalCredentialsIndex.RunFindsExactly | core/local_credentials_index.go:19-64 | If every Index call passed the uniqueness check, Find answers p for a non-empty credential exactly when it is in p's last list, over every run. |
| TripUpdates.HandleGtfs | core/gtfs_rt_trip_updates_broadcaster.go:57-161 | Exactly one entity for each journey with an eligible visit, none skipped, with that journey's updates ordered by stop sequence; over all entities every update of an eligible visit exactly once, with trip, route and stop by their identifiers, the order in 32 bits and the deciding times in seconds since the Unix epoch. |
| TripUpdates.GroupByJourney | core/gtfs_rt_trip_updates_broadcaster.go:66-140 | The grouping loop files each eligible visit with its journey. |
| TripUpdates.FeedIsPermutationOfVisits | core/gtfs_rt_trip_updates_broadcaster.go:57-161 | The stop-time updates of all entities are the updates of the eligible visits, each exactly once. |

## Left out

- Mutexes, goroutines and channels: each step is atomic. The broadcast channel of the model drops events when it is full, so the theorems over runs are about handled events.
- XML, SOAP, HTTP, SQL loading, CSV import, audit and logging: input and output around the modelled state. What an XML visit or a response tells is a value.
- StopArea.FindFamily: requires a graph without cycles; on a cycle the recursion of the code does not end. ParentAssignment.ParentAcyclicIff says which parent assignments make one.
- Diff.DeepValueEqual: requires that every cycle passes through an addressable value; a cycle of pointers alone is not remembered and the recursion of the code does not end.
- MemoryStopVisits.FindFollowingByStopAreaIds is not modelled: it releases its read lock twice.
- StopMonitoringBroadcast.Broadcaster.HandleStopMonitoringBroadcastEvent: stop area broadcast events and the list of partners that are no longer monitored (checkStopAreaEvent, prepareNotMonitored) are not part of it, because the last state kept for a stop area is not modelled.
- StopMonitoringBroadcast.Broadcaster.HandleVisit: the lines, the ascendants and what the notification builder accepts are functions of the step, not computed from the stores.
- UpdateManager.UpdateManager.UpdateStopVisit: the copies of the stop area that are saved last carry the origins and the Monitored flag from before the status was settled; EventEffects.VisitEventOnAreas says so.
- UpdateManager.UpdateManager.UpdateLine: lines, journeys and visits are stores on values with their index; a transaction of the code saves one of them and commits, so update in place and aliasing inside it are not captured.
- Attributes and references of stop areas and visits, and coordinates: copied from the event, nothing depends on them. Those of journeys are modelled, without the list of element names an attribute may have.
- Ingestion.LineStepIsSound: requires a kind other than `_default`; identifiers of that kind are hashes of the value alone and may be shared by several objects (StopMonitoringCollector.DefaultKindIsLost).
- Vehicles, situations, operators, and the broadcasters of general messages and estimated timetables: same patterns. Requests for situations are steps of PartnerRuns, the subscriber of general messages is not.
- PartnerRuns.AskAccountsOnce: the request and its response are one step of a run; StopMonitoringSubscriber.HandleResponse is stated for a table that may have changed in between.
- Subscriptions created through the API: they bypass the handlers whose invariants are proved.
- Partner.Partner.RoutineWork: what a discovery answers is not part of the step, and the text of the discovery interval is not parsed. Reload times and cache timers are not modelled.
- CollectManager.UpdateStopArea: the collector that sends a request at once, without a subscription, changes nothing here.
- Partner.Partner.CheckPartnerStatus: it answers what the collect manager hears; what the stop areas do with it is MemoryStopAreas.StatusPropagation.HandlePartnerStatusChange, and the two stores are not composed. The audit event is not modelled.
- Pointers to subscriptions and resources that outlive their deletion: subscriptions are named by identifier.
- The empty credential: a partner without credentials is indexed under it, so LocalCredentialsIndex.RunFindsExactly excludes it.
- TripUpdates.HandleGtfs: the visits it is given are those FindAllAfter answers for two minutes before now; the finder has its own contract.
- Allocation of identifiers: generators are distinct and fresh by precondition.
