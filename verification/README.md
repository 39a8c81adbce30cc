# Kompakt: capacity ledger and reconcile loop

Kompakt holds pods with scheduling gates until a node can take them. Its controller keeps one
shared **node ledger** (allocatable, used and reserved amounts of existing and in-flight nodes),
rebuilds it from cluster state on every reconcile, carries reservations across the rebuild, runs a
profile's ordered rules, and then holds the pod, pins it to a node, or releases it unpinned.

This project models that ledger and the reconcile state machine around it, and proves what whole
runs keep. Everything is checked by `dafny verify dfyconfig.toml`.

## How the model is built

* `Quantities`, `Text`, `Scheduling`, `Objects`: amounts and the width they are computed in, the Go
  string functions the program calls, taints and tolerations, the Kubernetes and profile objects.
* `Ledger`: the class `NodeLedger`, whose loops compute in int64 with wrap-around written out, and
  functions over its contents (`State`) that say what each operation means. A node entry never
  leaves the ledger, so it is a value inside the ledger's two maps.
* `Demand`, `Rules`, `Sync`, `Affinity`, `Gates`, `Reconcile`: demand extraction, the two registered
  rules and the rule loop, `syncLedger`, the pin rewrite, gate injection and removal, and
  `Reconcile` itself. Each imperative operation is a method proved against a specification.
* `Outcomes`, `Placement`: what a reconcile and a search come to, told from the objects and entries alone, with
  labels, annotations, reasons, effects and times written out, and none of the model's own predicates.
* `SearchOrder`, `Searches`, `Rebuild`, `RuleLoop`, `RuleLists`, `Safety`, `DoubleBooking`,
  `Accounting`, `HoldLoop`, `Exhaustion`, `Gating`, `Isolation`, `Templates`, `Interleaving`,
  `Exactness`: the theorems.
* `Scenarios`, `Exhibits`: small clusters as the program meets them, and runs on them from the empty
  ledger that show where a documented promise fails. In them a coming node is reported without a
  capacity, as the two autoscaler detectors do, and gets one from the profile's template
  (cmd/manager/main.go:109-113, internal/inflight/detector.go:88-91).
* `AutoscalerStatus`, `StatusFormat`: the Cluster Autoscaler status parser and its inverse.

Go iterates maps in no fixed order, so a search is a relation (`FindFitAnswers`) that admits exactly
the answers some order gives (`AnswersAreOrders`), and an evaluation, a rule loop and a reconcile are relations too
(`Evaluates`, `Decides`, `Reconciles`). Theorems hold for every order. Each relation takes a width:
`Int64` is what the methods compute, `Unbounded` is the arithmetic intended. `Exactness` shows that
runs whose inputs stay within a bound never wrap, so the unbounded theorems hold of the code.

List calls, detector answers, the clock and whether a patch is accepted are inputs of a step. A
`Verdict` also names the entry a rule's `Reserve` succeeded on; the Go rules do not return it.
Theorems about runs assume that node names contain no slash (Kubernetes names do not), so that
`profile/name` keys never collide with node names. Some also assume non-empty names, because the
search reads an empty best name as failure (internal/ledger/ledger.go:245).

## Where the code and its documentation part

* docs/concepts/rule-plugins.md says of the list WaitForWorkloadPacking, WaitForNodeReady that a pod is
  released immediately when an existing node has capacity, and that WaitForNodeReady is asked next
  when bin-packing finds nothing. Neither holds: with nothing found the loop stops at the first
  holding rule (`PackingFirstHoldsIff`), so a pod on an empty cluster is never passed through
  (`PackingHoldsForever`, `NeverPassedThrough`); and with a node found the loop goes on, so the demand
  is reserved a second time whenever something still fits, and the pod may be held with the first
  reservation left behind (`DocumentedListIff` says exactly when, `HeldThoughNodeFits` is such a run).
* docs/concepts/node-ledger.md says that reserving before a release prevents double-booking. That holds
  of ledger entries (`WholeRunSafety`), not of nodes. A sync for a profile whose resources a node lacks,
  or a failed list call, makes the ledger forget what was pinned there: `PinsRememberedIff` says
  exactly when it remembers, `EveryPinFits` that all pods ever pinned then fit, and `TwoPinsOnOneSlot` is a run
  with two pods pinned to room for one. And a coming node has one entry per profile, a listed node
  that is not ready one more: what is reserved for it is bounded by the sum over its entries
  (`NodeWithinItsRooms`), so by its capacity if it has just one (`SoleEntryNotDoubleBooked`);
  `TwoHoldsOnOneSlot` and `NotReadyBookedTwice` are runs that reserve twice its capacity.
* docs/concepts/how-it-works.md promises an unconditional release after the timeout. The timeout
  is looked at only after a successful sync: `TimeoutReleases`, `FailedSyncKeepsGates`.
* docs/concepts/node-ledger.md says a reservation ends when the pod runs or its timeout elapses. The controller
  never releases one. A pinned pod that runs is therefore counted twice, as granted and as bound
  (`AvailableCountsBoth`), so a node with room can be refused: `RefusedThoughFreeIff` says exactly when,
  `RunningPodCountedTwice` is such a run. And a held pod reserves again on every cycle, so on an unchanged cluster it is
  passed through once the in-flight rounds are used up, although the node has not arrived:
  `HeldIff` gives the exact number of holds, `RoomIsExhausted` the same beside existing nodes that
  fit and pending nodes of unknown capacity, and `PassedThroughTooEarly` such a pod for every number.
* In-flight keys are meant to isolate profiles. A sync respects that (`SyncKeepsOthers`). The rules
  choose by fit alone: they leave another profile's entry as it was when the pod does not fit it
  (`ForeignEntryKept`), and WaitForNodeReady can reserve on it exactly when it is a best fit of the
  ledger (`CrossesIff`); `ProfilesShareNode` is a run in which that happens. One profile's sync can
  also drop reservations made by another (`ReservationSurvivesIff`, and `TwoPinsOnOneSlot` for a run).
* Transition tracking by provision-task-id removes nothing: the profile's keys are already cleared
  when it runs (`SyncNodes` leaves the in-flight map as it was).
* Pinning writes the node's name into a requirement on the hostname label, so it reaches the node
  exactly if that label repeats the name and the pod's own selector admits it or has an empty
  alternative (`PinReachesTarget`), and it turns an empty selector term
  into one that matches (`PinPreservesMeaning`, `PinWidensEmptyTerm`).
* Single-flight is a sequential property: `RaceIff` says exactly when two concurrent evaluations break
  it. The controller sets MaxConcurrentReconciles to 1 and warns against raising it
  (internal/controller/packingprofile_controller.go:184-189), so the program does not meet such a
  schedule today; the lemma says what that setting protects.
* Listing cpu or memory among additionalResources counts it twice (`TrackedTwiceCountsTwice`).

## Model

| member | source | states |
|---|---|---|
| Safety.WholeRunSafety | internal/controller/packingprofile_controller.go:312-481 | in any run of reconciles by any pods and profiles, failing calls included, at every grant, on an existing or an in-flight entry of the ledger, the usage of the entry plus all demand granted on it since it last entered the ledger (this grant included) is within its allocatable, for each granted resource |
| Safety.GrantFitsListedNode | internal/controller/packingprofile_controller.go:318-386 | the same in the cluster's terms: for a grant on an existing node, the requests of the live pods bound there now plus everything granted are within the allocatable the API lists |
| Safety.GrantFitsInflightNode | internal/rules/scaleup.go:56-63 | over any run, the grants on one in-flight entry since it last entered the ledger are within the capacity the ledger has for it; other entries of the same node are not counted (see DoubleBooking.NodeWithinItsRooms) |
| DoubleBooking.PinsRememberedIff | internal/controller/packingprofile_controller.go:312-352 | over any run with non-negative demands, the ledger remembers every pin ever made on a node if and only if every reconcile since the first had both lists succeed and found the node listed, not being deleted, with the resources its profile demands; otherwise it remembers strictly less |
| DoubleBooking.EveryPinFits | internal/controller/packingprofile_controller.go:114-158 | under that condition a pinned pod and all pods ever pinned to its node fit beside what is running there |
| DoubleBooking.ReservedWithinLastRoom | internal/ledger/ledger.go:161-180 | over any run, no entry holds more than was free on it, allocatable less usage, when it was last granted that resource |
| DoubleBooking.NodeWithinItsRooms | internal/controller/packingprofile_controller.go:404-466 | over any run, what is reserved for a node under all its entries, listed and in-flight, is within the sum of what was free on each when last granted |
| DoubleBooking.SoleEntryNotDoubleBooked | internal/controller/packingprofile_controller.go:464-465 | so a node with a single entry never has more reserved than was free on it |
| DoubleBooking.AvailableCountsBoth | internal/controller/packingprofile_controller.go:361-386 | in any run the ledger has left of a node its listed allocatable, less the requests bound there, less everything granted there since it entered the ledger, bound by now or not |
| DoubleBooking.RefusedThoughFreeIff | internal/ledger/ledger.go:212-226 | a node is refused to a pod the cluster could take if and only if, for some demanded resource, those grants exceed what the pod would leave free |
| Exhibits.TwoPinsOnOneSlot | internal/controller/packingprofile_controller.go:331-352 | a run on one unchanged cluster in which two pods are pinned to a listed node with room for one, a sync of another profile having dropped the first reservation in between |
| Exhibits.TwoHoldsOnOneSlot | internal/controller/packingprofile_controller.go:408-466 | a run on one unchanged cluster in which pods of two profiles are held on two entries of one coming node and twice its capacity is reserved |
| Exhibits.NotReadyBookedTwice | internal/inflight/notready.go:38-77 | a run in which a listed node that is not ready is given to a pinned pod and again, through its in-flight entry, to a held one |
| Exhibits.RunningPodCountedTwice | internal/controller/packingprofile_controller.go:366-386 | a run in which a node has room for two pods, the first is pinned and runs there, and the second is passed through unpinned |
| Safety.PinnedPodsFit | internal/controller/packingprofile_controller.go:114-158 | with non-negative demands, whenever a pod is pinned, it and every pod pinned to that node since it last entered the ledger fit beside what runs there |
| Safety.RunAccounted | internal/ledger/ledger.go:92-122 | after any run, the reservation on every entry, existing or in-flight, is exactly the sum of the grants made on it since it last entered the ledger |
| Safety.SeenReserved | internal/controller/packingprofile_controller.go:312-322 | what a sync leaves reserved under a name: the prior reservation exactly when the name is carried over, nothing otherwise; after a failed list call only other profiles' in-flight entries are carried |
| Exactness.Int64RunIsExact | internal/ledger/ledger.go:31-33 | an int64 run whose inputs stay within a bound b with 2b and b times the number of demanded resources inside int64 is, step for step, an unbounded run, and no reserved amount ever exceeds b |
| Exactness.Int64WholeRunSafety | internal/ledger/ledger.go:161-180 | whole-run safety of the ledger as computed in int64, for every grant, existing and in-flight, and in the cluster's terms for listed nodes |
| Exactness.FindFitExact | internal/ledger/ledger.go:204-249 | under the same bound the int64 search with its MaxInt64 sentinel admits exactly the answers of unbounded best fit |
| Exactness.SentinelHidesNode | internal/ledger/ledger.go:209-235 | without the bound a fitting node with MaxInt64 to spare is reported as no fit |
| Exactness.SentinelHidesIff | internal/ledger/ledger.go:209-247 | an int64 search fails if and only if every entry that fits and meets the constraints has a slack equal to the sentinel |
| HoldLoop.HoldsAreBounded | internal/rules/scaleup.go:44-69 | for the same pod or replicas of it on an unchanged cluster, with no in-flight entry of unknown capacity, whatever else is in the rule list, each hold by WaitForNodeReady lowers the sum over in-flight entries of floor(available/demand) by exactly one, so there are at most that many holds in a row |
| Exhaustion.RoomIsExhausted | internal/rules/scaleup.go:44-69 | under WaitForNodeReady alone on an unchanged cluster, with some positive demand: as many pods as there are rounds on all matching entries are granted one each, pinned or held; every later one leaves the ledger untouched and is passed through unpinned, or held if a node of unknown capacity is pending; rounds on existing and in-flight entries shrink by exactly the pins and the holds |
| Exhaustion.HeldIff | internal/rules/scaleup.go:44-69 | with no existing node that fits and no node of unknown capacity, the n-th repetition is held if and only if n is within the rounds of the in-flight entries the pod matches, and otherwise released unpinned with the ledger untouched |
| Exhaustion.AtMostSlotsHolds | internal/rules/scaleup.go:44-69 | every repetition is released or is one of at most as many holds as the sum over in-flight entries of floor(available/demand) |
| Exhaustion.RoundsCover | internal/ledger/ledger.go:161-180 | an entry takes n reservations of a demand in a row if and only if every resource covers n times its positive amount |
| Exhaustion.PassedThroughTooEarly | internal/rules/scaleup.go:46-63 | for every k, a pod whose coming node has room for k of it by the profile's template: it is held k times, reserving each time, and is then passed through with the node still in flight |
| HoldLoop.HoldTakesSlot | internal/rules/scaleup.go:56-63 | a reconcile held by WaitForNodeReady takes exactly one in-flight slot, whatever else is in the rule list |
| HoldLoop.SlotCountIsFloor | internal/rules/scaleup.go:56-63 | the slots of one entry are floor(available/demand) |
| HoldLoop.RepeatStable | internal/controller/packingprofile_controller.go:312-316 | on an unchanged cluster every sync after the first leaves the ledger, reservations included, exactly as the previous reconcile left it |
| HoldLoop.UnknownCapacityHoldsForever | internal/rules/scaleup.go:46-54 | with an entry of unknown capacity and nothing that fits, WaitForNodeReady alone holds on every repetition and never touches the ledger |
| Templates.PendingNodePreventsScaleUp | internal/controller/packingprofile_controller.go:114-158 | while detectors report a node of unknown capacity, no reconcile under a rule list with WaitForNodeReady releases a pod with demand unpinned for capacity: it is held or pinned to an existing node |
| RuleLoop.SingleFlight | internal/rules/scaleup.go:44-69 | the same for the rule loop, from any ledger with an in-flight signal of the profile |
| RuleLoop.ReleaseTargetsReserved | internal/controller/packingprofile_controller.go:114-158 | for any rule list, unknown rules included, a release with a target names an existing node, not an in-flight one, that met tolerations and nodeSelector and on which the full demand was reserved in the same loop |
| RuleLoop.LoopSound | internal/controller/packingprofile_controller.go:114-145 | the loop changes nothing but reservations, and changes them by exactly the successive grants it made, each of which fitted and met the constraints |
| RuleLoop.NodeReadyOutcomes | internal/rules/scaleup.go:44-69 | in a sequential run WaitForNodeReady has four outcomes, fixed by best fit and the in-flight signal; its race branches are unreachable |
| RuleLoop.ReserveAfterFindSucceeds | internal/ledger/ledger.go:161-180 | a Reserve right after a successful search succeeds, on the very entry found |
| RuleLoop.PassThroughIff | internal/rules/scaleup.go:44-54 | WaitForNodeReady passes a pod through unpinned exactly when nothing fits and nothing is pending for its profile |
| RuleLoop.ProspectNotPassedThrough | internal/controller/packingprofile_controller.go:114-158 | with a fitting entry or a pending node no rule list containing WaitForNodeReady releases unpinned |
| RuleLoop.PackingFirstHoldsIff | internal/controller/packingprofile_controller.go:134-141 | a list starting with WaitForWorkloadPacking holds there, ledger untouched, exactly when no existing node fits |
| RuleLoop.PackingThenNodeReady | internal/controller/packingprofile_controller.go:114-145 | the list WaitForWorkloadPacking, WaitForNodeReady when an existing node fits: one reservation on a tightest existing node, a second, on a best fit of the ledger with the first in place, exactly when something still fits there; released exactly when an existing node is then best, or nothing fits and nothing is pending; otherwise held |
| RuleLists.DocumentedListIff | internal/controller/packingprofile_controller.go:114-145 | on the ledger before the call: that list releases in every search order if and only if, for every tightest existing node, WaitForNodeReady releases once the demand is reserved there; and reserves twice in every order if and only if, for every such node, something still fits |
| RuleLists.PackingHoldsForever | internal/controller/packingprofile_controller.go:134-152 | with WaitForWorkloadPacking first and no existing node that fits, every repetition on an unchanged cluster is a hold that leaves the ledger untouched, whatever rules follow |
| Exhibits.HeldThoughNodeFits | internal/controller/packingprofile_controller.go:114-152 | a run in which a listed node fits the pod and the documented list holds it, with its demand reserved on that node and on a coming one |
| Exhibits.NeverPassedThrough | internal/controller/packingprofile_controller.go:134-152 | on a cluster with no node, listed or coming, the documented list holds a pod at every repetition |
| RuleLoop.EmptyDemandReleases | internal/rules/scaleup.go:38-42 | a pod that demands nothing is released at once, unpinned, by every rule list, and the ledger is left alone |
| RuleLoop.UnregisteredRulesRelease | internal/controller/packingprofile_controller.go:117-122 | a profile none of whose rules is WaitForNodeReady or WaitForWorkloadPacking releases at once, unpinned, without touching the ledger |
| RuleLoop.FoundIffFits | internal/ledger/ledger.go:204-249 | a search succeeds if and only if some entry fits and meets the constraints |
| Placement.SearchIsBestFit | internal/ledger/ledger.go:204-249 | for a pod, an entry is a possible answer if and only if it carries every selected label with the selected value, each of its NoSchedule and NoExecute taints is tolerated, every demanded amount is free, and it leaves least in total, an in-flight one strictly less than every such existing node; nothing is answered iff no entry qualifies |
| Placement.PackingSearchIsBestFit | internal/ledger/ledger.go:254-285 | the same over existing nodes alone |
| Placement.GrantsAdmit | internal/ledger/ledger.go:358-378 | whatever the rule list, every entry granted on carries the pod's selected labels and only taints it tolerates |
| Scheduling.ChecksAdmit | internal/ledger/ledger.go:358-378 | the constraint check is exactly that account of labels and taints; a selected empty value is also met by a missing label |
| SearchOrder.AnswersAreOrders | internal/ledger/ledger.go:204-249 | for non-empty names, an answer is one the search relation admits if and only if the two loops, written as folds with their sentinel and tie rule, give it under some iteration order of the two maps |
| SearchOrder.FoundInSomeOrder | internal/ledger/ledger.go:238-249 | some iteration order finds an entry if and only if it is a best fit |
| Searches.AnswersAgree | internal/ledger/ledger.go:231-243 | over all iteration orders any two answers agree on success, on existing or in-flight, and on slack |
| Searches.NodeReadyOrderIndependent | internal/rules/scaleup.go:44-69 | whether WaitForNodeReady releases, holds or passes through does not depend on map iteration order |
| Searches.SearchAnswers | internal/ledger/ledger.go:204-249 | every search has an answer |
| Searches.ReconcileExists | internal/controller/packingprofile_controller.go:52-161 | every reconcile has an outcome, at either width |
| Rebuild.RebuildRefinesCluster | internal/controller/packingprofile_controller.go:318-386 | after a successful sync the existing entries are exactly the listed, non-deleted nodes with the demanded extended resources, as listed; usage is the requests of live bound pods; reservations are the prior ones for surviving names and none for new ones |
| Rebuild.ReservationSurvivesIff | internal/controller/packingprofile_controller.go:323-352 | a node's reservations survive a sync if and only if it is listed, not being deleted, and has the resources the syncing profile demands |
| Rebuild.RebuildForgets | internal/controller/packingprofile_controller.go:312-316 | only reservations and other profiles' in-flight entries of the old ledger influence the new one |
| Rebuild.RebuildIsStable | internal/controller/packingprofile_controller.go:477-480 | on an unchanged cluster a sync is a fixed point, whatever has been reserved since |
| Rebuild.UsageIsBoundRequests | internal/controller/packingprofile_controller.go:361-386 | summed usage of a node is the requests of the pods bound to it whose phase is neither Succeeded nor Failed, for every resource; in int64, wrapped |
| Rebuild.PodAddsUsage | internal/controller/packingprofile_controller.go:366-386 | one more pod in the list adds exactly its container requests to the node it is bound to, and nothing elsewhere; an unbound, succeeded or failed pod adds nothing |
| Rebuild.FirstDetectorUsed | internal/controller/packingprofile_controller.go:408-420 | the first detector that finds nodes is used alone, failing and empty ones before it are passed over |
| Accounting.OpsAccounted | internal/ledger/ledger.go:161-197 | for any interleaving of Reserve calls, failed ones included, and releases of outstanding grants in any order, what is reserved is the exact sum of the outstanding grants |
| Accounting.ClampNeverFires | internal/ledger/ledger.go:191-196 | releasing an outstanding grant never reaches the clamp at zero |
| Accounting.ReserveReleaseRoundTrip | internal/ledger/ledger.go:161-197 | releasing what was just reserved restores every available amount |
| Demand.DemandMeaning | internal/rules/demand.go:21-65 | by requests, a resource is demanded iff some container requests it and the source counts it, an explicit list as often as it names it, otherwise cpu and memory once each plus as often as the additional list names it, and the amount is that many times the container sum; by annotation it is the one parsed annotation, nothing when absent or malformed; any other kind demands nothing |
| Accounting.ReservedIsUsed | internal/rules/demand.go:40-52 | the demand extracted for a resource is the number of times it is tracked times what the bound pod adds to its node's usage; the two are equal exactly when it is tracked once or adds nothing |
| Accounting.DistinctOccursOnce | internal/rules/demand.go:21-37 | in a duplicate-free list every tracked resource is tracked once |
| Accounting.TrackedTwiceCountsTwice | internal/rules/demand.go:28-31 | additionalResources naming cpu doubles the cpu demand |
| Interleaving.NeverOversubscribed | internal/ledger/ledger.go:161-180 | however searches and reservations of any number of clients interleave, no available amount that was non-negative becomes negative |
| Interleaving.ClaimsAreReserved | internal/rules/scaleup.go:56-69 | under any interleaving reservations grow by exactly what the finished clients were granted |
| Interleaving.ClaimsFit | internal/ledger/ledger.go:161-180 | all clients together are never granted more on an entry than it had available at first |
| Interleaving.RaceIff | internal/rules/scaleup.go:44-69 | with a node of unknown capacity pending, a client of WaitForNodeReady racing any other client can be released unpinned if and only if some in-flight entry answers both searches of the first ledger and has no room for it once the other has reserved |
| Interleaving.RaceInvariant | internal/rules/scaleup.go:44-69 | what every state of such a race keeps: until the first client is done the ledger is the first one, or that with one reservation on an answer of the rival |
| Interleaving.LastSlot | internal/rules/scaleup.go:56-63 | a ledger in which two replicas race for the last slot |
| Isolation.SyncKeepsOthers | internal/ledger/ledger.go:80-88 | a sync for one profile, successful or not, changes no in-flight entry or reservation of another, also when one name is a prefix of the other |
| Isolation.SignalIsOwn | internal/ledger/ledger.go:317-326 | another profile's sync does not change the signal a profile sees |
| Isolation.SignalNamesOwnEntry | internal/ledger/ledger.go:317-326 | the signal is raised exactly by entries the profile owns |
| Isolation.GrantedAmount | internal/ledger/ledger.go:176-178 | a rule loop changes an entry's reservation by exactly the demand it granted there, whichever profile owns the entry |
| Isolation.ReservesInflightIff | internal/rules/scaleup.go:44-63 | WaitForNodeReady can reserve on an in-flight entry if and only if some iteration order of the maps finds it, which is if and only if the entry is a best fit of the ledger before the call, whoever owns it |
| Isolation.UnfitEntryUntouched | internal/controller/packingprofile_controller.go:114-145 | whatever the rule list, an in-flight entry that does not fit the pod or does not meet its constraints is left exactly as it was |
| Isolation.ForeignEntryKept | internal/controller/packingprofile_controller.go:52-161 | another profile's in-flight entry comes through a whole reconcile, sync and rules, as it was unless the pod could be placed on it |
| Isolation.CrossesIff | internal/controller/packingprofile_controller.go:114-158 | a reconcile under WaitForNodeReady can reserve on another profile's in-flight entry if and only if that entry is a best fit of the synced ledger, which is if and only if some iteration order finds it |
| Exhibits.ProfilesShareNode | internal/rules/scaleup.go:44-63 | a run on one unchanged cluster in which a pod of one profile is held on another profile's entry of a coming node, that entry being tighter than its own profile's |
| Outcomes.OutcomeCases | internal/controller/packingprofile_controller.go:52-161 | every outcome exactly when it comes about: error, ignored, profile not found, retry, priority, timeout and the rules, from the lookups, gates, label, lists, priority annotation, creation time and timeout, each written out; nothing is granted outside the rules |
| Outcomes.RulesDecideOutcome | internal/controller/packingprofile_controller.go:114-158 | in the remaining case the rule loop decides on the synced ledger: a hold names its rule, a release its target |
| Outcomes.LedgerOtherwise | internal/controller/packingprofile_controller.go:52-112 | in every other case the ledger is synced if the reconcile got that far and otherwise left alone |
| Outcomes.PodPinned | internal/controller/packingprofile_controller.go:265-298 | after an accepted patch a pod released for a target may be placed exactly on the nodes of that hostname that its own affinity admits or an empty alternative lets in; every other reconcile leaves its affinity alone |
| Outcomes.AnnotationsAfter | internal/controller/packingprofile_controller.go:246-254 | key by key: a release sets the reason, sets the target node iff there is one, removes held-by; a hold sets held-by to its rule; no other annotation changes |
| Outcomes.GatesAfter | internal/controller/packingprofile_controller.go:256-263 | a release removes every gate of ours and no other gate; nothing else of the pod changes, and nothing at all without an accepted patch |
| Gating.BoundedGating | internal/controller/packingprofile_controller.go:102-152 | whatever the rules answer and however the cluster changes, with syncs at least a second apart a pod is held at most timeout in seconds plus one times |
| Gating.TimeoutReleases | internal/controller/packingprofile_controller.go:96-112 | a managed pod older than its profile's timeout, three minutes when that does not parse, loses all its gates if and only if both list calls succeeded and the patch was accepted, and keeps its other gates in order |
| Gating.FailedSyncKeepsGates | internal/controller/packingprofile_controller.go:96-100 | a failed list call leaves the pod gated whatever its age or priority, and leaves no reservation on any existing node |
| Gating.GatesAllOrNothing | internal/controller/packingprofile_controller.go:256-263 | a reconcile removes all Kompakt gates or none and never another gate |
| Templates.ChosenTemplateAdmits | internal/controller/packingprofile_controller.go:434-466 | a detected node enriched by the pod's template passes the pod's constraint check if and only if it brought no labels or labels the pod selects |
| Templates.OwnLabelsCanFail | internal/controller/packingprofile_controller.go:449-452 | a node with labels of its own fails that check under the pod's own template |
| Templates.EnrichedNodeIsAwaited | internal/controller/packingprofile_controller.go:434-466 | when what the template promises less restored reservations covers the demand, the pod is not passed through unpinned |
| Templates.TemplateForPodIsFirst | internal/controller/packingprofile_controller.go:642-674 | the template found is the first that carries the pod's selected labels with their values and only NoSchedule and NoExecute taints it tolerates, and none is found only if none does |
| Templates.TemplateOrder | internal/controller/packingprofile_controller.go:434-442 | the first template of the node's instance type wins, then the first whose name prefix the node has, then the first that may take the pod |
| Templates.TemplateFillsGaps | internal/controller/packingprofile_controller.go:443-465 | what a node reports of itself stays, a template fills the rest and alone gives taints; without either the capacity is unknown |
| Affinity.PinnedMeaning | internal/controller/packingprofile_controller.go:265-295 | the rewritten selector admits exactly the nodes on the target host that the original admitted, plus those on it when the original had an empty term or an empty term list |
| Affinity.PinPreservesMeaning | internal/controller/packingprofile_controller.go:265-295 | for selectors absent or with all terms non-empty, a node satisfies the rewritten selector iff it satisfied the original and carries the target hostname; otherwise exactly when it is not a target node the original rejected |
| Affinity.PinWidensEmptyTerm | internal/controller/packingprofile_controller.go:281-286 | a selector that matched nothing admits the target after the rewrite |
| Affinity.PinReachesTarget | internal/controller/packingprofile_controller.go:267-271 | a pinned pod can be placed on its node exactly when the node's hostname label repeats its name and the pod's own affinity admits it or has an empty alternative |
| Affinity.Pin | internal/controller/packingprofile_controller.go:280-294 | the loop over terms computes the rewrite |
| Gates.GateRoundTrip | internal/webhook/mutating.go:80-106 | for any number of webhook invocations on a pod without Kompakt gates, removal restores the original gate list in order, and in between the controller sees the pod iff some invocation injected |
| Gates.AdmitAllGates | internal/webhook/mutating.go:56-106 | the same for a pod that already carries Kompakt gates: injection never changes what removal leaves |
| Gates.ReleaseGatesWithAffinity | internal/controller/packingprofile_controller.go:243-298 | the released pod: reason and target annotations set, held-by removed, Kompakt gates filtered out in order; with a target it may be placed exactly on the nodes of that hostname its own affinity admits or an empty alternative lets in, without one its affinity is as it was |
| Gates.AdmissionMeaning | internal/webhook/mutating.go:56-117 | a pod is denied exactly when it is not excluded, names a profile and that does not exist, and gated exactly when the profile exists and some rule of it has a gate; it keeps its gates, gains those of the rules behind them, gets the trace id, and is otherwise unchanged |
| Gates.GateOfRule | internal/webhook/mutating.go:27-33 | the gate of each of the five rules, none for any other |
| Gates.GatesForConcat | internal/webhook/mutating.go:80-88 | the gates of a rule list are those of its parts, in rule order |
| Gates.Handle | internal/webhook/mutating.go:47-117 | the webhook's answer: excluded, unlabelled or rule-less pods untouched, unknown profiles denied, otherwise gates of the known rules appended in rule order and the trace id set |
| Gates.SeenUntilReleased | internal/controller/packingprofile_controller.go:230-237 | the controller sees a pod if and only if a release would change its gate list, and never sees a released pod again |
| Gates.FindsKompaktGate | internal/controller/packingprofile_controller.go:230-237 | the scan finds a gate iff some gate carries the prefix |
| StatusFormat.RenderParses | internal/inflight/detector.go:73-114 | every well-formed status text is read back as the groups and pending counts it was written from |
| StatusFormat.DetectsPending | internal/inflight/detector.go:66-97 | for distinct group names the parse yields, for every group, exactly the nodes numbered 0 to target - ready - 1 and none when that is not positive, all under different names |
| AutoscalerStatus.ParseCounts | internal/inflight/detector.go:73-97 | for any text the number of nodes is the sum of max(0, target - ready) over its reports, and names are distinct iff no group reports pending nodes twice |
| AutoscalerStatus.PendingNameInjective | internal/inflight/detector.go:88-91 | a generated name determines its group and number |
| AutoscalerStatus.AllNodesNames | internal/inflight/detector.go:84-94 | exactly which nodes are generated |
| AutoscalerStatus.ParseCAStatus | internal/inflight/detector.go:73-97 | the line loop yields the nodes of the reports in the text |
| AutoscalerStatus.ParseHealthLine | internal/inflight/detector.go:99-114 | the part loop yields the value of the last part that mentions each of ready and target; a malformed value there counts as zero, an out-of-range one as the nearest int64 |
| AutoscalerStatus.LinesThatCount | internal/inflight/detector.go:76-95 | a Health line reports for the last name before it and only the first one does; orphaned Health lines and other lines count for nothing |
| AutoscalerStatus.LastMentionWins | internal/inflight/detector.go:99-114 | of the comma-separated parts, the last that mentions a value sets it, and a value that none mentions stays zero |
| Text.ParseMeaning | internal/rules/demand.go:60-63 | a sign and digits are read as that number, clamped to int64 and refused when clamped |
| Text.ParseRejects | internal/rules/demand.go:60-63 | anything else is refused and read as zero |
| Text.SplitMeaning | internal/inflight/detector.go:76-101 | splitting cuts at every separator and nowhere else |
| Text.TrimMeaning | internal/inflight/detector.go:77-103 | trimming takes the spaces off both ends and all of them |
| Text.IndexIsFirst | internal/inflight/detector.go:116-123 | the position found is the first |
| Text.DecimalValue | internal/inflight/detector.go:89-89 | printing a number and reading its digits are inverse |
| Text.ParseDecimal | internal/inflight/detector.go:105-111 | a printed int64 is parsed back |
| Ledger.NodeLedger.FindFit | internal/ledger/ledger.go:204-249 | over every iteration order: the tightest fitting entry that meets the constraints, an in-flight one only when strictly tighter than every fitting existing node; what is found carries every selected label with its value and no untolerated NoSchedule or NoExecute taint |
| Ledger.NodeLedger.FindFitExisting | internal/ledger/ledger.go:254-285 | the same over existing nodes alone |
| Ledger.ScanEntries | internal/ledger/ledger.go:238-243 | one search loop leaves the least slack of the choosable entries, and moves the lead only to a strictly tighter one |
| Ledger.CheckEntry | internal/ledger/ledger.go:212-229 | an entry's constraints, fit and total slack, in int64 |
| Ledger.NodeLedger.Reserve | internal/ledger/ledger.go:161-180 | all or nothing: succeeds iff every demanded resource is available, then adds the demand to that entry alone; a failure changes nothing |
| Ledger.HasRoom | internal/ledger/ledger.go:170-174 | the availability loop |
| Ledger.NodeLedger.ReleaseReservation | internal/ledger/ledger.go:183-197 | subtracts the demand from that entry's reservation, clamped at zero; an unknown name changes nothing |
| Ledger.NodeLedger.SnapshotReservations | internal/ledger/ledger.go:92-107 | all non-empty reservations by name |
| Ledger.NodeLedger.RestoreReservations | internal/ledger/ledger.go:111-122 | reservations of names still present are replaced, others dropped |
| Ledger.NodeLedger.ClearInflightByPrefix | internal/ledger/ledger.go:80-88 | exactly the in-flight keys with the prefix go |
| Ledger.NodeLedger.HasInflightSignal | internal/ledger/ledger.go:317-326 | true iff some in-flight entry under the prefix has empty allocatable |
| Ledger.NodeLedger.UpdateUsage | internal/ledger/ledger.go:132-138 | replaces the usage of a known node only |
| Ledger.NodeLedger.AddNode | internal/ledger/ledger.go:51-61 | a fresh entry replaces any of that name |
| Ledger.NodeLedger.AddInflightNode | internal/ledger/ledger.go:141-151 | a fresh in-flight entry replaces any of that key |
| Ledger.NodeLedger.ClearNodes | internal/ledger/ledger.go:64-68 | no existing nodes remain, in-flight ones stay |
| Ledger.NodeLedger.RemoveInflightNode | internal/ledger/ledger.go:154-158 | that key goes, nothing else |
| Ledger.NodeLedger.constructor | internal/ledger/ledger.go:43-48 | an empty ledger |
| Scheduling.TolerateTaint | internal/scheduling/tolerations.go:6-20 | the scan accepts iff some toleration accepts the taint |
| Demand.ExtractFromRequests | internal/rules/demand.go:40-52 | each tracked and requested resource, times the number of its listings |
| Demand.WithContainerAt | internal/rules/demand.go:42-50 | one container adds each resource as often as it is listed |
| Demand.ExtractDemand | internal/rules/demand.go:21-65 | the demand as `DemandMeaning` says, in int64, for every resource |
| Rules.EvaluateNodeReady | internal/rules/scaleup.go:33-70 | WaitForNodeReady on the shared ledger, for every search order |
| Rules.EvaluatePacking | internal/rules/binpack.go:30-52 | WaitForWorkloadPacking on the shared ledger, for every search order |
| Rules.RunRules | internal/controller/packingprofile_controller.go:114-145 | the loop decides as `Decides` says: unknown rules skipped, first hold stops, last target wins |
| Sync.SyncLedger | internal/controller/packingprofile_controller.go:312-481 | the rebuilt ledger on success, the half-cleared one when a list call fails |
| Sync.SyncNodes | internal/controller/packingprofile_controller.go:323-359 | eligible nodes are entered afresh and the in-flight map is left as it was |
| Sync.SumUsage | internal/controller/packingprofile_controller.go:366-383 | usage by node over live bound pods |
| Sync.ApplyUsage | internal/controller/packingprofile_controller.go:384-386 | usage reaches exactly the nodes in the ledger |
| Sync.SyncInflight | internal/controller/packingprofile_controller.go:404-466 | the first detector with findings is used and its nodes, enriched by template, are entered under the profile's keys |
| Reconcile.PackingProfileReconciler.Reconcile | internal/controller/packingprofile_controller.go:52-161 | one reconcile as `Reconciles` says, and the pod as stored afterwards |

## Left out

- Kubernetes clients, patches, watches, leader election, events, logging and metrics: calls enter as inputs with success or failure.
- internal/certgen, deepcopy code, charts, status conditions and warnings: nothing in them bears on the ledger.
- internal/inflight/goatscaler.go and internal/inflight/notready.go: treated as detectors returning arbitrary lists.
- Quantity and duration parsing: amounts start as millivalues, timeouts as nanoseconds or unparsable.
- JSON decoding in the webhook and trace id generation: a decoded pod and an id are inputs.
- RemoveNode, ClearInflight and Snapshot of the ledger: not used by the reconcile loop except for metrics.
- The ledger's mutex: each ledger method is one atomic step.
- Pods and entries as shared mutable objects: they are values that methods replace; the originals are not aliased.
- Affinity.Pinned: preferred affinity and the nesting of absent affinity objects are not modelled, only the required node selector.
- Safety.WholeRunSafety: says nothing of resources a pod does not demand, nor of usage or allocatable that change after the grant, since the code looks at neither.
