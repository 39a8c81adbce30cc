/** Small clusters as the program meets them, used to exhibit runs: a pod that asks for one resource,
    one listed node, one pending node that the autoscaler detectors report without a capacity. */
module Scenarios {
  import opened Quantities
  import opened Scheduling
  import opened Objects
  import opened Ledger
  import opened Rules
  import opened Sync
  import opened Reconcile
  import opened Rebuild
  import opened RuleLoop
  import opened Gates
  import opened Templates
  import opened Searches
  import opened Safety
  import Demand

  /** A profile that tracks one resource by requests. */
  function TrackingProfile(name: string, r: string, templates: seq<Template>, rules: seq<string>): Profile {
    Profile(name, DemandSource("ResourceRequest", [r], [], ""), templates, rules, None)
  }

  function WaitingProfile(name: string, r: string, templates: seq<Template>): Profile {
    TrackingProfile(name, r, templates, [NODE_READY])
  }

  /** What nodes of the pool offer; it names no node, so it serves every pod it admits. */
  function PoolTemplate(r: string, capacity: int): Template {
    Template("", "", map[r := capacity], map[], [])
  }

  /** A pod of a profile, gated as the webhook does, whose one container requests one resource. */
  function AskingPod(profile: Profile, r: string, qty: int): Pod {
    Pod(map[LABEL_PROFILE := profile.name], map[], map[], [], [map[r := qty]], GatesFor(profile.rules),
        None, Some(0), "", "Pending")
  }

  /** What the autoscaler detectors answer for a node that does not exist yet. */
  function ComingNode(n: string): InflightNode {
    InflightNode(n, map[], map[], "")
  }

  function ListedNode(n: string, r: string, capacity: int): Node {
    Node(n, false, map[r := capacity], map[HOSTNAME := n], [])
  }

  /** A cluster whose first detector reports `found`; the other two have nothing to add. */
  function Scene(nodes: seq<Node>, pods: seq<Pod>, found: seq<InflightNode>): Cluster {
    Cluster(Some(nodes), Some(pods), [Some(found), Some([]), Some([])])
  }

  predicate Unbound(pods: seq<Pod>) {
    forall p :: p in pods ==> p.nodeName == ""
  }

  function Asking(profile: Profile, r: string, qty: int, cluster: Cluster): Request {
    Request(Found(AskingPod(profile, r, qty)), Found(profile), cluster, 0, true)
  }

  predicate Tracks(profile: Profile, r: string) {
    profile.demandSource == DemandSource("ResourceRequest", [r], [], "") && profile.timeout.None?
  }

  lemma AskedDemand(profile: Profile, r: string, qty: int)
    requires Tracks(profile, r)
    ensures PodDemand(Unbounded, AskingPod(profile, r, qty), profile) == map[r := qty]
    ensures r in PodDemand(Unbounded, AskingPod(profile, r, qty), profile)
  {
    var containers, tracked := [map[r := qty]], [r];
    assert containers[..0] == [] && tracked[..0] == [];
    assert Demand.RequestSum(containers, r) == qty;
    assert Demand.Occurrences(tracked, r) == 1;
    assert Demand.Requested(containers, r) by { assert r in containers[0]; }
  }

  /** Both rules have gates, so the controller sees the pod. */
  lemma GatesInjected(rules: seq<string>)
    requires rules != [] && rules[|rules| - 1] == NODE_READY
    ensures FindsKompaktGate(GatesFor(rules))
  {
    GatesForAreKompakt(rules);
    var gates := GatesFor(rules);
    assert GateName(NODE_READY).Some?;
    assert gates[|gates| - 1] in gates;
  }

  lemma AskingRuns(profile: Profile, r: string, qty: int, cluster: Cluster)
    requires Tracks(profile, r) && Listed(cluster)
    requires profile.rules != [] && profile.rules[|profile.rules| - 1] == NODE_READY
    ensures RunsRules(Asking(profile, r, qty, cluster))
  {
    GatesInjected(profile.rules);
  }

  lemma SceneDetects(nodes: seq<Node>, pods: seq<Pod>, found: seq<InflightNode>)
    ensures Detected(Scene(nodes, pods, found).detections) == found
  {
    var none: Option<seq<InflightNode>> := Some([]);
    assert [Some(found), none, none][1..] == [none, none];
    assert [none, none][1..] == [none] && [none][1..] == [];
    assert Detected([none]) == [];
    assert Detected([none, none]) == [];
  }

  lemma {:induction false} UnboundRequestNothing(pods: seq<Pod>, n: string, r: string)
    requires Unbound(pods)
    ensures BoundRequests(pods, n, r) == 0
  {
    if pods != [] {
      assert pods[|pods| - 1] in pods;
      UnboundRequestNothing(pods[..|pods| - 1], n, r);
    }
  }

  /** The one listed node as the rules see it. */
  lemma NodeSeen(s: State, profile: Profile, pod: Pod, cluster: Cluster, node: Node, r: string)
    requires WellKeyed(s) && NamesValid(cluster) && Listed(cluster)
    requires cluster.nodes.value == [node] && Usable(node, profile)
    ensures var t := Rebuilt(Unbounded, s, profile, pod, cluster);
      && t.nodes.Keys == {node.name}
      && t.nodes[node.name].taints == node.taints && t.nodes[node.name].labels == node.labels
      && t.nodes[node.name].reserved == (if node.name in s.nodes then s.nodes[node.name].reserved else map[])
      && Available(Unbounded, t.nodes[node.name], r) ==
         Get(node.allocatable, r) - BoundRequests(cluster.pods.value, node.name, r) - Get(t.nodes[node.name].reserved, r)
  {
    RebuildRefinesCluster(s, profile, pod, cluster);
    var t := Rebuilt(Unbounded, s, profile, pod, cluster);
    assert node in cluster.nodes.value;
    assert forall name :: name in t.nodes <==> name == node.name;
  }

  lemma NodesUnseen(s: State, profile: Profile, pod: Pod, cluster: Cluster)
    requires WellKeyed(s) && NamesValid(cluster) && Listed(cluster)
    requires forall node :: node in cluster.nodes.value ==> !Usable(node, profile)
    ensures Rebuilt(Unbounded, s, profile, pod, cluster).nodes == map[]
  {
    RebuildRefinesCluster(s, profile, pod, cluster);
    var t := Rebuilt(Unbounded, s, profile, pod, cluster);
    assert forall name :: name !in t.nodes;
  }

  lemma NothingDetected(s: State, profile: Profile, pod: Pod, cluster: Cluster)
    requires Listed(cluster) && Detected(cluster.detections) == [] && s.inflight == map[]
    ensures Rebuilt(Unbounded, s, profile, pod, cluster).inflight == map[]
  {
    assert OtherInflight(s, profile) == map[];
  }

  lemma KeptEntry(s: State, profile: Profile, pod: Pod, cluster: Cluster, k: string)
    requires WellKeyed(s) && NamesValid(cluster) && Listed(cluster) && !HasPrefix(k, ProfilePrefix(profile))
    requires k in Rebuilt(Unbounded, s, profile, pod, cluster).inflight
    ensures k in s.inflight && Rebuilt(Unbounded, s, profile, pod, cluster).inflight[k] == s.inflight[k]
  {
    DetectedAreFresh(s, profile, pod, Detected(cluster.detections), k);
    RebuiltReserved(Unbounded, s, profile, pod, cluster, k);
    SyncedWellKeyed(Unbounded, s, profile, pod, cluster);
  }

  /** The one detected node, and the in-flight entries of other profiles, as the rules see them. */
  lemma DetectedSeen(s: State, profile: Profile, pod: Pod, cluster: Cluster, node: InflightNode)
    requires WellKeyed(s) && NamesValid(cluster) && Listed(cluster)
    requires Detected(cluster.detections) == [node]
    ensures var t, key := Rebuilt(Unbounded, s, profile, pod, cluster), InflightKey(profile, node.name);
      && (forall k :: k in t.inflight <==> k == key || (k in s.inflight && !HasPrefix(k, ProfilePrefix(profile))))
      && t.inflight[key] == InflightEntry(node, pod, profile).(
           reserved := if key in s.inflight then s.inflight[key].reserved else map[])
      && (forall k :: k in t.inflight && k != key ==> t.inflight[k] == s.inflight[k])
  {
    var t, key, found := Rebuilt(Unbounded, s, profile, pod, cluster), InflightKey(profile, node.name), Detected(cluster.detections);
    EnrichedEntry(s, pod, profile, cluster, node);
    KeyHasPrefix(profile, node.name);
    forall k ensures k in t.inflight <==> k == key || (k in s.inflight && !HasPrefix(k, ProfilePrefix(profile))) {
      WithDetectedAt(OtherInflight(s, profile), found, pod, profile, k);
    }
    forall k | k in t.inflight && k != key ensures t.inflight[k] == s.inflight[k] {
      KeptEntry(s, profile, pod, cluster, k);
    }
  }

  /** A coming node gets its capacity from the profile's template. */
  lemma ComingEntry(n: string, pod: Pod, profile: Profile, r: string, capacity: int)
    requires profile.templates == [PoolTemplate(r, capacity)] && pod.nodeSelector == map[]
    ensures InflightEntry(ComingNode(n), pod, profile) == FreshEntry(map[r := capacity], map[], [])
  {
    var rest := profile.templates[1..];
    assert rest == [];
    assert FirstByNamePrefix(ComingNode(n), rest) == None;
  }

  /** What an asking pod may be placed on: an untainted entry with the quantity available. */
  lemma AskedChoosable(e: Entry, profile: Profile, r: string, qty: int)
    requires e.taints == []
    ensures Choosable(Unbounded, e, map[r := qty], ConstraintsOf(AskingPod(profile, r, qty))) <==> Available(Unbounded, e, r) >= qty
  {
    OneResourceFits(e, r, qty);
  }

  lemma OneResourceFits(e: Entry, r: string, qty: int)
    ensures Fits(Unbounded, e, map[r := qty]) <==> Available(Unbounded, e, r) >= qty
  {
    assert r in map[r := qty];
  }

  lemma OneResourceSlack(e: Entry, r: string, qty: int)
    ensures Slack(Unbounded, e, map[r := qty]) == Available(Unbounded, e, r) - qty
  {
    assert Leftovers(Unbounded, e, map[r := qty]) == map[][r := Available(Unbounded, e, r) - qty];
    MapSumInsert(map[], r, Available(Unbounded, e, r) - qty);
  }

  lemma SoleCandidate(s: State, demand: Amounts, c: Option<Constraints>, name: string, inflight: bool)
    requires Candidate(Unbounded, s, demand, c, name, inflight)
    requires forall n, i :: Candidate(Unbounded, s, demand, c, n, i) ==> n == name && i == inflight
    ensures IsBest(Unbounded, s, demand, c, name, inflight)
  {
  }

  /** The ledger the request's rules decide on, and its demand. */
  function SyncedFor(s: State, req: Request): State
    requires RunsRules(req)
  {
    Rebuilt(Unbounded, s, req.profile.value, req.pod.value, req.cluster)
  }

  function DemandFor(req: Request): Amounts
    requires RunsRules(req)
  {
    PodDemand(Unbounded, req.pod.value, req.profile.value)
  }

  /** A best in-flight entry can hold the pod. */
  lemma CanHold(s: State, req: Request, key: string)
    requires WellKeyed(s) && NamesValid(req.cluster) && RunsRules(req)
    requires req.profile.value.rules == [NODE_READY] && DemandFor(req) != map[]
    requires IsBest(Unbounded, SyncedFor(s, req), DemandFor(req), ConstraintsOf(req.pod.value), key, true)
    ensures HasEntry(SyncedFor(s, req), key)
    ensures Reconciles(Unbounded, s, req, Reserved(Unbounded, SyncedFor(s, req), key, DemandFor(req)), Held(NODE_READY), [key])
  {
    var pod, profile, t, demand := req.pod.value, req.profile.value, SyncedFor(s, req), DemandFor(req);
    SyncedWellKeyed(Unbounded, s, profile, pod, req.cluster);
    assert key in t.inflight;
    var fit, v := FitOn(key, true), Verdict(false, "", Some(key));
    assert FindFitAnswers(Unbounded, t, demand, ConstraintsOf(pod), fit);
    ReserveAfterFindSucceeds(Unbounded, t, demand, ConstraintsOf(pod), fit);
    assert (Reserved(Unbounded, t, key, demand), v) == NodeReadyAfter(Unbounded, t, demand, ProfilePrefix(profile), fit);
    assert Evaluates(Unbounded, NODE_READY, t, pod, profile, Reserved(Unbounded, t, key, demand), v);
    HoldDecides(Unbounded, t, pod, profile, profile.rules, "", Reserved(Unbounded, t, key, demand), v);
  }

  /** A best existing node can take the pod. */
  lemma CanPin(s: State, req: Request, name: string)
    requires WellKeyed(s) && NamesValid(req.cluster) && RunsRules(req)
    requires req.profile.value.rules == [NODE_READY] && DemandFor(req) != map[] && name != ""
    requires IsBest(Unbounded, SyncedFor(s, req), DemandFor(req), ConstraintsOf(req.pod.value), name, false)
    ensures HasEntry(SyncedFor(s, req), name)
    ensures Reconciles(Unbounded, s, req, Reserved(Unbounded, SyncedFor(s, req), name, DemandFor(req)),
                       Released("capacity", name), [name])
  {
    var pod, profile, t, demand := req.pod.value, req.profile.value, SyncedFor(s, req), DemandFor(req);
    var fit, v := FitOn(name, false), Verdict(true, name, Some(name));
    assert FindFitAnswers(Unbounded, t, demand, ConstraintsOf(pod), fit);
    SyncedWellKeyed(Unbounded, s, profile, pod, req.cluster);
    ReserveAfterFindSucceeds(Unbounded, t, demand, ConstraintsOf(pod), fit);
    var t' := Reserved(Unbounded, t, name, demand);
    assert (t', v) == NodeReadyAfter(Unbounded, t, demand, ProfilePrefix(profile), fit);
    assert Evaluates(Unbounded, NODE_READY, t, pod, profile, t', v);
    assert Decides(Unbounded, t', pod, profile, profile.rules[1..], name, t', Release(name), []);
    PrependRelease(Unbounded, t, pod, profile, profile.rules, "", t', v, t', Release(name), []);
    assert GrantList(v) + [] == [name];
  }

  /** With nothing that fits and nothing pending, the pod is passed through. */
  lemma MustPass(s: State, req: Request, s': State, out: Outcome, grants: seq<string>)
    requires WellKeyed(s) && NamesValid(req.cluster) && RunsRules(req)
    requires req.profile.value.rules == [NODE_READY] && DemandFor(req) != map[]
    requires forall n, i :: !Candidate(Unbounded, SyncedFor(s, req), DemandFor(req), ConstraintsOf(req.pod.value), n, i)
    requires !HasInflightSignalIn(SyncedFor(s, req), ProfilePrefix(req.profile.value))
    requires Reconciles(Unbounded, s, req, s', out, grants)
    ensures s' == SyncedFor(s, req) && out == Released("capacity", "") && grants == []
  {
    var pod, profile, t := req.pod.value, req.profile.value, SyncedFor(s, req);
    SyncedWellKeyed(Unbounded, s, profile, pod, req.cluster);
    var d :| Decides(Unbounded, t, pod, profile, profile.rules, "", s', d, grants) && out == OutcomeOf(d);
    var s1, v, rest := Unroll(Unbounded, t, pod, profile, profile.rules, "", s', d, grants);
    var fit := NodeReadyAnswer(Unbounded, t, pod, profile, s1, v);
    assert fit.NoFit?;
  }

  /** A run that goes on with a hold. */
  lemma HoldNext(prev: Run, req: Request, key: string) returns (run: Run)
    requires IsRun(Unbounded, prev) && NamesValid(req.cluster) && RunsRules(req)
    requires req.profile.value.rules == [NODE_READY] && DemandFor(req) != map[]
    requires IsBest(Unbounded, SyncedFor(LedgerOf(prev), req), DemandFor(req), ConstraintsOf(req.pod.value), key, true)
    ensures HasEntry(SyncedFor(LedgerOf(prev), req), key)
    ensures run == Next(prev, req, Held(NODE_READY), [key], Reserved(Unbounded, SyncedFor(LedgerOf(prev), req), key, DemandFor(req)))
    ensures IsRun(Unbounded, run)
  {
    RunAccounted(prev);
    CanHold(LedgerOf(prev), req, key);
    run := Next(prev, req, Held(NODE_READY), [key], Reserved(Unbounded, SyncedFor(LedgerOf(prev), req), key, DemandFor(req)));
  }

  /** A run that goes on with a pin. */
  lemma PinNext(prev: Run, req: Request, name: string) returns (run: Run)
    requires IsRun(Unbounded, prev) && NamesValid(req.cluster) && RunsRules(req)
    requires req.profile.value.rules == [NODE_READY] && DemandFor(req) != map[] && name != ""
    requires IsBest(Unbounded, SyncedFor(LedgerOf(prev), req), DemandFor(req), ConstraintsOf(req.pod.value), name, false)
    ensures HasEntry(SyncedFor(LedgerOf(prev), req), name)
    ensures run == Next(prev, req, Released("capacity", name), [name],
                        Reserved(Unbounded, SyncedFor(LedgerOf(prev), req), name, DemandFor(req)))
    ensures IsRun(Unbounded, run)
  {
    RunAccounted(prev);
    CanPin(LedgerOf(prev), req, name);
    run := Next(prev, req, Released("capacity", name), [name],
                Reserved(Unbounded, SyncedFor(LedgerOf(prev), req), name, DemandFor(req)));
  }

  /** A run that goes on with a pod passed through. */
  lemma PassNext(prev: Run, req: Request) returns (run: Run)
    requires IsRun(Unbounded, prev) && NamesValid(req.cluster) && RunsRules(req)
    requires req.profile.value.rules == [NODE_READY] && DemandFor(req) != map[]
    requires forall n, i :: !Candidate(Unbounded, SyncedFor(LedgerOf(prev), req), DemandFor(req), ConstraintsOf(req.pod.value), n, i)
    requires !HasInflightSignalIn(SyncedFor(LedgerOf(prev), req), ProfilePrefix(req.profile.value))
    ensures run == Next(prev, req, Released("capacity", ""), [], SyncedFor(LedgerOf(prev), req))
    ensures IsRun(Unbounded, run)
  {
    RunAccounted(prev);
    var after, out, grants := ReconcileExists(Unbounded, LedgerOf(prev), req);
    MustPass(LedgerOf(prev), req, after, out, grants);
    run := Next(prev, req, out, grants, after);
  }
}
