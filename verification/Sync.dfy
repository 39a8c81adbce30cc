/** syncLedger: the ledger is rebuilt from cluster state, reservations carried across. */
module Sync {
  import opened Quantities
  import opened Scheduling
  import opened Objects
  import opened Ledger
  import opened Rules

  /** What the API server and the detectors answer during one sync.
      None is a failed list call or a detector error. */
  datatype Cluster = Cluster(
    nodes: Option<seq<Node>>,
    pods: Option<seq<Pod>>,
    detections: seq<Option<seq<InflightNode>>>)

  const TASK_LABEL := "goatscaler.io/provision-task-id"

  /** Extended resources of the explicit list must be present in allocatable. */
  predicate HasDemandedResources(node: Node, profile: Profile) {
    profile.demandSource.kind == "ResourceRequest" ==>
      forall r :: r in profile.demandSource.resources ==> r == "cpu" || r == "memory" || r in node.allocatable
  }

  predicate Eligible(node: Node, profile: Profile) {
    !node.deleted && HasDemandedResources(node, profile)
  }

  function EntryOf(node: Node): Entry {
    FreshEntry(node.allocatable, node.labels, node.taints)
  }

  /** Entries for a node list; a later node replaces an earlier one of the same name. */
  function ListedEntries(nodes: seq<Node>, profile: Profile): map<string, Entry> {
    if nodes == [] then map[]
    else
      var m := ListedEntries(nodes[..|nodes| - 1], profile);
      var node := nodes[|nodes| - 1];
      if Eligible(node, profile) then m[node.name := EntryOf(node)] else m
  }

  predicate Live(pod: Pod) {
    pod.nodeName != "" && pod.phase != "Succeeded" && pod.phase != "Failed"
  }

  function AddContainers(w: Width, used: Amounts, containers: seq<Amounts>): Amounts {
    if containers == [] then used
    else Plus(w, AddContainers(w, used, containers[..|containers| - 1]), containers[|containers| - 1])
  }

  /** Requests of live bound pods, by node name. */
  function UsageByNode(w: Width, pods: seq<Pod>): map<string, Amounts> {
    if pods == [] then map[]
    else
      var usage := UsageByNode(w, pods[..|pods| - 1]);
      var p := pods[|pods| - 1];
      if Live(p) then usage[p.nodeName := AddContainers(w, UsageAt(usage, p.nodeName), p.containers)] else usage
  }

  function UsageAt(usage: map<string, Amounts>, name: string): Amounts {
    if name in usage then usage[name] else map[]
  }

  function WithUsage(nodes: map<string, Entry>, usage: map<string, Amounts>): map<string, Entry> {
    map k | k in nodes :: if k in usage then nodes[k].(used := usage[k]) else nodes[k]
  }

  /** The first detector that finds anything is used, the rest are skipped. */
  function Detected(detections: seq<Option<seq<InflightNode>>>): seq<InflightNode> {
    if detections == [] then []
    else if detections[0].Some? && |detections[0].value| > 0 then detections[0].value
    else Detected(detections[1..])
  }

  predicate PodFitsTemplate(pod: Pod, t: Template) {
    SelectorMatches(pod.nodeSelector, t.labels) && ToleratesAll(pod.tolerations, t.taints)
  }

  function FindTemplateForPod(pod: Pod, templates: seq<Template>): Option<Template> {
    if templates == [] then None
    else if PodFitsTemplate(pod, templates[0]) then Some(templates[0])
    else FindTemplateForPod(pod, templates[1..])
  }

  function FirstByInstanceType(n: InflightNode, templates: seq<Template>): Option<Template> {
    if templates == [] then None
    else if templates[0].instanceType != "" && templates[0].instanceType == n.instanceType then Some(templates[0])
    else FirstByInstanceType(n, templates[1..])
  }

  function FirstByNamePrefix(n: InflightNode, templates: seq<Template>): Option<Template> {
    if templates == [] then None
    else if templates[0].namePrefix != "" && HasPrefix(n.name, templates[0].namePrefix) then Some(templates[0])
    else FirstByNamePrefix(n, templates[1..])
  }

  /** Instance type first, then name prefix. */
  function FindMatchingTemplate(n: InflightNode, templates: seq<Template>): Option<Template> {
    var byType := if n.instanceType != "" then FirstByInstanceType(n, templates) else None;
    if byType.Some? then byType else FirstByNamePrefix(n, templates)
  }

  function TemplateFor(n: InflightNode, pod: Pod, profile: Profile): Option<Template> {
    var byNode := FindMatchingTemplate(n, profile.templates);
    if byNode.Some? then byNode else FindTemplateForPod(pod, profile.templates)
  }

  /** A template fills the gaps of a detected node; taints come from the template alone. */
  function InflightEntry(n: InflightNode, pod: Pod, profile: Profile): Entry {
    var t := TemplateFor(n, pod, profile);
    if t.Some? then
      FreshEntry(if n.allocatable == map[] then t.value.allocatable else n.allocatable,
                 if n.labels == map[] then t.value.labels else n.labels,
                 t.value.taints)
    else FreshEntry(n.allocatable, n.labels, [])
  }

  function InflightKey(profile: Profile, name: string): string {
    ProfilePrefix(profile) + name
  }

  function WithDetected(m: map<string, Entry>, found: seq<InflightNode>, pod: Pod, profile: Profile): map<string, Entry> {
    if found == [] then m
    else
      var n := found[|found| - 1];
      WithDetected(m, found[..|found| - 1], pod, profile)[InflightKey(profile, n.name) := InflightEntry(n, pod, profile)]
  }

  predicate Listed(cluster: Cluster) {
    cluster.nodes.Some? && cluster.pods.Some?
  }

  function OtherInflight(s: State, profile: Profile): map<string, Entry> {
    WithoutPrefix(s.inflight, ProfilePrefix(profile))
  }

  /** The ledger before reservations are restored. */
  function Unreserved(w: Width, s: State, profile: Profile, pod: Pod, cluster: Cluster): State
    requires Listed(cluster)
  {
    State(WithUsage(ListedEntries(cluster.nodes.value, profile), UsageByNode(w, cluster.pods.value)),
          WithDetected(OtherInflight(s, profile), Detected(cluster.detections), pod, profile))
  }

  /** A successful sync. */
  function Rebuilt(w: Width, s: State, profile: Profile, pod: Pod, cluster: Cluster): State
    requires Listed(cluster)
  {
    Restored(Unreserved(w, s, profile, pod, cluster), Snapshot(s))
  }

  /** What a failed list call leaves behind: the clear has happened, the restore has not. */
  function Abandoned(s: State, profile: Profile, cluster: Cluster): State
    requires !Listed(cluster)
  {
    State(if cluster.nodes.Some? then ListedEntries(cluster.nodes.value, profile) else map[],
          OtherInflight(s, profile))
  }

  function Synced(w: Width, s: State, profile: Profile, pod: Pod, cluster: Cluster): State {
    if Listed(cluster) then Rebuilt(w, s, profile, pod, cluster) else Abandoned(s, profile, cluster)
  }

  /** The node loop. The transition-tracking removal only ever names keys of this
      profile, all of which are already gone. */
  method SyncNodes(l: NodeLedger, nodes: seq<Node>, profile: Profile)
    requires l.nodes == map[]
    requires forall k :: k in l.inflight ==> !HasPrefix(k, ProfilePrefix(profile))
    modifies l
    ensures l.nodes == ListedEntries(nodes, profile)
    ensures l.inflight == old(l.inflight)
  {
    for i := 0 to |nodes|
      invariant l.nodes == ListedEntries(nodes[..i], profile)
      invariant l.inflight == old(l.inflight)
    {
      var node := nodes[i];
      assert nodes[..i + 1][..i] == nodes[..i];
      if node.deleted {
        continue;
      }
      if profile.demandSource.kind == "ResourceRequest" {
        var missingResource := false;
        var resources := profile.demandSource.resources;
        var j := 0;
        while j < |resources| && !missingResource
          invariant 0 <= j <= |resources|
          invariant missingResource ==> !HasDemandedResources(node, profile)
          invariant !missingResource ==>
            forall r :: r in resources[..j] ==> r == "cpu" || r == "memory" || r in node.allocatable
        {
          var res := resources[j];
          if res != "cpu" && res != "memory" && res !in node.allocatable {
            missingResource := true;
          }
          j := j + 1;
        }
        if missingResource {
          continue;
        }
        assert resources[..j] == resources;
      }
      l.AddNode(node.name, node.allocatable, node.labels, node.taints);
      var taskID := LabelOf(node.labels, TASK_LABEL);
      if taskID != "" {
        assert HasPrefix(InflightKey(profile, taskID), ProfilePrefix(profile));
        assert InflightKey(profile, taskID) !in l.inflight;
        l.RemoveInflightNode(InflightKey(profile, taskID));
      }
    }
    assert nodes[..|nodes|] == nodes;
  }

  method SumUsage(pods: seq<Pod>) returns (usage: map<string, Amounts>)
    ensures usage == UsageByNode(Int64, pods)
  {
    usage := map[];
    for i := 0 to |pods|
      invariant usage == UsageByNode(Int64, pods[..i])
    {
      var p := pods[i];
      assert pods[..i + 1][..i] == pods[..i];
      if Live(p) {
        var used := UsageAt(usage, p.nodeName);
        ghost var before := used;
        for j := 0 to |p.containers|
          invariant used == AddContainers(Int64, before, p.containers[..j])
        {
          assert p.containers[..j + 1][..j] == p.containers[..j];
          used := CombineInPlace((x, y) => Add(Int64, x, y), used, p.containers[j]);
          assert used == Plus(Int64, AddContainers(Int64, before, p.containers[..j]), p.containers[j]);
        }
        assert p.containers[..|p.containers|] == p.containers;
        usage := usage[p.nodeName := used];
      }
    }
    assert pods[..|pods|] == pods;
  }

  method ApplyUsage(l: NodeLedger, usage: map<string, Amounts>)
    modifies l
    ensures l.nodes == WithUsage(old(l.nodes), usage)
    ensures l.inflight == old(l.inflight)
  {
    ghost var after := WithUsage(l.nodes, usage);
    var todo := usage.Keys;
    while todo != {}
      invariant todo <= usage.Keys
      invariant l.inflight == old(l.inflight)
      invariant forall k :: k in l.nodes <==> k in after
      invariant forall k :: k in l.nodes ==> l.nodes[k] == if k in todo then old(l.nodes)[k] else after[k]
      decreases |todo|
    {
      var name :| name in todo;
      todo := todo - {name};
      l.UpdateUsage(name, usage[name]);
    }
  }

  method SyncInflight(l: NodeLedger, detections: seq<Option<seq<InflightNode>>>, pod: Pod, profile: Profile)
    modifies l
    ensures l.nodes == old(l.nodes)
    ensures l.inflight == WithDetected(old(l.inflight), Detected(detections), pod, profile)
  {
    var found: seq<InflightNode> := [];
    var d := 0;
    while d < |detections| && found == []
      invariant 0 <= d <= |detections|
      invariant found == [] ==> Detected(detections) == Detected(detections[d..])
      invariant found != [] ==> Detected(detections) == found
    {
      if detections[d].Some? && |detections[d].value| > 0 {
        found := detections[d].value;
      }
      assert detections[d..][1..] == detections[d + 1..];
      d := d + 1;
    }
    for i := 0 to |found|
      invariant l.nodes == old(l.nodes)
      invariant l.inflight == WithDetected(old(l.inflight), found[..i], pod, profile)
    {
      assert found[..i + 1][..i] == found[..i];
      var e := InflightEntry(found[i], pod, profile);
      l.AddInflightNode(InflightKey(profile, found[i].name), e.allocatable, e.labels, e.taints);
    }
    assert found[..|found|] == found;
  }

  method SyncLedger(l: NodeLedger, profile: Profile, pod: Pod, cluster: Cluster) returns (ok: bool)
    modifies l
    ensures ok == Listed(cluster)
    ensures l.View() == Synced(Int64, old(l.View()), profile, pod, cluster)
  {
    var reservations := l.SnapshotReservations();
    l.ClearNodes();
    l.ClearInflightByPrefix(ProfilePrefix(profile));
    if cluster.nodes.None? {
      return false;
    }
    SyncNodes(l, cluster.nodes.value, profile);
    if cluster.pods.None? {
      return false;
    }
    var usage := SumUsage(cluster.pods.value);
    ApplyUsage(l, usage);
    SyncInflight(l, cluster.detections, pod, profile);
    l.RestoreReservations(reservations);
    ok := true;
  }
}
