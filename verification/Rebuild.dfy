/** What a sync makes of the ledger: a view of the cluster, plus reservations carried over. */
module Rebuild {
  import opened Quantities
  import opened Scheduling
  import opened Objects
  import opened Ledger
  import opened Rules
  import opened Sync
  import Demand

  /** Existing nodes have slash-free names, in-flight entries are keyed profile/name. */
  predicate WellKeyed(s: State) {
    && (forall k :: k in s.nodes ==> '/' !in k)
    && (forall k :: k in s.inflight ==> '/' in k)
  }

  /** Kubernetes object names contain no slash. */
  predicate NamesValid(cluster: Cluster) {
    cluster.nodes.Some? ==> forall n :: n in cluster.nodes.value ==> '/' !in n.name
  }

  /** Same entries up to reservations. */
  predicate SameFrame(s: State, t: State) {
    SameFrameMap(s.nodes, t.nodes) && SameFrameMap(s.inflight, t.inflight)
  }

  predicate SameFrameMap(m: map<string, Entry>, m': map<string, Entry>) {
    m.Keys == m'.Keys && forall k :: k in m ==> m'[k] == m[k].(reserved := m'[k].reserved)
  }

  /** A pod that takes up room on a node: bound to it, and not finished one way or the other. */
  predicate RunsOn(p: Pod, name: string) {
    name != "" && p.nodeName == name && p.phase !in ["Succeeded", "Failed"]
  }

  /** The requests of the unfinished pods bound to a node, as the API lists them. */
  function BoundRequests(pods: seq<Pod>, name: string, r: string): int {
    if pods == [] then 0
    else
      var p := pods[|pods| - 1];
      BoundRequests(pods[..|pods| - 1], name, r) + if RunsOn(p, name) then Demand.RequestSum(p.containers, r) else 0
  }

  lemma {:induction false} ListedAt(nodes: seq<Node>, profile: Profile, name: string)
    ensures name in ListedEntries(nodes, profile) <==> exists n :: n in nodes && Eligible(n, profile) && n.name == name
    ensures name in ListedEntries(nodes, profile) ==>
      exists n :: n in nodes && Eligible(n, profile) && n.name == name && ListedEntries(nodes, profile)[name] == EntryOf(n)
  {
    if nodes != [] {
      var init, last := nodes[..|nodes| - 1], nodes[|nodes| - 1];
      assert nodes == init + [last];
      ListedAt(init, profile, name);
    }
  }

  lemma {:induction false} AddContainersAt(w: Width, used: Amounts, containers: seq<Amounts>, base: int, r: string)
    requires Get(used, r) == Norm(w, base)
    ensures Get(AddContainers(w, used, containers), r) == Norm(w, base + Demand.RequestSum(containers, r))
  {
    if containers != [] {
      var init, last := containers[..|containers| - 1], containers[|containers| - 1];
      AddContainersAt(w, used, init, base, r);
      if r in last {
        WrapAbsorbs(base + Demand.RequestSum(init, r), last[r]);
      }
    }
  }

  /** The usage summed for a node is the requests of the unfinished pods bound to it; in int64, wrapped. */
  lemma {:induction false} UsageIsBoundRequests(w: Width, pods: seq<Pod>, name: string, r: string)
    ensures Get(UsageAt(UsageByNode(w, pods), name), r) == Norm(w, BoundRequests(pods, name, r))
  {
    if pods != [] {
      var init, p := pods[..|pods| - 1], pods[|pods| - 1];
      UsageIsBoundRequests(w, init, name, r);
      if RunsOn(p, name) {
        AddContainersAt(w, UsageAt(UsageByNode(w, init), name), p.containers, BoundRequests(init, name, r), r);
      }
      UnboundKeepsUsage(w, init, p, name);
    }
  }

  lemma UnboundKeepsUsage(w: Width, pods: seq<Pod>, p: Pod, name: string)
    ensures var usage := UsageByNode(w, pods);
      UsageAt(UsageByNode(w, pods + [p]), name) == if RunsOn(p, name) then AddContainers(w, UsageAt(usage, name), p.containers) else UsageAt(usage, name)
  {
    assert (pods + [p])[..|pods|] == pods;
  }

  lemma {:induction false} WithDetectedAt(m: map<string, Entry>, found: seq<InflightNode>, pod: Pod, profile: Profile, key: string)
    ensures var m' := WithDetected(m, found, pod, profile);
      && (key in m' <==> key in m || exists n :: n in found && key == InflightKey(profile, n.name))
      && (key in m' ==>
          || (exists n :: n in found && key == InflightKey(profile, n.name) && m'[key] == InflightEntry(n, pod, profile))
          || (key in m && m'[key] == m[key] && forall n :: n in found ==> key != InflightKey(profile, n.name)))
  {
    if found != [] {
      var init, last := found[..|found| - 1], found[|found| - 1];
      assert found == init + [last];
      WithDetectedAt(m, init, pod, profile, key);
    }
  }

  lemma KeyHasPrefix(profile: Profile, name: string)
    ensures HasPrefix(InflightKey(profile, name), ProfilePrefix(profile))
    ensures '/' in InflightKey(profile, name)
  {
    assert InflightKey(profile, name)[|profile.name|] == '/';
  }

  /** Detected entries carry no usage and no reservation of their own. */
  lemma DetectedAreFresh(s: State, profile: Profile, pod: Pod, found: seq<InflightNode>, key: string)
    requires key in WithDetected(OtherInflight(s, profile), found, pod, profile)
    ensures var e := WithDetected(OtherInflight(s, profile), found, pod, profile)[key];
      if HasPrefix(key, ProfilePrefix(profile))
      then (exists n :: n in found && key == InflightKey(profile, n.name) && e == InflightEntry(n, pod, profile))
      else key in s.inflight && e == s.inflight[key]
  {
    WithDetectedAt(OtherInflight(s, profile), found, pod, profile, key);
    forall n: InflightNode ensures HasPrefix(InflightKey(profile, n.name), ProfilePrefix(profile)) {
      KeyHasPrefix(profile, n.name);
    }
  }

  lemma SyncedWellKeyed(w: Width, s: State, profile: Profile, pod: Pod, cluster: Cluster)
    requires WellKeyed(s) && NamesValid(cluster)
    ensures WellKeyed(Synced(w, s, profile, pod, cluster))
  {
    var t := Synced(w, s, profile, pod, cluster);
    forall k | k in t.nodes ensures '/' !in k {
      ListedAt(cluster.nodes.value, profile, k);
    }
    if Listed(cluster) {
      forall k | k in t.inflight ensures '/' in k {
        DetectedAreFresh(s, profile, pod, Detected(cluster.detections), k);
        if HasPrefix(k, ProfilePrefix(profile)) {
          assert k[|profile.name|] == '/';
        }
      }
    }
  }

  /** Restoring a snapshot onto entries that are fresh or untouched. */
  lemma RestoredReserved(s: State, u: State, name: string)
    requires WellKeyed(s) && WellKeyed(u) && HasEntry(u, name)
    requires FindEntry(u, name).reserved == map[] || (name in s.inflight && FindEntry(u, name) == s.inflight[name])
    ensures HasEntry(Restored(u, Snapshot(s)), name)
    ensures FindEntry(Restored(u, Snapshot(s)), name).reserved ==
            if HasEntry(s, name) then FindEntry(s, name).reserved else map[]
  {
    SnapshotAt(s, name);
    var u' := Restored(u, Snapshot(s));
    assert FindEntry(u', name).reserved == if name in Snapshot(s) then Snapshot(s)[name] else FindEntry(u, name).reserved;
  }

  /** A snapshot holds what is reserved under each name, leaving out empty reservations. */
  lemma SnapshotAt(s: State, name: string)
    requires WellKeyed(s)
    ensures name in Snapshot(s) ==> HasEntry(s, name) && Snapshot(s)[name] == FindEntry(s, name).reserved
    ensures name !in Snapshot(s) && HasEntry(s, name) ==> FindEntry(s, name).reserved == map[]
  {
    assert name in s.nodes ==> name !in s.inflight;
    assert name in s.inflight ==> name !in s.nodes;
  }

  lemma UnreservedWellKeyed(w: Width, s: State, profile: Profile, pod: Pod, cluster: Cluster)
    requires WellKeyed(s) && NamesValid(cluster) && Listed(cluster)
    ensures WellKeyed(Unreserved(w, s, profile, pod, cluster))
  {
    SyncedWellKeyed(w, s, profile, pod, cluster);
    var u, t := Unreserved(w, s, profile, pod, cluster), Synced(w, s, profile, pod, cluster);
    assert forall k :: k in u.nodes ==> k in t.nodes;
    assert forall k :: k in u.inflight ==> k in t.inflight;
  }

  /** Reservations survive by name: kept exactly for names in the ledger before and after. */
  lemma RebuiltReserved(w: Width, s: State, profile: Profile, pod: Pod, cluster: Cluster, name: string)
    requires WellKeyed(s) && NamesValid(cluster) && Listed(cluster)
    requires HasEntry(Rebuilt(w, s, profile, pod, cluster), name)
    ensures FindEntry(Rebuilt(w, s, profile, pod, cluster), name).reserved ==
            if HasEntry(s, name) then FindEntry(s, name).reserved else map[]
  {
    var u := Unreserved(w, s, profile, pod, cluster);
    UnreservedWellKeyed(w, s, profile, pod, cluster);
    assert HasEntry(u, name);
    if name in u.nodes {
      ListedAt(cluster.nodes.value, profile, name);
      assert u.nodes[name].reserved == map[];
    } else {
      DetectedAreFresh(s, profile, pod, Detected(cluster.detections), name);
    }
    RestoredReserved(s, u, name);
  }

  /** After a successful sync the existing entries are exactly the listed, non-deleted nodes that
      have the demanded extended resources, usage is what live bound pods request, and
      reservations are the prior ones for surviving names and none for new names. */
  lemma RebuildRefinesCluster(s: State, profile: Profile, pod: Pod, cluster: Cluster)
    requires WellKeyed(s) && NamesValid(cluster) && Listed(cluster)
    ensures var t := Rebuilt(Unbounded, s, profile, pod, cluster);
      && (forall name :: name in t.nodes <==> exists n :: n in cluster.nodes.value && n.name == name && Usable(n, profile))
      && (forall name :: name in t.nodes ==>
           exists n :: n in cluster.nodes.value && n.name == name && Usable(n, profile)
             && t.nodes[name].allocatable == n.allocatable
             && t.nodes[name].labels == n.labels
             && t.nodes[name].taints == n.taints)
      && (forall name, r :: name in t.nodes ==>
           Get(t.nodes[name].used, r) == BoundRequests(cluster.pods.value, name, r))
      && (forall name :: name in t.nodes ==>
           t.nodes[name].reserved == if name in s.nodes then s.nodes[name].reserved else map[])
  {
    var t := Rebuilt(Unbounded, s, profile, pod, cluster);
    forall name
      ensures name in t.nodes <==> exists n :: n in cluster.nodes.value && n.name == name && Usable(n, profile)
      ensures name in t.nodes ==> NodeReflects(t, name, cluster, profile)
    {
      ListedAt(cluster.nodes.value, profile, name);
      UsableIff(profile);
      if name in t.nodes {
        var n :| n in cluster.nodes.value && Eligible(n, profile) && n.name == name
                 && ListedEntries(cluster.nodes.value, profile)[name] == EntryOf(n);
        assert t.nodes[name].allocatable == n.allocatable;
      }
    }
    forall name, r | name in t.nodes
      ensures Get(t.nodes[name].used, r) == BoundRequests(cluster.pods.value, name, r)
    {
      RebuiltUsage(s, profile, pod, cluster, name, r);
    }
    forall name | name in t.nodes
      ensures t.nodes[name].reserved == if name in s.nodes then s.nodes[name].reserved else map[]
    {
      RebuiltReserved(Unbounded, s, profile, pod, cluster, name);
      SyncedWellKeyed(Unbounded, s, profile, pod, cluster);
    }
  }

  predicate NodeReflects(t: State, name: string, cluster: Cluster, profile: Profile)
    requires name in t.nodes && cluster.nodes.Some?
  {
    exists n :: n in cluster.nodes.value && n.name == name && Usable(n, profile)
      && t.nodes[name].allocatable == n.allocatable
      && t.nodes[name].labels == n.labels
      && t.nodes[name].taints == n.taints
  }

  /** A node the profile can use: not on its way out, and, under an explicit resource list, offering every
      listed resource but cpu and memory, which all nodes have. */
  predicate Usable(n: Node, profile: Profile) {
    && !n.deleted
    && (profile.demandSource.kind == "ResourceRequest" ==>
         forall r :: r in profile.demandSource.resources && r !in ["cpu", "memory"] ==> r in n.allocatable)
  }

  lemma UsableIff(profile: Profile)
    ensures forall n :: Usable(n, profile) <==> Eligible(n, profile)
  {
  }

  lemma RebuiltUsage(s: State, profile: Profile, pod: Pod, cluster: Cluster, name: string, r: string)
    requires Listed(cluster)
    requires name in Rebuilt(Unbounded, s, profile, pod, cluster).nodes
    ensures Get(Rebuilt(Unbounded, s, profile, pod, cluster).nodes[name].used, r) ==
            BoundRequests(cluster.pods.value, name, r)
  {
    UsageIsBoundRequests(Unbounded, cluster.pods.value, name, r);
    ListedAt(cluster.nodes.value, profile, name);
  }

  /** A node's reservations survive a sync exactly when the node is listed, not being deleted, and
      has the resources the syncing profile demands; another profile's sync can lose them. */
  lemma ReservationSurvivesIff(s: State, profile: Profile, pod: Pod, cluster: Cluster, name: string)
    requires WellKeyed(s) && NamesValid(cluster) && Listed(cluster) && name in s.nodes
    ensures var t := Rebuilt(Unbounded, s, profile, pod, cluster);
      (name in t.nodes && t.nodes[name].reserved == s.nodes[name].reserved) <==>
      exists n :: n in cluster.nodes.value && n.name == name && Usable(n, profile)
  {
    RebuildRefinesCluster(s, profile, pod, cluster);
  }

  /** One more pod in the list adds its container requests to the node it runs on, and changes the usage of
      no other; an unbound or finished pod changes nothing. */
  lemma PodAddsUsage(s: State, profile: Profile, pod: Pod, cluster: Cluster, p: Pod, name: string, r: string)
    requires Listed(cluster)
    ensures var t, t' := Rebuilt(Unbounded, s, profile, pod, cluster),
                         Rebuilt(Unbounded, s, profile, pod, cluster.(pods := Some(cluster.pods.value + [p])));
      && (name in t.nodes <==> name in t'.nodes)
      && (name in t.nodes ==>
           Get(t'.nodes[name].used, r) == Get(t.nodes[name].used, r) +
             if name != "" && p.nodeName == name && p.phase != "Succeeded" && p.phase != "Failed"
             then Demand.RequestSum(p.containers, r) else 0)
  {
    var pods := cluster.pods.value;
    var cluster' := cluster.(pods := Some(pods + [p]));
    assert (pods + [p])[..|pods|] == pods;
    if name in Rebuilt(Unbounded, s, profile, pod, cluster).nodes {
      RebuiltUsage(s, profile, pod, cluster, name, r);
      RebuiltUsage(s, profile, pod, cluster', name, r);
    }
  }

  /** The first detector that finds anything is used alone: errors and empty findings before it are passed over,
      and whatever comes after it is not looked at. */
  lemma {:induction false} FirstDetectorUsed(detections: seq<Option<seq<InflightNode>>>, i: nat)
    requires i <= |detections| && forall j :: 0 <= j < i ==> detections[j] in [None, Some([])]
    ensures i == |detections| ==> Detected(detections) == []
    ensures i < |detections| && detections[i].Some? && detections[i].value != [] ==> Detected(detections) == detections[i].value
    decreases i
  {
    if i > 0 {
      assert detections[0] in [None, Some([])];
      FirstDetectorUsed(detections[1..], i - 1);
    }
  }

  /** What a ledger has reserved under a name. */
  function ReservedUnder(s: State, name: string): Amounts {
    if HasEntry(s, name) then FindEntry(s, name).reserved else map[]
  }

  lemma StableKeys(w: Width, s: State, profile: Profile, pod: Pod, cluster: Cluster, t: State, k: string)
    requires Listed(cluster)
    requires SameFrame(Rebuilt(w, s, profile, pod, cluster), t)
    ensures k in Rebuilt(w, t, profile, pod, cluster).inflight <==> k in t.inflight
  {
    var found := Detected(cluster.detections);
    WithDetectedAt(OtherInflight(s, profile), found, pod, profile, k);
    WithDetectedAt(OtherInflight(t, profile), found, pod, profile, k);
    if k in t.inflight {
      DetectedAreFresh(s, profile, pod, found, k);
    }
  }

  lemma FrameWellKeyed(q: State, t: State)
    requires WellKeyed(q) && SameFrame(q, t)
    ensures WellKeyed(t)
  {
    assert forall k :: k in t.nodes ==> k in q.nodes;
    assert forall k :: k in t.inflight ==> k in q.inflight;
  }

  predicate AgreeAt(m: map<string, Entry>, m': map<string, Entry>, k: string) {
    (k in m <==> k in m') && (k in m ==> m[k] == m'[k])
  }

  lemma StableAt(w: Width, s: State, profile: Profile, pod: Pod, cluster: Cluster, t: State, k: string)
    requires WellKeyed(s) && WellKeyed(t) && NamesValid(cluster) && Listed(cluster)
    requires SameFrame(Rebuilt(w, s, profile, pod, cluster), t)
    ensures AgreeAt(Rebuilt(w, t, profile, pod, cluster).nodes, t.nodes, k)
    ensures AgreeAt(Rebuilt(w, t, profile, pod, cluster).inflight, t.inflight, k)
  {
    StableKeys(w, s, profile, pod, cluster, t, k);
    if k in t.nodes {
      StableNode(w, s, profile, pod, cluster, t, k);
    }
    if k in t.inflight {
      StableInflight(w, s, profile, pod, cluster, t, k);
    }
  }

  lemma AgreeEverywhere(q: State, t: State)
    requires forall k :: AgreeAt(q.nodes, t.nodes, k)
    requires forall k :: AgreeAt(q.inflight, t.inflight, k)
    ensures q == t
  {
    assert forall k :: k in q.nodes ==> AgreeAt(q.nodes, t.nodes, k);
    assert forall k :: k in t.nodes ==> AgreeAt(q.nodes, t.nodes, k);
    assert forall k :: k in q.inflight ==> AgreeAt(q.inflight, t.inflight, k);
    assert forall k :: k in t.inflight ==> AgreeAt(q.inflight, t.inflight, k);
    assert q.nodes == t.nodes;
    assert q.inflight == t.inflight;
  }

  /** On an unchanged cluster a sync is a fixed point, whatever has been reserved since. */
  lemma RebuildIsStable(w: Width, s: State, profile: Profile, pod: Pod, cluster: Cluster, t: State)
    requires WellKeyed(s) && NamesValid(cluster) && Listed(cluster)
    requires SameFrame(Rebuilt(w, s, profile, pod, cluster), t)
    ensures Rebuilt(w, t, profile, pod, cluster) == t
  {
    SyncedWellKeyed(w, s, profile, pod, cluster);
    FrameWellKeyed(Rebuilt(w, s, profile, pod, cluster), t);
    var q := Rebuilt(w, t, profile, pod, cluster);
    forall k ensures AgreeAt(q.nodes, t.nodes, k) && AgreeAt(q.inflight, t.inflight, k) {
      StableAt(w, s, profile, pod, cluster, t, k);
    }
    AgreeEverywhere(q, t);
  }

  /** Nothing else of the old ledger matters: ledgers with the same reservations, and the same
      in-flight entries of other profiles, are rebuilt alike. */
  lemma RebuildForgets(w: Width, s1: State, s2: State, profile: Profile, pod: Pod, cluster: Cluster)
    requires WellKeyed(s1) && WellKeyed(s2) && NamesValid(cluster) && Listed(cluster)
    requires forall name :: ReservedUnder(s1, name) == ReservedUnder(s2, name)
    requires OtherInflight(s1, profile) == OtherInflight(s2, profile)
    ensures Rebuilt(w, s1, profile, pod, cluster) == Rebuilt(w, s2, profile, pod, cluster)
  {
    var q1, q2 := Rebuilt(w, s1, profile, pod, cluster), Rebuilt(w, s2, profile, pod, cluster);
    forall k ensures AgreeAt(q1.nodes, q2.nodes, k) && AgreeAt(q1.inflight, q2.inflight, k) {
      ForgetsAt(w, s1, s2, profile, pod, cluster, k);
    }
    AgreeEverywhere(q1, q2);
  }

  lemma ForgetsAt(w: Width, s1: State, s2: State, profile: Profile, pod: Pod, cluster: Cluster, k: string)
    requires WellKeyed(s1) && WellKeyed(s2) && NamesValid(cluster) && Listed(cluster)
    requires ReservedUnder(s1, k) == ReservedUnder(s2, k)
    requires OtherInflight(s1, profile) == OtherInflight(s2, profile)
    ensures AgreeAt(Rebuilt(w, s1, profile, pod, cluster).nodes, Rebuilt(w, s2, profile, pod, cluster).nodes, k)
    ensures AgreeAt(Rebuilt(w, s1, profile, pod, cluster).inflight, Rebuilt(w, s2, profile, pod, cluster).inflight, k)
  {
    var q1, q2 := Rebuilt(w, s1, profile, pod, cluster), Rebuilt(w, s2, profile, pod, cluster);
    SyncedWellKeyed(w, s1, profile, pod, cluster);
    SyncedWellKeyed(w, s2, profile, pod, cluster);
    assert HasEntry(q1, k) <==> HasEntry(q2, k);
    if HasEntry(q1, k) {
      RebuiltReserved(w, s1, profile, pod, cluster, k);
      RebuiltReserved(w, s2, profile, pod, cluster, k);
    }
  }

  lemma StableNode(w: Width, s: State, profile: Profile, pod: Pod, cluster: Cluster, t: State, k: string)
    requires WellKeyed(s) && WellKeyed(t) && NamesValid(cluster) && Listed(cluster)
    requires SameFrame(Rebuilt(w, s, profile, pod, cluster), t)
    requires k in t.nodes
    ensures k in Rebuilt(w, t, profile, pod, cluster).nodes
    ensures Rebuilt(w, t, profile, pod, cluster).nodes[k] == t.nodes[k]
  {
    RebuiltReserved(w, t, profile, pod, cluster, k);
  }

  lemma StableInflight(w: Width, s: State, profile: Profile, pod: Pod, cluster: Cluster, t: State, k: string)
    requires WellKeyed(s) && WellKeyed(t) && NamesValid(cluster) && Listed(cluster)
    requires SameFrame(Rebuilt(w, s, profile, pod, cluster), t)
    requires k in t.inflight && k in Rebuilt(w, t, profile, pod, cluster).inflight
    ensures Rebuilt(w, t, profile, pod, cluster).inflight[k] == t.inflight[k]
  {
    var found := Detected(cluster.detections);
    SyncedWellKeyed(w, t, profile, pod, cluster);
    RebuiltReserved(w, t, profile, pod, cluster, k);
    SameDetection(OtherInflight(s, profile), OtherInflight(t, profile), found, pod, profile, k);
    DetectedAreFresh(s, profile, pod, found, k);
    DetectedAreFresh(t, profile, pod, found, k);
  }

  /** A key of this profile gets the same entry whatever was in the ledger. */
  lemma {:induction false} SameDetection(m: map<string, Entry>, m': map<string, Entry>, found: seq<InflightNode>,
                                         pod: Pod, profile: Profile, k: string)
    ensures k !in m && k !in m' ==>
      var d, d' := WithDetected(m, found, pod, profile), WithDetected(m', found, pod, profile);
      (k in d <==> k in d') && (k in d ==> d[k] == d'[k])
  {
    if found != [] {
      SameDetection(m, m', found[..|found| - 1], pod, profile, k);
    }
  }
}
