/** Runs from the empty ledger that show where the code does not do what its documentation promises. */
module Exhibits {
  import opened Quantities
  import opened Scheduling
  import opened Objects
  import opened Ledger
  import opened Rules
  import opened Sync
  import opened Reconcile
  import opened Rebuild
  import opened RuleLoop
  import opened RuleLists
  import opened HoldLoop
  import opened Exhaustion
  import opened Searches
  import opened Safety
  import opened Isolation
  import opened DoubleBooking
  import opened Scenarios
  import opened Gates
  import Demand

  /** What a coming node looks like to a profile whose template promises `capacity`, `taken` of it reserved. */
  predicate IsSlot(e: Entry, r: string, capacity: int, taken: int) {
    e.allocatable == map[r := capacity] && e.taints == [] && Available(Unbounded, e, r) == capacity - taken
  }

  lemma SlotReserved(e: Entry, r: string, capacity: int, taken: int, qty: int)
    requires IsSlot(e, r, capacity, taken)
    ensures IsSlot(AddReservation(Unbounded, e, map[r := qty]), r, capacity, taken + qty)
  {
  }

  /** A node on its way, seen by all profiles: the only one to have asked so far is held on it. */
  lemma FirstHold(profile: Profile, n: string, r: string, capacity: int, qty: int, pods: seq<Pod>) returns (run: Run)
    requires profile == WaitingProfile(profile.name, r, [PoolTemplate(r, capacity)])
    requires 0 < qty <= capacity
    ensures IsRun(Unbounded, run) && run.Next? && run.prev.Start?
    ensures run.req == Asking(profile, r, qty, Scene([], pods, [ComingNode(n)]))
    ensures run.out == Held(NODE_READY) && run.grants == [InflightKey(profile, n)]
    ensures run.after.nodes == map[] && run.after.inflight.Keys == {InflightKey(profile, n)}
    ensures IsSlot(run.after.inflight[InflightKey(profile, n)], r, capacity, qty)
  {
    var key := InflightKey(profile, n);
    var req := Asking(profile, r, qty, Scene([], pods, [ComingNode(n)]));
    var t := SlotsSeen(EMPTY, profile, n, r, capacity, qty, pods);
    SoleSlotIsBest(t, profile, r, qty, key);
    SlotReserved(t.inflight[key], r, capacity, 0, qty);
    run := HoldNext(Start, req, key);
  }

  lemma SoleSlotIsBest(t: State, profile: Profile, r: string, qty: int, key: string)
    requires t.nodes == map[] && (forall k :: k in t.inflight <==> k == key)
    requires t.inflight[key].taints == [] && qty <= Available(Unbounded, t.inflight[key], r)
    ensures IsBest(Unbounded, t, map[r := qty], ConstraintsOf(AskingPod(profile, r, qty)), key, true)
  {
    AskedChoosable(t.inflight[key], profile, r, qty);
    SoleCandidate(t, map[r := qty], ConstraintsOf(AskingPod(profile, r, qty)), key, true);
  }

  /** The synced ledger of a profile on that cluster: its own slot, and those of others as they were. */
  lemma SlotsSeen(s: State, profile: Profile, n: string, r: string, capacity: int, qty: int, pods: seq<Pod>) returns (t: State)
    requires WellKeyed(s) && s.nodes == map[] && InflightKey(profile, n) !in s.inflight
    requires profile == WaitingProfile(profile.name, r, [PoolTemplate(r, capacity)])
    ensures var req := Asking(profile, r, qty, Scene([], pods, [ComingNode(n)]));
      && RunsRules(req) && NamesValid(req.cluster) && DemandFor(req) == map[r := qty] && DemandFor(req) != map[]
      && t == SyncedFor(s, req)
    ensures t.nodes == map[] && InflightKey(profile, n) in t.inflight
    ensures IsSlot(t.inflight[InflightKey(profile, n)], r, capacity, 0)
    ensures forall k :: k in t.inflight <==> k == InflightKey(profile, n) || (k in s.inflight && !HasPrefix(k, ProfilePrefix(profile)))
    ensures forall k :: k in t.inflight && k != InflightKey(profile, n) ==> t.inflight[k] == s.inflight[k]
  {
    var cluster := Scene([], pods, [ComingNode(n)]);
    var req := Asking(profile, r, qty, cluster);
    AskingRuns(profile, r, qty, cluster);
    AskedDemand(profile, r, qty);
    SceneDetects([], pods, [ComingNode(n)]);
    NodesUnseen(s, profile, req.pod.value, cluster);
    DetectedSeen(s, profile, req.pod.value, cluster, ComingNode(n));
    ComingEntry(n, req.pod.value, profile, r, capacity);
    t := SyncedFor(s, req);
  }

  /** A run that crosses, on one unchanged cluster: a pod of profile q is held on q's entry of a coming
      node; a pod of profile p that asks for exactly what is left there is then held on it too, because it is
      tighter than p's own, fresh entry of the same node. */
  lemma ProfilesShareNode(q: Profile, p: Profile, n: string, r: string, mine: int, theirs: int, pods: seq<Pod>) returns (run: Run)
    requires q == WaitingProfile(q.name, r, [PoolTemplate(r, mine + theirs)])
    requires p == WaitingProfile(p.name, r, [PoolTemplate(r, mine + theirs)])
    requires '/' !in p.name && '/' !in q.name && p.name != q.name
    requires mine > 0 && theirs > 0
    ensures IsRun(Unbounded, run) && run.Next? && run.prev.Next? && run.prev.prev.Start?
    ensures run.prev.req == Asking(q, r, theirs, Scene([], pods, [ComingNode(n)]))
    ensures run.req == Asking(p, r, mine, Scene([], pods, [ComingNode(n)]))
    ensures run.out == Held(NODE_READY) && run.grants == [InflightKey(q, n)]
  {
    var first := FirstHold(q, n, r, mine + theirs, theirs, pods);
    RunAccounted(first);
    var t := BothSlots(LedgerOf(first), q, p, n, r, mine + theirs, mine, pods);
    TighterSlotIsBest(t, p, r, mine, InflightKey(q, n), InflightKey(p, n));
    run := HoldNext(first, Asking(p, r, mine, Scene([], pods, [ComingNode(n)])), InflightKey(q, n));
  }

  /** The coming node is entered once per profile: q's entry stays as it was, p's is fresh. */
  lemma BothSlots(s: State, q: Profile, p: Profile, n: string, r: string, capacity: int, qty: int, pods: seq<Pod>) returns (t: State)
    requires WellKeyed(s) && s.nodes == map[] && s.inflight.Keys == {InflightKey(q, n)}
    requires p == WaitingProfile(p.name, r, [PoolTemplate(r, capacity)])
    requires '/' !in p.name && '/' !in q.name && p.name != q.name
    ensures var req := Asking(p, r, qty, Scene([], pods, [ComingNode(n)]));
      && RunsRules(req) && NamesValid(req.cluster) && DemandFor(req) == map[r := qty] && DemandFor(req) != map[]
      && t == SyncedFor(s, req)
    ensures t.nodes == map[] && t.inflight.Keys == {InflightKey(q, n), InflightKey(p, n)}
    ensures t.inflight[InflightKey(q, n)] == s.inflight[InflightKey(q, n)] && InflightKey(q, n) != InflightKey(p, n)
    ensures IsSlot(t.inflight[InflightKey(p, n)], r, capacity, 0)
  {
    KeysApart(q, p, n);
    t := SlotsSeen(s, p, n, r, capacity, qty, pods);
    assert forall k :: k in t.inflight <==> k == InflightKey(q, n) || k == InflightKey(p, n);
  }

  lemma KeysApart(q: Profile, p: Profile, n: string)
    requires '/' !in p.name && '/' !in q.name && p.name != q.name
    ensures InflightKey(q, n) != InflightKey(p, n) && !HasPrefix(InflightKey(q, n), ProfilePrefix(p))
  {
    OwnPrefixOnly(p.name, q.name, n);
    KeyHasPrefix(p, n);
  }

  lemma TighterSlotIsBest(t: State, profile: Profile, r: string, qty: int, key: string, other: string)
    requires t.nodes == map[] && t.inflight.Keys == {key, other}
    requires t.inflight[key].taints == [] && t.inflight[other].taints == []
    requires qty <= Available(Unbounded, t.inflight[key], r) <= Available(Unbounded, t.inflight[other], r)
    ensures IsBest(Unbounded, t, map[r := qty], ConstraintsOf(AskingPod(profile, r, qty)), key, true)
  {
    AskedChoosable(t.inflight[key], profile, r, qty);
    OneResourceSlack(t.inflight[key], r, qty);
    OneResourceSlack(t.inflight[other], r, qty);
    var c := ConstraintsOf(AskingPod(profile, r, qty));
    forall n, i | Candidate(Unbounded, t, map[r := qty], c, n, i) ensures i && (n == key || n == other) {
    }
  }

  /** A pod pinned to a fresh listed node with room for it. */
  lemma PinsOnFreshNode(prev: Run, profile: Profile, n: string, r: string, capacity: int, qty: int, pods: seq<Pod>) returns (run: Run)
    requires IsRun(Unbounded, prev) && LedgerOf(prev) == EMPTY && n != "" && '/' !in n
    requires profile == WaitingProfile(profile.name, r, []) && Unbound(pods) && 0 < qty <= capacity
    ensures IsRun(Unbounded, run) && run.Next? && run.prev == prev
    ensures run.req == Asking(profile, r, qty, Scene([ListedNode(n, r, capacity)], pods, []))
    ensures run.out == Released("capacity", n) && ReqDemand(run.req) == map[r := qty]
    ensures run.after.inflight == map[] && n in run.after.nodes && Get(run.after.nodes[n].reserved, r) == qty
  {
    var req := Asking(profile, r, qty, Scene([ListedNode(n, r, capacity)], pods, []));
    var t := SoleNodeSeen(EMPTY, profile, n, r, capacity, qty, pods);
    UnboundRequestNothing(pods, n, r);
    AskedChoosable(t.nodes[n], profile, r, qty);
    SoleCandidate(t, map[r := qty], ConstraintsOf(req.pod.value), n, false);
    Takes(t, n, r, qty);
    run := PinNext(prev, req, n);
  }

  /** One listed node and nothing on its way, as the rules see it. */
  lemma SoleNodeSeen(s: State, profile: Profile, n: string, r: string, capacity: int, qty: int, pods: seq<Pod>) returns (t: State)
    requires WellKeyed(s) && s.inflight == map[] && '/' !in n && profile == WaitingProfile(profile.name, r, [])
    ensures var req := Asking(profile, r, qty, Scene([ListedNode(n, r, capacity)], pods, []));
      && RunsRules(req) && NamesValid(req.cluster) && DemandFor(req) == map[r := qty] && DemandFor(req) != map[]
      && ReqDemand(req) == map[r := qty] && t == SyncedFor(s, req)
    ensures t.inflight == map[] && t.nodes.Keys == {n} && t.nodes[n].taints == []
    ensures t.nodes[n].reserved == if n in s.nodes then s.nodes[n].reserved else map[]
    ensures Available(Unbounded, t.nodes[n], r) == capacity - BoundRequests(pods, n, r) - Get(t.nodes[n].reserved, r)
  {
    var node := ListedNode(n, r, capacity);
    var cluster := Scene([node], pods, []);
    var req := Asking(profile, r, qty, cluster);
    AskingRuns(profile, r, qty, cluster);
    AskedDemand(profile, r, qty);
    SceneDetects([node], pods, []);
    NothingDetected(s, profile, req.pod.value, cluster);
    NodeSeen(s, profile, req.pod.value, cluster, node, r);
    t := SyncedFor(s, req);
  }

  /** A reconcile of a profile whose tracked resource the node lacks: the node leaves the ledger, and with
      it everything reserved there; the profile's own pod is passed through. */
  lemma DropsNode(prev: Run, profile: Profile, g: string, node: Node, pods: seq<Pod>) returns (run: Run)
    requires IsRun(Unbounded, prev) && LedgerOf(prev).inflight == map[] && '/' !in node.name
    requires profile == WaitingProfile(profile.name, g, [])
    requires g != "cpu" && g != "memory" && g !in node.allocatable
    ensures IsRun(Unbounded, run) && run.Next? && run.prev == prev && run.after == EMPTY
    ensures run.req == Asking(profile, g, 1, Scene([node], pods, []))
    ensures run.out == Released("capacity", "") && ReqDemand(run.req) == map[g := 1]
  {
    var cluster := Scene([node], pods, []);
    var req := Asking(profile, g, 1, cluster);
    AskingRuns(profile, g, 1, cluster);
    AskedDemand(profile, g, 1);
    SceneDetects([node], pods, []);
    RunAccounted(prev);
    assert g in profile.demandSource.resources;
    NodesUnseen(LedgerOf(prev), profile, req.pod.value, cluster);
    NothingDetected(LedgerOf(prev), profile, req.pod.value, cluster);
    run := PassNext(prev, req);
  }

  /** DOUBLE-BOOKED PINS. On one unchanged cluster, a listed node has room for one pod. A pod of q is pinned
      to it, a reconcile of a profile whose tracked resource the node lacks drops the reservation,
      and a second pod of q is pinned to it. */
  lemma TwoPinsOnOneSlot(q: Profile, p: Profile, n: string, r: string, g: string, qty: int, pods: seq<Pod>) returns (run: Run)
    requires q == WaitingProfile(q.name, r, []) && p == WaitingProfile(p.name, g, [])
    requires n != "" && '/' !in n && qty > 0 && Unbound(pods)
    requires g != "cpu" && g != "memory" && g != r
    ensures IsRun(Unbounded, run) && run.Next? && run.prev.Next? && run.prev.prev.Next? && run.prev.prev.prev.Start?
    ensures var cluster := Scene([ListedNode(n, r, qty)], pods, []);
      && run.req == Asking(q, r, qty, cluster) && run.prev.req == Asking(p, g, 1, cluster) && run.prev.prev.req == run.req
      && run.out == Released("capacity", n) == run.prev.prev.out
      && n in run.prev.prev.after.nodes && Get(run.prev.prev.after.nodes[n].reserved, r) == qty && run.prev.after == EMPTY
      && SumGranted(AllPins(run), n, r) == 2 * qty
      && !FitsBeside(cluster, n, SumGranted(AllPins(run), n, r), r)
  {
    var node := ListedNode(n, r, qty);
    var first := PinsOnFreshNode(Start, q, n, r, qty, qty, pods);
    var second := DropsNode(first, p, g, node, pods);
    run := PinsOnFreshNode(second, q, n, r, qty, qty, pods);
    TwoPinsSum(first, second, run, n, r, qty);
    Overbooked(n, r, qty, pods, 2 * qty);
  }

  lemma TwoPinsSum(first: Run, second: Run, third: Run, n: string, r: string, qty: int)
    requires first.Next? && first.prev.Start? && second.Next? && second.prev == first && third.Next? && third.prev == second
    requires first.out == Released("capacity", n) == third.out && n != "" && second.out == Released("capacity", "")
    requires ReqDemand(first.req) == map[r := qty] == ReqDemand(third.req)
    ensures SumGranted(AllPins(third), n, r) == 2 * qty
  {
    PinAdds(first, n, map[r := qty], r);
    assert AllPins(second) == AllPins(first) + [];
    assert AllPins(second) == AllPins(first);
    PinAdds(third, n, map[r := qty], r);
  }

  lemma Overbooked(n: string, r: string, qty: int, pods: seq<Pod>, promised: int)
    requires Unbound(pods) && promised > qty
    ensures !FitsBeside(Scene([ListedNode(n, r, qty)], pods, []), n, promised, r)
  {
    UnboundRequestNothing(pods, n, r);
    var node := ListedNode(n, r, qty);
    assert Get(node.allocatable, r) == qty;
    forall m | m in [node] ensures !IsNodeWithRoom(m, pods, n, promised, r) {
      assert m == node;
    }
  }

  lemma PinAdds(run: Run, n: string, demand: Amounts, r: string)
    requires run.Next? && run.out == Released("capacity", n) && n != "" && ReqDemand(run.req) == demand
    ensures SumGranted(AllPins(run), n, r) == SumGranted(AllPins(run.prev), n, r) + Get(demand, r)
  {
    AppendSum(AllPins(run.prev), Grant(n, demand), n, r);
  }

  lemma KeyNamesNode(profile: Profile, n: string)
    requires '/' !in profile.name
    ensures NamesNode(InflightKey(profile, n), n)
  {
    var key := InflightKey(profile, n);
    KeyHasPrefix(profile, n);
    OwnerHasPrefix(key, profile.name);
    assert key == profile.name + "/" + n;
  }

  /** DOUBLE-BOOKED HOLDS. On one unchanged cluster, a coming node has capacity for one pod. A pod of q is
      held on q's entry of it and a pod of p on p's: twice its capacity is reserved. */
  lemma TwoHoldsOnOneSlot(q: Profile, p: Profile, n: string, r: string, qty: int, pods: seq<Pod>) returns (run: Run)
    requires q == WaitingProfile(q.name, r, [PoolTemplate(r, qty)]) && p == WaitingProfile(p.name, r, [PoolTemplate(r, qty)])
    requires '/' !in p.name && '/' !in q.name && p.name != q.name && qty > 0
    ensures IsRun(Unbounded, run) && run.Next? && run.prev.Next? && run.prev.prev.Start?
    ensures run.prev.req == Asking(q, r, qty, Scene([], pods, [ComingNode(n)]))
    ensures run.req == Asking(p, r, qty, Scene([], pods, [ComingNode(n)]))
    ensures run.prev.out == Held(NODE_READY) == run.out
    ensures run.after.inflight.Keys == {InflightKey(q, n), InflightKey(p, n)}
    ensures forall k :: k in run.after.inflight ==>
      && NamesNode(k, n) && run.after.inflight[k].allocatable == map[r := qty] && Get(run.after.inflight[k].reserved, r) == qty
  {
    var first := FirstHold(q, n, r, qty, qty, pods);
    var req, mine := Asking(p, r, qty, Scene([], pods, [ComingNode(n)])), InflightKey(p, n);
    RunAccounted(first);
    var t := BothSlots(LedgerOf(first), q, p, n, r, qty, qty, pods);
    FreeSlotIsBest(t, p, r, qty, mine, InflightKey(q, n));
    run := HoldNext(first, req, mine);
    RunInflightUnused(run);
    SecondSlotTaken(t, mine, InflightKey(q, n), r, qty);
    BothFull(run.after, q, p, n, r, qty);
  }

  lemma SecondSlotTaken(t: State, key: string, other: string, r: string, qty: int)
    requires t.nodes == map[] && t.inflight.Keys == {key, other} && key != other && IsSlot(t.inflight[key], r, qty, 0)
    ensures var s := Reserved(Unbounded, t, key, map[r := qty]);
      && s.inflight.Keys == {key, other}
      && IsSlot(s.inflight[key], r, qty, qty) && s.inflight[other] == t.inflight[other]
  {
    SlotReserved(t.inflight[key], r, qty, 0, qty);
  }

  lemma FreeSlotIsBest(t: State, profile: Profile, r: string, qty: int, key: string, other: string)
    requires t.nodes == map[] && t.inflight.Keys == {key, other} && key != other
    requires t.inflight[key].taints == [] && t.inflight[other].taints == []
    requires Available(Unbounded, t.inflight[other], r) < qty <= Available(Unbounded, t.inflight[key], r)
    ensures IsBest(Unbounded, t, map[r := qty], ConstraintsOf(AskingPod(profile, r, qty)), key, true)
  {
    AskedChoosable(t.inflight[key], profile, r, qty);
    AskedChoosable(t.inflight[other], profile, r, qty);
    SoleCandidate(t, map[r := qty], ConstraintsOf(AskingPod(profile, r, qty)), key, true);
  }

  lemma BothFull(s: State, q: Profile, p: Profile, n: string, r: string, qty: int)
    requires '/' !in p.name && '/' !in q.name && InflightUnused(s)
    requires s.inflight.Keys == {InflightKey(q, n), InflightKey(p, n)}
    requires IsSlot(s.inflight[InflightKey(q, n)], r, qty, qty) && IsSlot(s.inflight[InflightKey(p, n)], r, qty, qty)
    ensures forall k :: k in s.inflight ==>
      NamesNode(k, n) && s.inflight[k].allocatable == map[r := qty] && Get(s.inflight[k].reserved, r) == qty
  {
    KeyNamesNode(p, n);
    KeyNamesNode(q, n);
    FullSlot(s.inflight[InflightKey(q, n)], r, qty);
    FullSlot(s.inflight[InflightKey(p, n)], r, qty);
  }

  lemma FullSlot(e: Entry, r: string, qty: int)
    requires IsSlot(e, r, qty, qty) && e.used == map[]
    ensures Get(e.reserved, r) == qty
  {
    assert r in e.allocatable;
  }

  /** A listed node that has never been ready, which the third detector reports as well. */
  function NotReadyScene(node: Node, pods: seq<Pod>): Cluster {
    Cluster(Some([node]), Some(pods), [Some([]), Some([]), Some([InflightNode(node.name, node.allocatable, node.labels, "")])])
  }

  lemma NotReadyDetected(node: Node, pods: seq<Pod>)
    ensures Detected(NotReadyScene(node, pods).detections) == [InflightNode(node.name, node.allocatable, node.labels, "")]
  {
    var none: Option<seq<InflightNode>> := Some([]);
    var last := Some([InflightNode(node.name, node.allocatable, node.labels, "")]);
    assert [none, none, last][1..] == [none, last] && [none, last][1..] == [last];
    assert Detected([last]) == last.value;
    assert Detected([none, last]) == last.value;
  }

  /** Both entries of such a node: the listed one and the profile's in-flight one. */
  lemma BothEntries(s: State, profile: Profile, n: string, r: string, qty: int, pods: seq<Pod>) returns (t: State)
    requires WellKeyed(s) && '/' !in n && Unbound(pods) && profile == WaitingProfile(profile.name, r, [])
    requires forall k :: k in s.inflight ==> k == InflightKey(profile, n)
    ensures var req := Asking(profile, r, qty, NotReadyScene(ListedNode(n, r, qty), pods));
      && RunsRules(req) && NamesValid(req.cluster) && DemandFor(req) == map[r := qty] && DemandFor(req) != map[]
      && t == SyncedFor(s, req)
    ensures t.nodes.Keys == {n} && t.inflight.Keys == {InflightKey(profile, n)}
    ensures t.nodes[n].taints == [] && t.inflight[InflightKey(profile, n)].taints == []
    ensures t.nodes[n].reserved == if n in s.nodes then s.nodes[n].reserved else map[]
    ensures t.inflight[InflightKey(profile, n)].reserved ==
            if InflightKey(profile, n) in s.inflight then s.inflight[InflightKey(profile, n)].reserved else map[]
    ensures Available(Unbounded, t.nodes[n], r) == qty - Get(t.nodes[n].reserved, r)
    ensures Available(Unbounded, t.inflight[InflightKey(profile, n)], r) == qty - Get(t.inflight[InflightKey(profile, n)].reserved, r)
  {
    var node := ListedNode(n, r, qty);
    var cluster, found := NotReadyScene(node, pods), InflightNode(n, node.allocatable, node.labels, "");
    var req := Asking(profile, r, qty, cluster);
    AskingRuns(profile, r, qty, cluster);
    AskedDemand(profile, r, qty);
    NotReadyDetected(node, pods);
    NodeSeen(s, profile, req.pod.value, cluster, node, r);
    UnboundRequestNothing(pods, n, r);
    DetectedSeen(s, profile, req.pod.value, cluster, found);
    assert InflightEntry(found, req.pod.value, profile) == FreshEntry(node.allocatable, node.labels, []);
    t := SyncedFor(s, req);
    KeyHasPrefix(profile, n);
    assert forall k :: k in t.inflight <==> k == InflightKey(profile, n);
  }

  lemma EqualNodeIsBest(t: State, profile: Profile, r: string, qty: int, n: string, key: string)
    requires t.nodes.Keys == {n} && t.inflight.Keys == {key}
    requires t.nodes[n].taints == [] && t.inflight[key].taints == []
    requires qty <= Available(Unbounded, t.nodes[n], r) <= Available(Unbounded, t.inflight[key], r)
    ensures IsBest(Unbounded, t, map[r := qty], ConstraintsOf(AskingPod(profile, r, qty)), n, false)
  {
    AskedChoosable(t.nodes[n], profile, r, qty);
    OneResourceSlack(t.nodes[n], r, qty);
    OneResourceSlack(t.inflight[key], r, qty);
  }

  lemma InflightRemains(t: State, profile: Profile, r: string, qty: int, n: string, key: string)
    requires t.nodes.Keys == {n} && t.inflight.Keys == {key}
    requires t.nodes[n].taints == [] && t.inflight[key].taints == []
    requires Available(Unbounded, t.nodes[n], r) < qty <= Available(Unbounded, t.inflight[key], r)
    ensures IsBest(Unbounded, t, map[r := qty], ConstraintsOf(AskingPod(profile, r, qty)), key, true)
  {
    AskedChoosable(t.nodes[n], profile, r, qty);
    AskedChoosable(t.inflight[key], profile, r, qty);
    SoleCandidate(t, map[r := qty], ConstraintsOf(AskingPod(profile, r, qty)), key, true);
  }

  lemma Takes(t: State, key: string, r: string, qty: int)
    requires HasEntry(t, key) && FindEntry(t, key).reserved == map[]
    ensures var s := Reserved(Unbounded, t, key, map[r := qty]); HasEntry(s, key) && FindEntry(s, key).reserved == map[r := qty]
  {
    assert Plus(Unbounded, map[], map[r := qty]) == map[r := qty];
  }

  /** A NODE THAT IS NOT READY IS BOOKED TWICE within one profile: its capacity for one pod is given to a pod
      pinned to the listed node, and again to a pod held on the in-flight entry of the same node. */
  lemma NotReadyBookedTwice(q: Profile, n: string, r: string, qty: int, pods: seq<Pod>) returns (run: Run)
    requires q == WaitingProfile(q.name, r, []) && n != "" && '/' !in n && qty > 0 && Unbound(pods)
    ensures IsRun(Unbounded, run) && run.Next? && run.prev.Next? && run.prev.prev.Start?
    ensures run.prev.req == run.req == Asking(q, r, qty, NotReadyScene(ListedNode(n, r, qty), pods))
    ensures run.prev.out == Released("capacity", n) && run.out == Held(NODE_READY)
    ensures n in run.after.nodes && Get(run.after.nodes[n].reserved, r) == qty
    ensures InflightKey(q, n) in run.after.inflight && Get(run.after.inflight[InflightKey(q, n)].reserved, r) == qty
  {
    var req, key := Asking(q, r, qty, NotReadyScene(ListedNode(n, r, qty), pods)), InflightKey(q, n);
    var t := BothEntries(EMPTY, q, n, r, qty, pods);
    EqualNodeIsBest(t, q, r, qty, n, key);
    Takes(t, n, r, qty);
    var first := PinNext(Start, req, n);
    RunAccounted(first);
    var t' := BothEntries(LedgerOf(first), q, n, r, qty, pods);
    InflightRemains(t', q, r, qty, n, key);
    SyncedWellKeyed(Unbounded, LedgerOf(first), q, req.pod.value, req.cluster);
    Takes(t', key, r, qty);
    run := HoldNext(first, req, key);
  }

  /** The pinned pod once it runs. */
  function RunningPod(profile: Profile, r: string, qty: int, n: string): Pod {
    ReleasedPod(AskingPod(profile, r, qty), n, "capacity").(nodeName := n, phase := "Running")
  }

  lemma RunningRequests(profile: Profile, r: string, qty: int, n: string)
    requires n != ""
    ensures BoundRequests([RunningPod(profile, r, qty, n)], n, r) == qty
  {
    var pods := [RunningPod(profile, r, qty, n)];
    assert pods[..0] == [];
    var containers := [map[r := qty]];
    assert containers[..0] == [] && Get(containers[0], r) == qty;
    assert Demand.RequestSum(containers, r) == qty;
  }

  /** Such a node: it has room for two pods; the first is pinned to it and runs, and the second is then
      passed through unpinned, because the ledger counts the first one twice. */
  lemma RunningPodCountedTwice(q: Profile, n: string, r: string, qty: int, pods: seq<Pod>) returns (run: Run)
    requires q == WaitingProfile(q.name, r, []) && n != "" && '/' !in n && qty > 0 && Unbound(pods)
    ensures IsRun(Unbounded, run) && run.Next? && run.prev.Next? && run.prev.prev.Start?
    ensures run.prev.req == Asking(q, r, qty, Scene([ListedNode(n, r, 2 * qty)], pods, []))
    ensures run.req == Asking(q, r, qty, Scene([ListedNode(n, r, 2 * qty)], [RunningPod(q, r, qty, n)], []))
    ensures run.prev.out == Released("capacity", n) && run.out == Released("capacity", "")
    ensures FitsBeside(run.req.cluster, n, qty, r)
  {
    var first := PinsOnFreshNode(Start, q, n, r, 2 * qty, qty, pods);
    RunningRequests(q, r, qty, n);
    run := PassedOver(first, q, n, r, 2 * qty, qty, [RunningPod(q, r, qty, n)]);
    RoomBeside(n, r, 2 * qty, [RunningPod(q, r, qty, n)], qty);
  }

  lemma RoomBeside(n: string, r: string, capacity: int, pods: seq<Pod>, promised: int)
    requires BoundRequests(pods, n, r) + promised <= capacity
    ensures FitsBeside(Scene([ListedNode(n, r, capacity)], pods, []), n, promised, r)
  {
    var node := ListedNode(n, r, capacity);
    assert Get(node.allocatable, r) == capacity;
    assert node in [node] && IsNodeWithRoom(node, pods, n, promised, r);
  }

  /** A pod for which bound requests and grants together leave too little is passed through. */
  lemma PassedOver(prev: Run, q: Profile, n: string, r: string, capacity: int, qty: int, pods: seq<Pod>) returns (run: Run)
    requires IsRun(Unbounded, prev) && q == WaitingProfile(q.name, r, []) && '/' !in n
    requires LedgerOf(prev).inflight == map[] && n in LedgerOf(prev).nodes
    requires capacity < BoundRequests(pods, n, r) + Get(LedgerOf(prev).nodes[n].reserved, r) + qty
    ensures IsRun(Unbounded, run) && run.Next? && run.prev == prev && run.out == Released("capacity", "")
    ensures run.req == Asking(q, r, qty, Scene([ListedNode(n, r, capacity)], pods, []))
  {
    RunAccounted(prev);
    var t := SoleNodeSeen(LedgerOf(prev), q, n, r, capacity, qty, pods);
    AskedChoosable(t.nodes[n], q, r, qty);
    run := PassNext(prev, Asking(q, r, qty, Scene([ListedNode(n, r, capacity)], pods, [])));
  }

  /** A profile with the documented rule list. */
  function DocumentedProfile(name: string, r: string, templates: seq<Template>): Profile {
    TrackingProfile(name, r, templates, [PACKING, NODE_READY])
  }

  /** One listed and one coming node, each with room for one pod, as the rules first see them. */
  lemma NodeAndComing(profile: Profile, n: string, x: string, r: string, qty: int, pods: seq<Pod>) returns (t: State)
    requires profile == DocumentedProfile(profile.name, r, [PoolTemplate(r, qty)]) && '/' !in n && Unbound(pods)
    ensures var req := Asking(profile, r, qty, Scene([ListedNode(n, r, qty)], pods, [ComingNode(x)]));
      && RunsRules(req) && NamesValid(req.cluster) && DemandFor(req) == map[r := qty] && DemandFor(req) != map[]
      && t == SyncedFor(EMPTY, req) && WellKeyed(t)
    ensures t.nodes.Keys == {n} && t.inflight.Keys == {InflightKey(profile, x)}
    ensures t.nodes[n].taints == [] && t.inflight[InflightKey(profile, x)].taints == []
    ensures Available(Unbounded, t.nodes[n], r) == qty && Available(Unbounded, t.inflight[InflightKey(profile, x)], r) == qty
  {
    var node, key := ListedNode(n, r, qty), InflightKey(profile, x);
    var cluster := Scene([node], pods, [ComingNode(x)]);
    var req := Asking(profile, r, qty, cluster);
    AskingRuns(profile, r, qty, cluster);
    AskedDemand(profile, r, qty);
    SceneDetects([node], pods, [ComingNode(x)]);
    NodeSeen(EMPTY, profile, req.pod.value, cluster, node, r);
    UnboundRequestNothing(pods, n, r);
    DetectedSeen(EMPTY, profile, req.pod.value, cluster, ComingNode(x));
    ComingEntry(x, req.pod.value, profile, r, qty);
    SyncedWellKeyed(Unbounded, EMPTY, profile, req.pod.value, cluster);
    t := SyncedFor(EMPTY, req);
    assert forall k :: k in t.inflight <==> k == key;
  }

  /** What the documented list decides on such a ledger: hold, with a reservation on each side. */
  lemma DecidesToHold(t: State, profile: Profile, r: string, qty: int, n: string, key: string,
                      s': State, d: Decision, grants: seq<string>)
    requires WellKeyed(t) && n != "" && t.nodes.Keys == {n} && t.inflight.Keys == {key} && qty > 0
    requires t.nodes[n].taints == [] && t.inflight[key].taints == []
    requires Available(Unbounded, t.nodes[n], r) == qty == Available(Unbounded, t.inflight[key], r)
    requires profile.rules == [PACKING, NODE_READY] && PodDemand(Unbounded, AskingPod(profile, r, qty), profile) == map[r := qty]
    requires Decides(Unbounded, t, AskingPod(profile, r, qty), profile, profile.rules, "", s', d, grants)
    ensures d == Hold(NODE_READY) && grants == [n, key]
  {
    assert r in map[r := qty];
    PackingTakes(t, profile, r, qty, n, s', d, grants);
    FullAfter(t, n, key, r, qty);
    HoldFollows(Reserved(Unbounded, t, n, map[r := qty]), profile, r, qty, n, key, d, grants[1..]);
    assert grants == [n] + grants[1..];
  }

  lemma PackingTakes(t: State, profile: Profile, r: string, qty: int, n: string, s': State, d: Decision, grants: seq<string>)
    requires WellKeyed(t) && NamesNonEmpty(t) && t.nodes.Keys == {n} && t.nodes[n].taints == []
    requires Available(Unbounded, t.nodes[n], r) >= qty
    requires profile.rules == [PACKING, NODE_READY] && PodDemand(Unbounded, AskingPod(profile, r, qty), profile) == map[r := qty] != map[]
    requires Decides(Unbounded, t, AskingPod(profile, r, qty), profile, profile.rules, "", s', d, grants)
    ensures grants != [] && grants[0] == n
    ensures LastRuleDecides(Unbounded, Reserved(Unbounded, t, n, map[r := qty]), AskingPod(profile, r, qty), profile, n, d, grants[1..])
  {
    var pod, demand := AskingPod(profile, r, qty), map[r := qty];
    AskedChoosable(t.nodes[n], profile, r, qty);
    assert Candidate(Unbounded, t, demand, ConstraintsOf(pod), n, false);
    PackingThenNodeReady(Unbounded, t, pod, profile, profile.rules, s', d, grants);
    SoleNodeChosen(t, demand, ConstraintsOf(pod), n, grants[0]);
  }

  lemma HoldFollows(s: State, profile: Profile, r: string, qty: int, n: string, key: string, d: Decision, rest: seq<string>)
    requires s.nodes.Keys == {n} && s.inflight.Keys == {key} && PodDemand(Unbounded, AskingPod(profile, r, qty), profile) == map[r := qty]
    requires s.nodes[n].taints == [] && s.inflight[key].taints == []
    requires Available(Unbounded, s.nodes[n], r) < qty <= Available(Unbounded, s.inflight[key], r)
    requires LastRuleDecides(Unbounded, s, AskingPod(profile, r, qty), profile, n, d, rest)
    ensures d == Hold(NODE_READY) && rest == [key]
  {
    OnlyInflightLeft(s, profile, r, qty, n, key);
  }

  lemma SoleNodeChosen(t: State, demand: Amounts, c: Option<Constraints>, n: string, chosen: string)
    requires t.nodes.Keys == {n} && IsBest(Unbounded, ExistingOnly(t), demand, c, chosen, false)
    ensures chosen == n
  {
    assert Has(ExistingOnly(t), chosen, false);
  }

  lemma FullAfter(t: State, n: string, key: string, r: string, qty: int)
    requires t.nodes.Keys == {n} && t.inflight.Keys == {key} && Available(Unbounded, t.nodes[n], r) == qty
    ensures var s := Reserved(Unbounded, t, n, map[r := qty]);
      && s.nodes.Keys == {n} && s.inflight == t.inflight
      && s.nodes[n].taints == t.nodes[n].taints && Available(Unbounded, s.nodes[n], r) == 0
  {
  }

  lemma OnlyInflightLeft(s: State, profile: Profile, r: string, qty: int, n: string, key: string)
    requires s.nodes.Keys == {n} && s.inflight.Keys == {key} && PodDemand(Unbounded, AskingPod(profile, r, qty), profile) == map[r := qty]
    requires s.nodes[n].taints == [] && s.inflight[key].taints == []
    requires Available(Unbounded, s.nodes[n], r) < qty <= Available(Unbounded, s.inflight[key], r)
    ensures SomethingFits(Unbounded, s, AskingPod(profile, r, qty), profile)
    ensures !NodeReadyReleases(Unbounded, s, AskingPod(profile, r, qty), profile)
    ensures forall m, i :: IsBest(Unbounded, s, map[r := qty], ConstraintsOf(AskingPod(profile, r, qty)), m, i) ==> m == key
  {
    var demand, c := map[r := qty], ConstraintsOf(AskingPod(profile, r, qty));
    InflightRemains(s, profile, r, qty, n, key);
    AskedChoosable(s.nodes[n], profile, r, qty);
    assert Candidate(Unbounded, s, demand, c, key, true);
    assert !Candidate(Unbounded, s, demand, c, n, false);
  }

  /** THE DOCUMENTED LIST HOLDS A POD THAT FITS. A listed node has capacity for the pod and a coming one too: the pod is
      not released but held by WaitForNodeReady, with its demand reserved on both. */
  lemma HeldThoughNodeFits(profile: Profile, n: string, x: string, r: string, qty: int, pods: seq<Pod>) returns (run: Run)
    requires profile == DocumentedProfile(profile.name, r, [PoolTemplate(r, qty)])
    requires n != "" && '/' !in n && qty > 0 && Unbound(pods)
    ensures IsRun(Unbounded, run) && run.Next? && run.prev.Start?
    ensures run.req == Asking(profile, r, qty, Scene([ListedNode(n, r, qty)], pods, [ComingNode(x)]))
    ensures run.out == Held(NODE_READY) && run.grants == [n, InflightKey(profile, x)]
  {
    var req := Asking(profile, r, qty, Scene([ListedNode(n, r, qty)], pods, [ComingNode(x)]));
    var t := NodeAndComing(profile, n, x, r, qty, pods);
    var after, out, grants := ReconcileExists(Unbounded, EMPTY, req);
    var d :| Decides(Unbounded, t, req.pod.value, profile, profile.rules, "", after, d, grants) && out == OutcomeOf(d);
    DecidesToHold(t, profile, r, qty, n, InflightKey(profile, x), after, d, grants);
    run := Next(Start, req, out, grants, after);
  }

  /** THE DOCUMENTED LIST NEVER PASSES A POD THROUGH. On a cluster with no node, listed or coming, the pod is held by
      WaitForWorkloadPacking at every repetition, for any number of them. */
  lemma NeverPassedThrough(profile: Profile, r: string, qty: int, pods: seq<Pod>, times: nat) returns (h: Repeat)
    requires profile == DocumentedProfile(profile.name, r, [])
    ensures IsRepeat(h, AskingPod(profile, r, qty), profile, Scene([], pods, [])) && First(h) == EMPTY && Times(h) == times
    ensures AllHeldByPacking(h)
  {
    var cluster, pod := Scene([], pods, []), AskingPod(profile, r, qty);
    AskingRuns(profile, r, qty, cluster);
    AskedDemand(profile, r, qty);
    SceneDetects([], pods, []);
    NodesUnseen(EMPTY, profile, pod, cluster);
    NothingDetected(EMPTY, profile, pod, cluster);
    h := Repetitions(EMPTY, Asking(profile, r, qty, cluster), times);
    PackingHoldsForever(h, pod, profile, cluster);
  }
}
