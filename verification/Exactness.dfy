/** The int64 ledger against the unbounded one: with amounts of bounded size no operation ever
    wraps, so every theorem about unbounded runs holds of the ledger as it is computed. */
module Exactness {
  import opened Quantities
  import opened Scheduling
  import opened Objects
  import opened Ledger
  import opened Rules
  import opened Sync
  import opened Reconcile
  import opened Rebuild
  import opened RuleLoop
  import opened Safety
  import opened Templates
  import Demand

  /** Twice the bound is still an int64. */
  predicate Bound(b: int) {
    0 <= b && 2 * b <= MAX_INT64
  }

  predicate Within(m: Amounts, b: int) {
    forall r :: r in m ==> 0 <= m[r] <= b
  }

  predicate EntryWithin(e: Entry, b: int) {
    Within(e.allocatable, b) && Within(e.used, b) && Within(e.reserved, b)
  }

  predicate StateWithin(s: State, b: int) {
    && (forall k :: k in s.nodes ==> EntryWithin(s.nodes[k], b))
    && (forall k :: k in s.inflight ==> EntryWithin(s.inflight[k], b))
  }

  /** No total slack reaches the search's sentinel. */
  predicate DemandWithin(demand: Amounts, b: int) {
    Within(demand, b) && b * |demand| < MAX_INT64
  }

  lemma WrapExact(x: int)
    requires -TWO_63 <= x <= MAX_INT64
    ensures Wrap(x) == x
  {
  }

  lemma AvailableExact(e: Entry, r: string, b: int)
    requires Bound(b) && EntryWithin(e, b)
    ensures Available(Int64, e, r) == Available(Unbounded, e, r) <= b
  {
    var a, u, q := Get(e.allocatable, r), Get(e.used, r), Get(e.reserved, r);
    assert 0 <= a <= b && 0 <= u <= b && 0 <= q <= b;
    WrapExact(a - u);
    WrapExact(a - u - q);
  }

  lemma FitsExact(e: Entry, demand: Amounts, b: int)
    requires Bound(b) && EntryWithin(e, b)
    ensures Fits(Int64, e, demand) <==> Fits(Unbounded, e, demand)
    ensures Leftovers(Int64, e, demand) == Leftovers(Unbounded, e, demand)
  {
    forall r ensures Available(Int64, e, r) == Available(Unbounded, e, r) {
      AvailableExact(e, r, b);
    }
  }

  lemma SlackExact(e: Entry, demand: Amounts, b: int)
    requires Bound(b) && EntryWithin(e, b) && DemandWithin(demand, b) && Fits(Unbounded, e, demand)
    ensures Slack(Int64, e, demand) == Slack(Unbounded, e, demand) < MAX_INT64
  {
    FitsExact(e, demand, b);
    var left := Leftovers(Unbounded, e, demand);
    forall r | r in left ensures 0 <= left[r] <= b {
      AvailableExact(e, r, b);
    }
    assert left.Keys == demand.Keys;
    assert |left| == |demand|;
    MapSumNonNegative(left);
    MapSumAtMost(left, b);
    WrapExact(MapSum(left));
  }

  lemma CandidateExact(s: State, demand: Amounts, c: Option<Constraints>, b: int, n: string, i: bool)
    requires Bound(b) && StateWithin(s, b) && DemandWithin(demand, b)
    ensures Candidate(Int64, s, demand, c, n, i) <==> Candidate(Unbounded, s, demand, c, n, i)
    ensures Candidate(Unbounded, s, demand, c, n, i) ==>
      Slack(Int64, EntryAt(s, n, i), demand) == Slack(Unbounded, EntryAt(s, n, i), demand)
  {
    if Has(s, n, i) {
      var e := EntryAt(s, n, i);
      assert EntryWithin(e, b);
      FitsExact(e, demand, b);
      if Fits(Unbounded, e, demand) {
        SlackExact(e, demand, b);
      }
    }
  }

  lemma IsBestExact(s: State, demand: Amounts, c: Option<Constraints>, b: int, n: string, i: bool)
    requires Bound(b) && StateWithin(s, b) && DemandWithin(demand, b)
    ensures IsBest(Int64, s, demand, c, n, i) <==> IsBest(Unbounded, s, demand, c, n, i)
  {
    forall m, j
      ensures Candidate(Int64, s, demand, c, m, j) <==> Candidate(Unbounded, s, demand, c, m, j)
      ensures Candidate(Unbounded, s, demand, c, m, j) ==>
        Slack(Int64, EntryAt(s, m, j), demand) == Slack(Unbounded, EntryAt(s, m, j), demand)
    {
      CandidateExact(s, demand, c, b, m, j);
    }
  }

  /** The int64 search with its MaxInt64 sentinel gives exactly the answers of best fit. */
  lemma FindFitExact(s: State, demand: Amounts, c: Option<Constraints>, b: int, fit: Fit)
    requires Bound(b) && StateWithin(s, b) && DemandWithin(demand, b)
    ensures FindFitAnswers(Int64, s, demand, c, fit) <==> FindFitAnswers(Unbounded, s, demand, c, fit)
  {
    forall n, i
      ensures Candidate(Int64, s, demand, c, n, i) <==> Candidate(Unbounded, s, demand, c, n, i)
      ensures IsBest(Int64, s, demand, c, n, i) <==> IsBest(Unbounded, s, demand, c, n, i)
    {
      CandidateExact(s, demand, c, b, n, i);
      IsBestExact(s, demand, c, b, n, i);
    }
  }

  /** Without the bound the sentinel hides a node: one with MaxInt64 to spare is not found. */
  lemma SentinelHidesNode(name: string, r: string)
    requires name != ""
    ensures var s := State(map[name := FreshEntry(map[r := MAX_INT64], map[], [])], map[]);
      && FindFitAnswers(Unbounded, s, map[r := 0], None, FitOn(name, false))
      && FindFitAnswers(Int64, s, map[r := 0], None, NoFit)
      && !FindFitAnswers(Int64, s, map[r := 0], None, FitOn(name, false))
  {
    var e := FreshEntry(map[r := MAX_INT64], map[], []);
    var s := State(map[name := e], map[]);
    WrapExact(MAX_INT64);
    assert Available(Int64, e, r) == MAX_INT64 == Available(Unbounded, e, r);
    var left := Leftovers(Int64, e, map[r := 0]);
    assert left == map[r := MAX_INT64];
    MapSumInsert(map[], r, MAX_INT64);
    assert map[][r := MAX_INT64] == left;
    assert Slack(Int64, e, map[r := 0]) == MAX_INT64;
    assert forall n, i :: !Candidate(Int64, s, map[r := 0], None, n, i);
    assert Candidate(Unbounded, s, map[r := 0], None, name, false);
  }

  /** An entry that fits in int64 arithmetic and meets the constraints. */
  predicate Suitable(s: State, demand: Amounts, c: Option<Constraints>, n: string, i: bool) {
    Has(s, n, i) && Matches(EntryAt(s, n, i), c) && Fits(Int64, EntryAt(s, n, i), demand)
  }

  /** That is the only way to be missed: a search fails if and only if every suitable entry has a slack
      equal to the sentinel. */
  lemma SentinelHidesIff(s: State, demand: Amounts, c: Option<Constraints>, fit: Fit)
    requires NamesNonEmpty(s) && FindFitAnswers(Int64, s, demand, c, fit)
    ensures fit.NoFit? <==> forall n, i :: Suitable(s, demand, c, n, i) ==> Slack(Int64, EntryAt(s, n, i), demand) == MAX_INT64
  {
    FoundIffFits(Int64, s, demand, c, fit);
    forall n, i
      ensures Candidate(Int64, s, demand, c, n, i) <==>
              Suitable(s, demand, c, n, i) && Slack(Int64, EntryAt(s, n, i), demand) != MAX_INT64
    {
      if Has(s, n, i) {
        SlackInRange(EntryAt(s, n, i), demand);
      }
    }
  }

  lemma SlackInRange(e: Entry, demand: Amounts)
    ensures Slack(Int64, e, demand) <= MAX_INT64
  {
  }

  lemma PlusExact(m: Amounts, d: Amounts, b: int)
    requires Bound(b) && Within(m, b)
    requires forall r :: r in d ==> 0 <= Get(m, r) + d[r] <= b
    ensures Plus(Int64, m, d) == Plus(Unbounded, m, d) && Within(Plus(Unbounded, m, d), b)
  {
    forall r | r in d ensures Add(Int64, Get(m, r), d[r]) == Add(Unbounded, Get(m, r), d[r]) {
      WrapExact(Get(m, r) + d[r]);
    }
  }

  lemma ReserveExact(s: State, name: string, demand: Amounts, b: int)
    requires Bound(b) && StateWithin(s, b) && Within(demand, b)
    ensures CanReserve(Int64, s, name, demand) <==> CanReserve(Unbounded, s, name, demand)
    ensures CanReserve(Unbounded, s, name, demand) ==>
      && Reserved(Int64, s, name, demand) == Reserved(Unbounded, s, name, demand)
      && StateWithin(Reserved(Unbounded, s, name, demand), b)
  {
    if HasEntry(s, name) {
      var e := FindEntry(s, name);
      assert EntryWithin(e, b);
      FitsExact(e, demand, b);
      if Fits(Unbounded, e, demand) {
        ReservationExact(e, demand, b);
      }
    }
  }

  lemma ReservationExact(e: Entry, demand: Amounts, b: int)
    requires Bound(b) && EntryWithin(e, b) && Within(demand, b) && Fits(Unbounded, e, demand)
    ensures AddReservation(Int64, e, demand) == AddReservation(Unbounded, e, demand)
    ensures EntryWithin(AddReservation(Unbounded, e, demand), b)
  {
    forall r | r in demand ensures 0 <= Get(e.reserved, r) + demand[r] <= b {
      assert Available(Unbounded, e, r) >= demand[r];
      assert 0 <= Get(e.used, r) && Get(e.allocatable, r) <= b && 0 <= Get(e.reserved, r);
    }
    PlusExact(e.reserved, demand, b);
  }

  lemma VerdictsExact(s: State, demand: Amounts, prefix: string, fit: Fit, b: int)
    requires Bound(b) && StateWithin(s, b) && Within(demand, b)
    ensures NodeReadyAfter(Int64, s, demand, prefix, fit) == NodeReadyAfter(Unbounded, s, demand, prefix, fit)
    ensures PackingAfter(Int64, s, demand, fit) == PackingAfter(Unbounded, s, demand, fit)
    ensures StateWithin(NodeReadyAfter(Unbounded, s, demand, prefix, fit).0, b)
    ensures StateWithin(PackingAfter(Unbounded, s, demand, fit).0, b)
  {
    if fit.FitOn? {
      ReserveExact(s, fit.name, demand, b);
    }
  }

  lemma EvaluatesExact(rule: string, s: State, pod: Pod, profile: Profile, s': State, v: Verdict, b: int)
    requires Bound(b) && StateWithin(s, b)
    requires PodDemand(Int64, pod, profile) == PodDemand(Unbounded, pod, profile)
    requires DemandWithin(PodDemand(Unbounded, pod, profile), b)
    requires Evaluates(Int64, rule, s, pod, profile, s', v)
    ensures Evaluates(Unbounded, rule, s, pod, profile, s', v) && StateWithin(s', b)
  {
    var demand, c, prefix := PodDemand(Unbounded, pod, profile), ConstraintsOf(pod), ProfilePrefix(profile);
    if demand != map[] {
      if rule == NODE_READY {
        var fit :| FindFitAnswers(Int64, s, demand, c, fit) && (s', v) == NodeReadyAfter(Int64, s, demand, prefix, fit);
        FindFitExact(s, demand, c, b, fit);
        VerdictsExact(s, demand, prefix, fit, b);
      } else {
        var fit :| FindFitAnswers(Int64, ExistingOnly(s), demand, c, fit) && (s', v) == PackingAfter(Int64, s, demand, fit);
        FindFitExact(ExistingOnly(s), demand, c, b, fit);
        VerdictsExact(s, demand, prefix, fit, b);
      }
    }
  }

  lemma {:induction false} DecidesExact(s: State, pod: Pod, profile: Profile, rules: seq<string>, target: string,
                                        s': State, d: Decision, grants: seq<string>, b: int)
    requires Bound(b) && StateWithin(s, b)
    requires PodDemand(Int64, pod, profile) == PodDemand(Unbounded, pod, profile)
    requires DemandWithin(PodDemand(Unbounded, pod, profile), b)
    requires Decides(Int64, s, pod, profile, rules, target, s', d, grants)
    ensures Decides(Unbounded, s, pod, profile, rules, target, s', d, grants) && StateWithin(s', b)
    decreases |rules|
  {
    if rules != [] {
      if !Registered(rules[0]) {
        DecidesExact(s, pod, profile, rules[1..], target, s', d, grants, b);
      } else {
        var s1, v, rest := Unroll(Int64, s, pod, profile, rules, target, s', d, grants);
        EvaluatesExact(rules[0], s, pod, profile, s1, v, b);
        if v.release {
          DecidesExact(s1, pod, profile, rules[1..], NextTarget(v, target), s', d, rest, b);
          PrependRelease(Unbounded, s, pod, profile, rules, target, s1, v, s', d, rest);
        } else {
          HoldDecides(Unbounded, s, pod, profile, rules, target, s1, v);
          assert GrantList(v) + [] == GrantList(v);
        }
      }
    }
  }

  /** Requests are never negative and no node's live pods request more than the bound. */
  ghost predicate PodsWithin(pods: seq<Pod>, b: int) {
    && (forall p, c, r :: p in pods && c in p.containers && r in c ==> c[r] >= 0)
    && (forall name, r :: BoundRequests(pods, name, r) <= b)
  }

  lemma {:induction false} RequestsNonNegative(containers: seq<Amounts>, r: string)
    requires forall c, q :: c in containers && q in c ==> c[q] >= 0
    ensures Demand.RequestSum(containers, r) >= 0
  {
    if containers != [] {
      RequestsNonNegative(containers[..|containers| - 1], r);
      assert containers[|containers| - 1] in containers;
    }
  }

  lemma {:induction false} AddContainersExact(used: Amounts, containers: seq<Amounts>, b: int)
    requires Bound(b) && Within(used, b)
    requires forall c, r :: c in containers && r in c ==> c[r] >= 0
    requires forall r :: Get(used, r) + Demand.RequestSum(containers, r) <= b
    ensures AddContainers(Int64, used, containers) == AddContainers(Unbounded, used, containers)
    ensures Within(AddContainers(Unbounded, used, containers), b)
  {
    if containers != [] {
      var init, last := containers[..|containers| - 1], containers[|containers| - 1];
      assert last in containers;
      assert forall r :: Get(last, r) >= 0;
      forall r ensures Get(used, r) + Demand.RequestSum(init, r) <= b {
        assert Get(used, r) + Demand.RequestSum(containers, r) <= b;
      }
      AddContainersExact(used, init, b);
      var m := AddContainers(Unbounded, used, init);
      forall r | r in last ensures 0 <= Get(m, r) + last[r] <= b {
        AddContainersAt(Unbounded, used, init, Get(used, r), r);
        assert Get(used, r) + Demand.RequestSum(containers, r) <= b;
        RequestsNonNegative(init, r);
      }
      PlusExact(m, last, b);
    }
  }

  lemma {:induction false} UsageExact(pods: seq<Pod>, b: int)
    requires Bound(b) && PodsWithin(pods, b)
    ensures UsageByNode(Int64, pods) == UsageByNode(Unbounded, pods)
    ensures forall k :: k in UsageByNode(Unbounded, pods) ==> Within(UsageByNode(Unbounded, pods)[k], b)
  {
    if pods != [] {
      var init, p := pods[..|pods| - 1], pods[|pods| - 1];
      assert p in pods;
      assert forall c, r :: c in p.containers && r in c ==> c[r] >= 0;
      forall name, r ensures BoundRequests(init, name, r) <= b {
        assert BoundRequests(pods, name, r) <= b;
        RequestsNonNegative(p.containers, r);
      }
      UsageExact(init, b);
      if Live(p) {
        var used := UsageAt(UsageByNode(Unbounded, init), p.nodeName);
        forall r ensures Get(used, r) + Demand.RequestSum(p.containers, r) <= b {
          UsageIsBoundRequests(Unbounded, init, p.nodeName, r);
          assert BoundRequests(pods, p.nodeName, r) <= b;
        }
        AddContainersExact(used, p.containers, b);
      }
    }
  }

  /** The sizes of everything one reconcile reads. */
  ghost predicate InputsWithin(req: Request, b: int) {
    Syncs(req) ==>
      && (req.cluster.nodes.Some? ==> forall n :: n in req.cluster.nodes.value ==> Within(n.allocatable, b))
      && (req.cluster.pods.Some? ==> PodsWithin(req.cluster.pods.value, b))
      && (forall n :: n in Detected(req.cluster.detections) ==> Within(n.allocatable, b))
      && (forall t :: t in req.profile.value.templates ==> Within(t.allocatable, b))
      && DemandWithin(PodDemand(Unbounded, req.pod.value, req.profile.value), b)
  }

  lemma DemandExact(pod: Pod, profile: Profile, b: int)
    requires Bound(b) && Within(PodDemand(Unbounded, pod, profile), b)
    ensures PodDemand(Int64, pod, profile) == PodDemand(Unbounded, pod, profile)
  {
    var source := profile.demandSource;
    if source.kind == "ResourceRequest" {
      var resources := Demand.TrackedResources(source);
      var m, m' := PodDemand(Unbounded, pod, profile), PodDemand(Int64, pod, profile);
      forall r | r in m ensures r in m' && m'[r] == m[r] {
        WrapExact(m[r]);
      }
      assert forall r :: r in m' ==> r in m;
    }
  }

  lemma {:induction false} TemplateWithin(n: InflightNode, pod: Pod, profile: Profile, b: int)
    requires 0 <= b && Within(n.allocatable, b)
    requires forall t :: t in profile.templates ==> Within(t.allocatable, b)
    ensures EntryWithin(InflightEntry(n, pod, profile), b)
  {
    TemplateOrder(n, pod, profile);
    assert TemplateFor(n, pod, profile).Some? ==> TemplateFor(n, pod, profile).value in profile.templates;
  }

  lemma ListedWithin(nodes: seq<Node>, profile: Profile, b: int)
    requires 0 <= b && forall n :: n in nodes ==> Within(n.allocatable, b)
    ensures forall k :: k in ListedEntries(nodes, profile) ==> EntryWithin(ListedEntries(nodes, profile)[k], b)
  {
    forall k | k in ListedEntries(nodes, profile) ensures EntryWithin(ListedEntries(nodes, profile)[k], b) {
      ListedAt(nodes, profile, k);
    }
  }

  lemma RestoredWithin(s: State, u: State, b: int)
    requires StateWithin(s, b) && StateWithin(u, b)
    ensures StateWithin(Restored(u, Snapshot(s)), b)
  {
    forall k | k in Snapshot(s) ensures Within(Snapshot(s)[k], b) {
    }
  }

  lemma SyncExact(s: State, req: Request, b: int)
    requires Bound(b) && StateWithin(s, b) && InputsWithin(req, b) && Syncs(req)
    ensures Synced(Int64, s, req.profile.value, req.pod.value, req.cluster)
         == Synced(Unbounded, s, req.profile.value, req.pod.value, req.cluster)
    ensures StateWithin(Synced(Unbounded, s, req.profile.value, req.pod.value, req.cluster), b)
  {
    var profile, pod, cluster := req.profile.value, req.pod.value, req.cluster;
    if cluster.nodes.Some? {
      ListedWithin(cluster.nodes.value, profile, b);
    }
    if Listed(cluster) {
      UsageExact(cluster.pods.value, b);
      var u := Unreserved(Unbounded, s, profile, pod, cluster);
      forall k | k in u.inflight ensures EntryWithin(u.inflight[k], b) {
        DetectedWithin(s, profile, pod, Detected(cluster.detections), k, b);
      }
      assert StateWithin(u, b);
      RestoredWithin(s, u, b);
    }
  }

  lemma DetectedWithin(s: State, profile: Profile, pod: Pod, found: seq<InflightNode>, k: string, b: int)
    requires 0 <= b && StateWithin(s, b)
    requires forall n :: n in found ==> Within(n.allocatable, b)
    requires forall t :: t in profile.templates ==> Within(t.allocatable, b)
    requires k in WithDetected(OtherInflight(s, profile), found, pod, profile)
    ensures EntryWithin(WithDetected(OtherInflight(s, profile), found, pod, profile)[k], b)
  {
    DetectedAreFresh(s, profile, pod, found, k);
    if HasPrefix(k, ProfilePrefix(profile)) {
      var n :| n in found && k == InflightKey(profile, n.name)
               && WithDetected(OtherInflight(s, profile), found, pod, profile)[k] == InflightEntry(n, pod, profile);
      TemplateWithin(n, pod, profile, b);
    }
  }

  lemma StepExact(s: State, req: Request, s': State, out: Outcome, grants: seq<string>, b: int)
    requires Bound(b) && StateWithin(s, b) && InputsWithin(req, b)
    requires Reconciles(Int64, s, req, s', out, grants)
    ensures Reconciles(Unbounded, s, req, s', out, grants) && StateWithin(s', b)
  {
    if Syncs(req) {
      SyncExact(s, req, b);
    }
    if RunsRules(req) {
      var pod, profile := req.pod.value, req.profile.value;
      DemandExact(pod, profile, b);
      var t := Rebuilt(Int64, s, profile, pod, req.cluster);
      var d :| Decides(Int64, t, pod, profile, profile.rules, "", s', d, grants) && out == OutcomeOf(d);
      DecidesExact(t, pod, profile, profile.rules, "", s', d, grants, b);
    }
  }

  ghost predicate RunWithin(run: Run, b: int) {
    run.Next? ==> InputsWithin(run.req, b) && RunWithin(run.prev, b)
  }

  /** NO WRAP-AROUND, EVER. A run of the int64 ledger whose inputs are all within the bound is a run
      of the unbounded one, step for step; no reserved amount ever leaves the bound. */
  lemma {:induction false} Int64RunIsExact(run: Run, b: int)
    requires Bound(b) && IsRun(Int64, run) && RunWithin(run, b)
    ensures IsRun(Unbounded, run) && StateWithin(LedgerOf(run), b)
  {
    match run
    case Start =>
    case Next(prev, req, out, grants, after) =>
      Int64RunIsExact(prev, b);
      StepExact(LedgerOf(prev), req, after, out, grants, b);
  }

  /** Whole-run safety of the ledger as computed. */
  lemma Int64WholeRunSafety(run: Run, b: int, j: nat, r: string)
    requires Bound(b) && IsRun(Int64, run) && RunWithin(run, b)
    requires run.Next? && j < |run.grants|
    requires r in ReqDemand(run.req)
    ensures HasEntry(Seen(run), run.grants[j])
    ensures var e := FindEntry(Seen(run), run.grants[j]);
      Get(e.used, r) + PromisedAt(run, j, r) <= Get(e.allocatable, r)
    ensures run.grants[j] in Seen(run).nodes ==> FitsBeside(run.req.cluster, run.grants[j], PromisedAt(run, j, r), r)
  {
    Int64RunIsExact(run, b);
    WholeRunSafety(run, j, r);
    if run.grants[j] in Seen(run).nodes {
      GrantFitsListedNode(run, j, r);
    }
  }
}
