/** Whole-run safety: over any sequence of reconciles, by any pods and profiles on any cluster
    contents, failing calls included, no ledger entry is promised beyond its allocatable between
    entering the ledger and leaving it. `DoubleBooking` says what that means for nodes. */
module Safety {
  import opened Quantities
  import opened Objects
  import opened Ledger
  import opened Rules
  import opened Sync
  import opened Reconcile
  import opened Rebuild
  import opened RuleLoop

  datatype Grant = Grant(name: string, demand: Amounts)

  /** Total granted on an entry, per resource. */
  function SumGranted(h: seq<Grant>, name: string, r: string): int {
    if h == [] then 0
    else
      var g := h[|h| - 1];
      SumGranted(h[..|h| - 1], name, r) + if g.name == name then Get(g.demand, r) else 0
  }

  function KeepOnly(h: seq<Grant>, names: set<string>): seq<Grant> {
    if h == [] then []
    else
      var init := KeepOnly(h[..|h| - 1], names);
      if h[|h| - 1].name in names then init + [h[|h| - 1]] else init
  }

  function AsGrants(names: seq<string>, demand: Amounts): seq<Grant> {
    seq(|names|, i requires 0 <= i < |names| => Grant(names[i], demand))
  }

  function EntryNames(s: State): set<string> {
    s.nodes.Keys + s.inflight.Keys
  }

  /** The ledger the rules see. */
  function LedgerSeen(w: Width, s: State, req: Request): State {
    if Syncs(req) then Synced(w, s, req.profile.value, req.pod.value, req.cluster) else s
  }

  /** Names whose reservations a sync carries over: those in the rebuilt ledger, or, when a list
      call fails half-way, only other profiles' in-flight entries. */
  function Carried(w: Width, s: State, req: Request): set<string> {
    if Syncs(req) && !Listed(req.cluster) then OtherInflight(s, req.profile.value).Keys
    else EntryNames(LedgerSeen(w, s, req))
  }

  /** Grants outstanding per name since it last entered the ledger, before this reconcile's own. */
  function HistorySeen(h: seq<Grant>, s: State, req: Request): seq<Grant> {
    KeepOnly(h, Carried(Unbounded, s, req))
  }

  function ReqDemand(req: Request): Amounts {
    if req.pod.Found? && req.profile.Found? then PodDemand(Unbounded, req.pod.value, req.profile.value) else map[]
  }

  /** A run: reconciles one after the other, from an empty ledger. Each records what it read,
      what it decided, the entries it granted on, and the ledger it left. */
  datatype Run = Start | Next(prev: Run, req: Request, out: Outcome, grants: seq<string>, after: State)

  function LedgerOf(run: Run): State {
    if run.Start? then EMPTY else run.after
  }

  /** Any pods, profiles, cluster contents and failures; only node names must be slash-free. */
  ghost predicate IsRun(w: Width, run: Run) {
    match run
    case Start => true
    case Next(prev, req, out, grants, after) =>
      && IsRun(w, prev)
      && NamesValid(req.cluster)
      && Reconciles(w, LedgerOf(prev), req, after, out, grants)
  }

  /** The grants the run's last reconcile starts from. */
  function PriorHistory(run: Run): seq<Grant>
    requires run.Next?
    decreases run, 0
  {
    HistorySeen(History(run.prev), LedgerOf(run.prev), run.req)
  }

  /** Every grant since its name last entered the ledger. */
  function History(run: Run): seq<Grant>
    decreases run, 1
  {
    match run
    case Start => []
    case Next(_, req, _, grants, _) => PriorHistory(run) + AsGrants(grants, ReqDemand(req))
  }

  /** Reservations are exactly the outstanding grants. */
  ghost predicate Accounted(s: State, h: seq<Grant>) {
    && WellKeyed(s)
    && (forall g :: g in h ==> HasEntry(s, g.name))
    && forall name, r :: HasEntry(s, name) ==> AccountedAt(s, h, name, r)
  }

  predicate AccountedAt(s: State, h: seq<Grant>, name: string, r: string)
    requires HasEntry(s, name)
  {
    Get(FindEntry(s, name).reserved, r) == SumGranted(h, name, r)
  }

  lemma {:induction false} KeepOnlySum(h: seq<Grant>, names: set<string>, name: string, r: string)
    ensures SumGranted(KeepOnly(h, names), name, r) == if name in names then SumGranted(h, name, r) else 0
  {
    if h != [] {
      KeepOnlySum(h[..|h| - 1], names, name, r);
      var init := KeepOnly(h[..|h| - 1], names);
      assert (init + [h[|h| - 1]])[..|init|] == init;
    }
  }

  lemma {:induction false} KeepOnlyNames(h: seq<Grant>, names: set<string>)
    ensures forall g :: g in KeepOnly(h, names) ==> g in h && g.name in names
  {
    if h != [] {
      KeepOnlyNames(h[..|h| - 1], names);
    }
  }

  lemma {:induction false} AbsentSum(h: seq<Grant>, name: string, r: string)
    requires forall g :: g in h ==> g.name != name
    ensures SumGranted(h, name, r) == 0
  {
    if h != [] {
      AbsentSum(h[..|h| - 1], name, r);
    }
  }

  lemma AppendSum(h: seq<Grant>, g: Grant, name: string, r: string)
    ensures SumGranted(h + [g], name, r) == SumGranted(h, name, r) + if g.name == name then Get(g.demand, r) else 0
  {
    assert (h + [g])[..|h|] == h;
  }

  lemma FindEntryAfterReserve(s: State, n: string, demand: Amounts, name: string, r: string)
    requires HasEntry(s, n) && HasEntry(s, name)
    ensures HasEntry(Reserved(Unbounded, s, n, demand), name)
    ensures var e, e' := FindEntry(s, name), FindEntry(Reserved(Unbounded, s, n, demand), name);
      && e' == e.(reserved := e'.reserved)
      && Get(e'.reserved, r) == Get(e.reserved, r) + if n == name then Get(demand, r) else 0
  {
  }

  lemma GrantAccounted(s: State, h: seq<Grant>, n: string, demand: Amounts)
    requires Accounted(s, h) && CanReserve(Unbounded, s, n, demand)
    ensures Accounted(Reserved(Unbounded, s, n, demand), h + [Grant(n, demand)])
  {
    var s' := Reserved(Unbounded, s, n, demand);
    ReservedFrame(Unbounded, s, n, demand);
    FrameWellKeyed(s, s');
    forall name, r | HasEntry(s', name) ensures AccountedAt(s', h + [Grant(n, demand)], name, r) {
      assert HasEntry(s, name);
      assert AccountedAt(s, h, name, r);
      FindEntryAfterReserve(s, n, demand, name, r);
      AppendSum(h, Grant(n, demand), name, r);
    }
    forall g | g in h + [Grant(n, demand)] ensures HasEntry(s', g.name) {
      assert HasEntry(s, g.name);
    }
  }

  /** A sync keeps reservations and grants in step. */
  lemma SyncAccounted(s: State, h: seq<Grant>, req: Request)
    requires Accounted(s, h) && NamesValid(req.cluster)
    ensures Accounted(LedgerSeen(Unbounded, s, req), HistorySeen(h, s, req))
  {
    var t := LedgerSeen(Unbounded, s, req);
    var names := Carried(Unbounded, s, req);
    KeepOnlyNames(h, names);
    if Syncs(req) {
      SyncedWellKeyed(Unbounded, s, req.profile.value, req.pod.value, req.cluster);
    }
    forall name, r | HasEntry(t, name) ensures AccountedAt(t, HistorySeen(h, s, req), name, r) {
      KeepOnlySum(h, names, name, r);
      SeenReserved(s, req, name);
      if HasEntry(s, name) {
        assert AccountedAt(s, h, name, r);
      } else {
        AbsentSum(h, name, r);
      }
    }
  }

  /** Reservations of the synced ledger: carried over by name, empty otherwise. */
  lemma SeenReserved(s: State, req: Request, name: string)
    requires WellKeyed(s) && NamesValid(req.cluster)
    requires HasEntry(LedgerSeen(Unbounded, s, req), name)
    ensures FindEntry(LedgerSeen(Unbounded, s, req), name).reserved ==
            if HasEntry(s, name) && name in Carried(Unbounded, s, req) then FindEntry(s, name).reserved else map[]
  {
    if Syncs(req) {
      if Listed(req.cluster) {
        RebuiltReserved(Unbounded, s, req.profile.value, req.pod.value, req.cluster, name);
      } else if req.cluster.nodes.Some? {
        ListedAt(req.cluster.nodes.value, req.profile.value, name);
      }
    }
  }

  /** Along the grants of one reconcile: at each, usage plus everything granted fits. */
  lemma {:induction false} GrantsAccounted(s: State, h: seq<Grant>, demand: Amounts, names: seq<string>, s': State)
    requires Accounted(s, h) && Granted(Unbounded, s, demand, names, s')
    ensures Accounted(s', h + AsGrants(names, demand))
    decreases |names|
  {
    if names == [] {
      assert h + AsGrants(names, demand) == h;
    } else {
      GrantAccounted(s, h, names[0], demand);
      GrantsAccounted(Reserved(Unbounded, s, names[0], demand), h + [Grant(names[0], demand)], demand, names[1..], s');
      assert h + AsGrants(names, demand) == h + [Grant(names[0], demand)] + AsGrants(names[1..], demand);
    }
  }

  lemma OneGrantFits(s: State, h: seq<Grant>, n: string, demand: Amounts, r: string)
    requires Accounted(s, h) && CanReserve(Unbounded, s, n, demand) && r in demand
    ensures Get(FindEntry(s, n).used, r) + SumGranted(h + [Grant(n, demand)], n, r) <= Get(FindEntry(s, n).allocatable, r)
  {
    assert AccountedAt(s, h, n, r);
    assert Available(Unbounded, FindEntry(s, n), r) >= demand[r];
    AppendSum(h, Grant(n, demand), n, r);
  }

  lemma AsGrantsFirst(h: seq<Grant>, names: seq<string>, demand: Amounts, j: nat)
    requires 0 < j <= |names|
    ensures h + AsGrants(names[..j], demand) == h + [Grant(names[0], demand)] + AsGrants(names[1..][..j - 1], demand)
  {
    assert names[..j] == [names[0]] + names[1..][..j - 1];
  }

  lemma {:induction false} GrantFits(s: State, h: seq<Grant>, demand: Amounts, names: seq<string>, s': State, j: nat, r: string)
    requires Accounted(s, h) && Granted(Unbounded, s, demand, names, s')
    requires j < |names| && r in demand
    ensures HasEntry(s, names[j])
    ensures Get(FindEntry(s, names[j]).used, r) + SumGranted(h + AsGrants(names[..j + 1], demand), names[j], r)
            <= Get(FindEntry(s, names[j]).allocatable, r)
    decreases |names|
  {
    var n := names[0];
    AsGrantsFirst(h, names, demand, j + 1);
    if j == 0 {
      OneGrantFits(s, h, n, demand, r);
      assert h + [Grant(n, demand)] + AsGrants(names[1..][..0], demand) == h + [Grant(n, demand)];
    } else {
      GrantAccounted(s, h, n, demand);
      GrantFits(Reserved(Unbounded, s, n, demand), h + [Grant(n, demand)], demand, names[1..], s', j - 1, r);
      ReservedHas(s, n, demand, names[j]);
      FindEntryAfterReserve(s, n, demand, names[j], r);
    }
  }

  lemma ReservedHas(s: State, n: string, demand: Amounts, name: string)
    requires HasEntry(s, n)
    ensures HasEntry(Reserved(Unbounded, s, n, demand), name) <==> HasEntry(s, name)
  {
  }

  lemma StepGrants(s: State, req: Request, s': State, out: Outcome, grants: seq<string>)
    requires WellKeyed(s) && NamesValid(req.cluster)
    requires Reconciles(Unbounded, s, req, s', out, grants)
    ensures Granted(Unbounded, LedgerSeen(Unbounded, s, req), ReqDemand(req), grants, s')
    ensures grants != [] ==> RunsRules(req)
    ensures out.Released? && out.target != "" ==>
      && RunsRules(req)
      && out.target in LedgerSeen(Unbounded, s, req).nodes
      && out.target in grants
      && ReqDemand(req) != map[]
  {
    if RunsRules(req) {
      var pod, profile := req.pod.value, req.profile.value;
      var t := Rebuilt(Unbounded, s, profile, pod, req.cluster);
      SyncedWellKeyed(Unbounded, s, profile, pod, req.cluster);
      var d :| Decides(Unbounded, t, pod, profile, profile.rules, "", s', d, grants) && out == OutcomeOf(d);
      LoopSound(Unbounded, t, pod, profile, profile.rules, "", s', d, grants);
    }
  }

  lemma StepAccounted(s: State, h: seq<Grant>, req: Request, s': State, out: Outcome, grants: seq<string>)
    requires Accounted(s, h) && NamesValid(req.cluster)
    requires Reconciles(Unbounded, s, req, s', out, grants)
    ensures Accounted(s', HistorySeen(h, s, req) + AsGrants(grants, ReqDemand(req)))
  {
    SyncAccounted(s, h, req);
    StepGrants(s, req, s', out, grants);
    GrantsAccounted(LedgerSeen(Unbounded, s, req), HistorySeen(h, s, req), ReqDemand(req), grants, s');
  }

  /** Reservation conservation across rebuilds: after any run, what is reserved on each entry is
      exactly what was granted on it since it last entered the ledger. */
  lemma {:induction false} RunAccounted(run: Run)
    requires IsRun(Unbounded, run)
    ensures Accounted(LedgerOf(run), History(run))
  {
    match run
    case Start =>
    case Next(prev, req, out, grants, after) =>
      RunAccounted(prev);
      StepAccounted(LedgerOf(prev), History(prev), req, after, out, grants);
  }

  /** Running pods plus a promised amount are within the node's listed allocatable. */
  predicate FitsBeside(cluster: Cluster, name: string, promised: int, r: string) {
    && Listed(cluster)
    && exists n :: n in cluster.nodes.value && IsNodeWithRoom(n, cluster.pods.value, name, promised, r)
  }

  predicate IsNodeWithRoom(n: Node, pods: seq<Pod>, name: string, promised: int, r: string) {
    n.name == name && !n.deleted && BoundRequests(pods, name, r) + promised <= Get(n.allocatable, r)
  }

  /** The ledger the run's last reconcile decided on. */
  function Seen(run: Run): State
    requires run.Next?
  {
    LedgerSeen(Unbounded, LedgerOf(run.prev), run.req)
  }

  /** WHOLE-RUN SAFETY. At every grant in any run, on an existing or an in-flight entry: its usage plus
      all demand granted there since it last entered the ledger (this grant included) is at most its
      allocatable, for each granted resource. */
  lemma WholeRunSafety(run: Run, j: nat, r: string)
    requires IsRun(Unbounded, run) && run.Next? && j < |run.grants|
    requires r in ReqDemand(run.req)
    ensures HasEntry(Seen(run), run.grants[j])
    ensures var e := FindEntry(Seen(run), run.grants[j]);
      Get(e.used, r) + PromisedAt(run, j, r) <= Get(e.allocatable, r)
  {
    var s, h, req := LedgerOf(run.prev), History(run.prev), run.req;
    RunAccounted(run.prev);
    SyncAccounted(s, h, req);
    StepGrants(s, req, run.after, run.out, run.grants);
    GrantFits(LedgerSeen(Unbounded, s, req), HistorySeen(h, s, req), ReqDemand(req), run.grants, run.after, j, r);
  }

  /** In the cluster's own terms: the requests of the live pods bound to a node right now, plus all
      demand granted there since it entered the ledger, are within the allocatable the API lists. */
  lemma GrantFitsListedNode(run: Run, j: nat, r: string)
    requires IsRun(Unbounded, run) && run.Next? && j < |run.grants|
    requires run.grants[j] in Seen(run).nodes
    requires r in ReqDemand(run.req)
    ensures FitsBeside(run.req.cluster, run.grants[j], PromisedAt(run, j, r), r)
  {
    var s, req, name := LedgerOf(run.prev), run.req, run.grants[j];
    WholeRunSafety(run, j, r);
    RunAccounted(run.prev);
    StepGrants(s, req, run.after, run.out, run.grants);
    NodeView(s, req, name, r);
    var n :| n in req.cluster.nodes.value && IsListed(n, LedgerSeen(Unbounded, s, req), name, r);
    assert IsNodeWithRoom(n, req.cluster.pods.value, name, PromisedAt(run, j, r), r);
  }

  predicate InflightUnused(s: State) {
    forall k :: k in s.inflight ==> s.inflight[k].used == map[]
  }

  /** Nothing ever runs on an in-flight node. */
  lemma SyncInflightUnused(s: State, req: Request)
    requires InflightUnused(s)
    ensures InflightUnused(LedgerSeen(Unbounded, s, req))
  {
    if Syncs(req) && Listed(req.cluster) {
      var t := LedgerSeen(Unbounded, s, req);
      forall k | k in t.inflight ensures t.inflight[k].used == map[] {
        DetectedAreFresh(s, req.profile.value, req.pod.value, Detected(req.cluster.detections), k);
      }
    }
  }

  lemma {:induction false} GrantsInflightUnused(s: State, demand: Amounts, names: seq<string>, s': State)
    requires InflightUnused(s) && Granted(Unbounded, s, demand, names, s')
    ensures InflightUnused(s')
    decreases |names|
  {
    if names != [] {
      GrantsInflightUnused(Reserved(Unbounded, s, names[0], demand), demand, names[1..], s');
    }
  }

  lemma {:induction false} RunInflightUnused(run: Run)
    requires IsRun(Unbounded, run)
    ensures InflightUnused(LedgerOf(run))
  {
    match run
    case Start =>
    case Next(prev, req, out, grants, after) =>
      RunInflightUnused(prev);
      RunAccounted(prev);
      SyncInflightUnused(LedgerOf(prev), req);
      StepGrants(LedgerOf(prev), req, after, out, grants);
      GrantsInflightUnused(LedgerSeen(Unbounded, LedgerOf(prev), req), ReqDemand(req), grants, after);
  }

  /** On an in-flight entry the grants alone are within the capacity the ledger has for it. */
  lemma GrantFitsInflightNode(run: Run, j: nat, r: string)
    requires IsRun(Unbounded, run) && run.Next? && j < |run.grants|
    requires run.grants[j] in Seen(run).inflight
    requires r in ReqDemand(run.req)
    ensures PromisedAt(run, j, r) <= Get(Seen(run).inflight[run.grants[j]].allocatable, r)
  {
    WholeRunSafety(run, j, r);
    RunAccounted(run.prev);
    SyncAccounted(LedgerOf(run.prev), History(run.prev), run.req);
    RunInflightUnused(run.prev);
    SyncInflightUnused(LedgerOf(run.prev), run.req);
  }

  /** Everything granted on the j-th granted entry once that grant is made. */
  function PromisedAt(run: Run, j: nat, r: string): int
    requires run.Next? && j < |run.grants|
  {
    SumGranted(PriorHistory(run) + AsGrants(run.grants[..j + 1], ReqDemand(run.req)), run.grants[j], r)
  }

  predicate IsListed(n: Node, t: State, name: string, r: string) {
    n.name == name && !n.deleted && name in t.nodes && Get(t.nodes[name].allocatable, r) == Get(n.allocatable, r)
  }

  /** The entry the rules see for a node is the node as listed. */
  lemma NodeView(s: State, req: Request, name: string, r: string)
    requires WellKeyed(s) && NamesValid(req.cluster) && Syncs(req) && Listed(req.cluster)
    requires name in LedgerSeen(Unbounded, s, req).nodes
    ensures exists n :: n in req.cluster.nodes.value && IsListed(n, LedgerSeen(Unbounded, s, req), name, r)
    ensures Get(LedgerSeen(Unbounded, s, req).nodes[name].used, r) == BoundRequests(req.cluster.pods.value, name, r)
  {
    RebuiltUsage(s, req.profile.value, req.pod.value, req.cluster, name, r);
    ListedAt(req.cluster.nodes.value, req.profile.value, name);
    var n :| n in req.cluster.nodes.value && Eligible(n, req.profile.value) && n.name == name
             && ListedEntries(req.cluster.nodes.value, req.profile.value)[name] == EntryOf(n);
    assert IsListed(n, LedgerSeen(Unbounded, s, req), name, r);
  }

  /** The demand of every pod pinned to a node since it last entered the ledger. */
  function Pins(run: Run): seq<Grant> {
    match run
    case Start => []
    case Next(prev, req, out, _, _) => HistorySeen(Pins(prev), LedgerOf(prev), req) + NewPins(req, out)
  }

  function NewPins(req: Request, out: Outcome): seq<Grant> {
    if out.Released? && out.target != "" then [Grant(out.target, ReqDemand(req))] else []
  }

  predicate DemandsNonNegative(run: Run) {
    run.Next? ==> NonNegative(ReqDemand(run.req)) && DemandsNonNegative(run.prev)
  }

  predicate NonNegative(m: Amounts) {
    forall r :: r in m ==> m[r] >= 0
  }

  /** One more granted name adds its demand to that name's sum. */
  lemma LastGrantSum(h: seq<Grant>, init: seq<string>, last: string, demand: Amounts, name: string, r: string)
    ensures SumGranted(h + AsGrants(init + [last], demand), name, r) ==
            SumGranted(h + AsGrants(init, demand), name, r) + if last == name then Get(demand, r) else 0
  {
    assert h + AsGrants(init + [last], demand) == h + AsGrants(init, demand) + [Grant(last, demand)];
    AppendSum(h + AsGrants(init, demand), Grant(last, demand), name, r);
  }

  /** Grants of a non-negative demand never lower a sum. */
  lemma {:induction false} GrantsGrow(h: seq<Grant>, names: seq<string>, demand: Amounts, name: string, r: string)
    requires NonNegative(demand)
    ensures SumGranted(h, name, r) <= SumGranted(h + AsGrants(names, demand), name, r)
    decreases |names|
  {
    if names == [] {
      assert h + AsGrants(names, demand) == h;
    } else {
      var init, last := names[..|names| - 1], names[|names| - 1];
      assert names == init + [last];
      GrantsGrow(h, init, demand, name, r);
      LastGrantSum(h, init, last, demand, name, r);
    }
  }

  /** A granted name receives at least one demand. */
  lemma {:induction false} NamedGrantAdds(h: seq<Grant>, names: seq<string>, demand: Amounts, name: string, r: string)
    requires NonNegative(demand) && name in names
    ensures SumGranted(h, name, r) + Get(demand, r) <= SumGranted(h + AsGrants(names, demand), name, r)
    decreases |names|
  {
    var init, last := names[..|names| - 1], names[|names| - 1];
    assert names == init + [last];
    LastGrantSum(h, init, last, demand, name, r);
    if last == name {
      GrantsGrow(h, init, demand, name, r);
    } else {
      NamedGrantAdds(h, init, demand, name, r);
    }
  }

  lemma StepPinsBelow(s: State, req: Request, s': State, out: Outcome, grants: seq<string>,
                      h: seq<Grant>, p: seq<Grant>, name: string, r: string)
    requires WellKeyed(s) && NamesValid(req.cluster) && NonNegative(ReqDemand(req))
    requires Reconciles(Unbounded, s, req, s', out, grants)
    requires SumGranted(p, name, r) <= SumGranted(h, name, r)
    ensures SumGranted(HistorySeen(p, s, req) + NewPins(req, out), name, r)
         <= SumGranted(HistorySeen(h, s, req) + AsGrants(grants, ReqDemand(req)), name, r)
  {
    StepGrants(s, req, s', out, grants);
    PinsAmongGrants(s, req, out, grants, h, p, name, r);
  }

  lemma PinsAmongGrants(s: State, req: Request, out: Outcome, grants: seq<string>,
                        h: seq<Grant>, p: seq<Grant>, name: string, r: string)
    requires NonNegative(ReqDemand(req))
    requires out.Released? && out.target != "" ==> out.target in grants
    requires SumGranted(p, name, r) <= SumGranted(h, name, r)
    ensures SumGranted(HistorySeen(p, s, req) + NewPins(req, out), name, r)
         <= SumGranted(HistorySeen(h, s, req) + AsGrants(grants, ReqDemand(req)), name, r)
  {
    var names := Carried(Unbounded, s, req);
    KeepOnlySum(p, names, name, r);
    KeepOnlySum(h, names, name, r);
    var p', h' := HistorySeen(p, s, req), HistorySeen(h, s, req);
    GrantsGrow(h', grants, ReqDemand(req), name, r);
    if NewPins(req, out) == [] {
      assert p' + NewPins(req, out) == p';
    } else {
      AppendSum(p', NewPins(req, out)[0], name, r);
      if out.target == name {
        NamedGrantAdds(h', grants, ReqDemand(req), name, r);
      }
    }
  }

  lemma {:induction false} PinsBelowGrants(run: Run, name: string, r: string)
    requires IsRun(Unbounded, run) && DemandsNonNegative(run)
    ensures SumGranted(Pins(run), name, r) <= SumGranted(History(run), name, r)
  {
    match run
    case Start =>
    case Next(prev, req, out, grants, after) =>
      PinsBelowGrants(prev, name, r);
      RunAccounted(prev);
      StepPinsBelow(LedgerOf(prev), req, after, out, grants, History(prev), Pins(prev), name, r);
  }

  lemma LessFitsBeside(cluster: Cluster, name: string, promised: int, less: int, r: string)
    requires FitsBeside(cluster, name, promised, r) && less <= promised
    ensures FitsBeside(cluster, name, less, r)
  {
    var n :| n in cluster.nodes.value && IsNodeWithRoom(n, cluster.pods.value, name, promised, r);
    assert IsNodeWithRoom(n, cluster.pods.value, name, less, r);
  }

  lemma PinsBelowPromised(run: Run, j: nat, r: string)
    requires IsRun(Unbounded, run) && run.Next? && DemandsNonNegative(run)
    requires run.out.Released? && run.out.target != ""
    requires j < |run.grants| && run.grants[j] == run.out.target
    ensures SumGranted(Pins(run), run.out.target, r) <= PromisedAt(run, j, r)
  {
    PinsBelowGrants(run.prev, run.out.target, r);
    assert run.grants[..j + 1][j] == run.out.target;
    PinsAmongGrants(LedgerOf(run.prev), run.req, run.out, run.grants[..j + 1],
                    History(run.prev), Pins(run.prev), run.out.target, r);
  }

  /** A pin is one of the reconcile's grants, on a node of the ledger it saw. */
  lemma PinIsGranted(run: Run) returns (j: nat)
    requires IsRun(Unbounded, run) && run.Next?
    requires run.out.Released? && run.out.target != ""
    ensures j < |run.grants| && run.grants[j] == run.out.target
    ensures run.out.target in Seen(run).nodes
  {
    RunAccounted(run.prev);
    StepGrants(LedgerOf(run.prev), run.req, run.after, run.out, run.grants);
    j :| 0 <= j < |run.grants| && run.grants[j] == run.out.target;
  }

  /** Whenever a pod is pinned, it and all pods pinned to that node since it last entered the ledger
      fit beside what is running there, for each resource the pod demands. */
  lemma PinnedPodsFit(run: Run, r: string)
    requires IsRun(Unbounded, run) && run.Next? && DemandsNonNegative(run)
    requires run.out.Released? && run.out.target != ""
    requires r in ReqDemand(run.req)
    ensures FitsBeside(run.req.cluster, run.out.target, SumGranted(Pins(run), run.out.target, r), r)
  {
    var j := PinIsGranted(run);
    GrantFitsListedNode(run, j, r);
    PinsBelowPromised(run, j, r);
    LessFitsBeside(run.req.cluster, run.out.target, PromisedAt(run, j, r), SumGranted(Pins(run), run.out.target, r), r);
  }
}
