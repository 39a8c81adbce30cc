/** What the promises add up to on a node, as opposed to on a ledger entry: pins are forgotten when a
    sync drops the node, and a node can have several entries at once. */
module DoubleBooking {
  import opened Quantities
  import opened Ledger
  import opened Sync
  import opened Reconcile
  import opened Rebuild
  import opened RuleLoop
  import opened Safety
  import opened Isolation

  /** Every pin of the run, whether or not the ledger still knows of it. */
  function AllPins(run: Run): seq<Grant> {
    match run
    case Start => []
    case Next(prev, req, out, _, _) => AllPins(prev) + NewPins(req, out)
  }

  /** A reconcile that does not make the ledger forget a node: both lists succeed, and the node is
      listed, not being deleted, with the resources the profile demands. */
  predicate KeepsNode(req: Request, name: string) {
    Syncs(req) ==>
      && Listed(req.cluster)
      && exists n :: n in req.cluster.nodes.value && n.name == name && Usable(n, req.profile.value)
  }

  /** Every reconcile since the first pin on the node has kept it. */
  predicate NeverDropped(run: Run, name: string, r: string) {
    run.Next? ==>
      && NeverDropped(run.prev, name, r)
      && (SumGranted(AllPins(run.prev), name, r) > 0 ==> KeepsNode(run.req, name))
  }

  lemma AddPins(h: seq<Grant>, req: Request, out: Outcome, name: string, r: string)
    requires NonNegative(ReqDemand(req))
    ensures SumGranted(h + NewPins(req, out), name, r) == SumGranted(h, name, r) + SumGranted(NewPins(req, out), name, r)
    ensures SumGranted(NewPins(req, out), name, r) >= 0
  {
    if NewPins(req, out) == [] {
      assert h + NewPins(req, out) == h;
    } else {
      var g := NewPins(req, out)[0];
      assert NewPins(req, out) == [g];
      AppendSum(h, g, name, r);
      AppendSum([], g, name, r);
      assert [] + [g] == [g];
    }
  }

  lemma GrantedIsInLedger(run: Run, name: string, r: string)
    requires IsRun(Unbounded, run) && SumGranted(History(run), name, r) != 0
    ensures HasEntry(LedgerOf(run), name)
  {
    RunAccounted(run);
    if forall g :: g in History(run) ==> g.name != name {
      AbsentSum(History(run), name, r);
    }
  }

  /** For a node in the ledger, being carried over a sync is being kept. */
  lemma CarriedIffKept(s: State, req: Request, name: string)
    requires WellKeyed(s) && NamesValid(req.cluster) && '/' !in name && HasEntry(s, name)
    ensures name in Carried(Unbounded, s, req) <==> KeepsNode(req, name)
  {
    if Syncs(req) {
      SyncedWellKeyed(Unbounded, s, req.profile.value, req.pod.value, req.cluster);
      if Listed(req.cluster) {
        ListedAt(req.cluster.nodes.value, req.profile.value, name);
        UsableIff(req.profile.value);
      }
    }
  }

  /** What one reconcile does to the two sums. */
  lemma PinsStep(run: Run, name: string, r: string)
    requires run.Next? && IsRun(Unbounded, run) && DemandsNonNegative(run) && '/' !in name
    ensures var added := SumGranted(NewPins(run.req, run.out), name, r);
      && added >= 0
      && SumGranted(AllPins(run), name, r) == SumGranted(AllPins(run.prev), name, r) + added
      && SumGranted(Pins(run), name, r) ==
         added + if KeepsNode(run.req, name) then SumGranted(Pins(run.prev), name, r) else 0
  {
    var prev, req, out := run.prev, run.req, run.out;
    AddPins(AllPins(prev), req, out, name, r);
    AddPins(HistorySeen(Pins(prev), LedgerOf(prev), req), req, out, name, r);
    KeepOnlySum(Pins(prev), Carried(Unbounded, LedgerOf(prev), req), name, r);
    PinsNonNegative(prev, name, r);
    if SumGranted(Pins(prev), name, r) != 0 {
      PinsBelowGrants(prev, name, r);
      GrantedIsInLedger(prev, name, r);
      RunAccounted(prev);
      CarriedIffKept(LedgerOf(prev), req, name);
    }
  }

  lemma {:induction false} PinsNonNegative(run: Run, name: string, r: string)
    requires DemandsNonNegative(run)
    ensures 0 <= SumGranted(Pins(run), name, r)
  {
    match run
    case Start =>
    case Next(prev, req, out, _, _) =>
      PinsNonNegative(prev, name, r);
      AddPins(HistorySeen(Pins(prev), LedgerOf(prev), req), req, out, name, r);
      KeepOnlySum(Pins(prev), Carried(Unbounded, LedgerOf(prev), req), name, r);
  }

  /** THE LEDGER REMEMBERS EVERY PIN if and only if no reconcile since the first one dropped the node;
      otherwise what it remembers is strictly less. */
  lemma {:induction false} PinsRememberedIff(run: Run, name: string, r: string)
    requires IsRun(Unbounded, run) && DemandsNonNegative(run) && '/' !in name
    ensures SumGranted(Pins(run), name, r) <= SumGranted(AllPins(run), name, r)
    ensures SumGranted(Pins(run), name, r) == SumGranted(AllPins(run), name, r) <==> NeverDropped(run, name, r)
  {
    if run.Next? {
      PinsRememberedIff(run.prev, name, r);
      PinsStep(run, name, r);
      PinsNonNegative(run.prev, name, r);
    }
  }

  /** NO DOUBLE-BOOKING BY PINS. While the node was never dropped, a pod that is pinned and all pods ever
      pinned to that node fit beside what is running there. */
  lemma EveryPinFits(run: Run, r: string)
    requires IsRun(Unbounded, run) && run.Next? && DemandsNonNegative(run)
    requires run.out.Released? && run.out.target != "" && r in ReqDemand(run.req)
    requires NeverDropped(run, run.out.target, r)
    ensures FitsBeside(run.req.cluster, run.out.target, SumGranted(AllPins(run), run.out.target, r), r)
  {
    PinnedPodsFit(run, r);
    PinnedNameIsNode(run);
    PinsRememberedIff(run, run.out.target, r);
  }

  lemma PinnedNameIsNode(run: Run)
    requires IsRun(Unbounded, run) && run.Next? && run.out.Released? && run.out.target != ""
    ensures '/' !in run.out.target
  {
    RunAccounted(run.prev);
    SyncAccounted(LedgerOf(run.prev), History(run.prev), run.req);
    StepGrants(LedgerOf(run.prev), run.req, run.after, run.out, run.grants);
  }

  /** The entries a node has: under its own name when listed, and under every profile that was synced
      while a detector reported it. */
  predicate NamesNode(key: string, n: string) {
    key == n || ('/' in key && key == Owner(key) + "/" + n)
  }

  /** What was free on an entry, by the ledger's view, when it was last granted some of a resource. */
  function LastRoom(run: Run, key: string, r: string): int {
    match run
    case Start => 0
    case Next(prev, req, _, grants, _) =>
      if key in grants && r in ReqDemand(req) && HasEntry(Seen(run), key)
      then var e := FindEntry(Seen(run), key); Get(e.allocatable, r) - Get(e.used, r)
      else LastRoom(prev, key, r)
  }

  function AtLeastZero(x: int): nat {
    if x < 0 then 0 else x
  }

  /** After the grants of a reconcile: an entry granted on has nothing negative left of what was
      demanded; any other is as it was. */
  lemma {:induction false} AfterGrants(s: State, demand: Amounts, names: seq<string>, s': State, key: string, r: string)
    requires Granted(Unbounded, s, demand, names, s') && HasEntry(s, key)
    ensures HasEntry(s', key)
    ensures FindEntry(s', key) == FindEntry(s, key).(reserved := FindEntry(s', key).reserved)
    ensures key in names && r in demand ==> Available(Unbounded, FindEntry(s', key), r) >= 0
    ensures !(key in names && r in demand) ==> Get(FindEntry(s', key).reserved, r) == Get(FindEntry(s, key).reserved, r)
    decreases |names|
  {
    if names != [] {
      var s1 := Reserved(Unbounded, s, names[0], demand);
      FindEntryAfterReserve(s, names[0], demand, key, r);
      AfterGrants(s1, demand, names[1..], s', key, r);
      if names[0] == key && r in demand {
        assert Available(Unbounded, FindEntry(s, key), r) >= demand[r];
      }
    }
  }

  /** No entry ever holds more than was free on it when it was last granted. */
  lemma {:induction false} ReservedWithinLastRoom(run: Run, key: string, r: string)
    requires IsRun(Unbounded, run) && HasEntry(LedgerOf(run), key)
    ensures Get(FindEntry(LedgerOf(run), key).reserved, r) <= AtLeastZero(LastRoom(run, key, r))
  {
    if run.Next? {
      var s, req, t := LedgerOf(run.prev), run.req, Seen(run);
      RunAccounted(run.prev);
      StepGrants(s, req, run.after, run.out, run.grants);
      GrantsKeepNames(t, ReqDemand(req), run.grants, run.after, key);
      AfterGrants(t, ReqDemand(req), run.grants, run.after, key, r);
      SeenReserved(s, req, key);
      if HasEntry(s, key) {
        ReservedWithinLastRoom(run.prev, key, r);
      }
    }
  }

  lemma {:induction false} GrantsKeepNames(s: State, demand: Amounts, names: seq<string>, s': State, key: string)
    requires Granted(Unbounded, s, demand, names, s')
    ensures HasEntry(s', key) <==> HasEntry(s, key)
    decreases |names|
  {
    if names != [] {
      ReservedHas(s, names[0], demand, key);
      GrantsKeepNames(Reserved(Unbounded, s, names[0], demand), demand, names[1..], s', key);
    }
  }

  /** What is reserved for a node, entry by entry, and what was free on those entries. */
  function ReservedFor(s: State, n: string, r: string): Amounts {
    map k | k in EntryNames(s) && NamesNode(k, n) :: Get(FindEntry(s, k).reserved, r)
  }

  function RoomFor(run: Run, n: string, r: string): Amounts {
    map k | k in EntryNames(LedgerOf(run)) && NamesNode(k, n) :: AtLeastZero(LastRoom(run, k, r))
  }

  /** ALL ENTRIES OF A NODE TOGETHER. Over any run, what is reserved for a node is within the sum, over its
      entries, of what was free on each when last granted. */
  lemma NodeWithinItsRooms(run: Run, n: string, r: string)
    requires IsRun(Unbounded, run)
    ensures MapSum(ReservedFor(LedgerOf(run), n, r)) <= MapSum(RoomFor(run, n, r))
  {
    var taken, room := ReservedFor(LedgerOf(run), n, r), RoomFor(run, n, r);
    forall k | k in taken ensures taken[k] <= room[k] {
      ReservedWithinLastRoom(run, k, r);
    }
    MapSumMonotone(taken, room);
  }

  /** So a node with a single entry is not double-booked. */
  lemma SoleEntryNotDoubleBooked(run: Run, n: string, key: string, r: string)
    requires IsRun(Unbounded, run) && HasEntry(LedgerOf(run), key) && NamesNode(key, n)
    requires forall k :: HasEntry(LedgerOf(run), k) && NamesNode(k, n) ==> k == key
    ensures MapSum(ReservedFor(LedgerOf(run), n, r)) <= AtLeastZero(LastRoom(run, key, r))
  {
    ReservedWithinLastRoom(run, key, r);
    SoleEntrySum(LedgerOf(run), n, key, r);
  }

  lemma SoleEntrySum(s: State, n: string, key: string, r: string)
    requires HasEntry(s, key) && NamesNode(key, n)
    requires forall k :: HasEntry(s, k) && NamesNode(k, n) ==> k == key
    ensures MapSum(ReservedFor(s, n, r)) == Get(FindEntry(s, key).reserved, r)
  {
    var taken, qty := ReservedFor(s, n, r), Get(FindEntry(s, key).reserved, r);
    assert forall k :: k in taken <==> k == key;
    assert taken == map[][key := qty];
    MapSumInsert(map[], key, qty);
  }

  /** What the ledger has left of a node, in the cluster's terms: a pod pinned there counts once as granted and,
      from when it is bound, once more among the bound requests. */
  lemma AvailableCountsBoth(run: Run, name: string, r: string)
    requires IsRun(Unbounded, run) && run.Next? && Syncs(run.req) && Listed(run.req.cluster) && name in Seen(run).nodes
    ensures exists n ::
      && n in run.req.cluster.nodes.value && IsListed(n, Seen(run), name, r)
      && Available(Unbounded, Seen(run).nodes[name], r) ==
         Get(n.allocatable, r) - BoundRequests(run.req.cluster.pods.value, name, r) - SumGranted(PriorHistory(run), name, r)
  {
    var s := LedgerOf(run.prev);
    RunAccounted(run.prev);
    SyncAccounted(s, History(run.prev), run.req);
    NodeView(s, run.req, name, r);
    assert AccountedAt(Seen(run), PriorHistory(run), name, r);
    var n :| n in run.req.cluster.nodes.value && IsListed(n, Seen(run), name, r);
  }

  /** The cluster could take the demand on the node as listed. */
  predicate ClusterCouldTake(e: Entry, demand: Amounts) {
    forall r :: r in demand ==> Get(e.used, r) + demand[r] <= Get(e.allocatable, r)
  }

  /** Exactly when a node stops fitting a pod the cluster could take: when, for some demanded resource,
      the grants made since it entered the ledger exceed what the pod would leave free. */
  lemma RefusedThoughFreeIff(run: Run, name: string, demand: Amounts)
    requires IsRun(Unbounded, run) && run.Next? && name in Seen(run).nodes
    ensures var e := Seen(run).nodes[name];
      ClusterCouldTake(e, demand) && !Fits(Unbounded, e, demand) <==>
      && ClusterCouldTake(e, demand)
      && exists r :: r in demand && Get(e.allocatable, r) - Get(e.used, r) - demand[r] < SumGranted(PriorHistory(run), name, r)
  {
    var e := Seen(run).nodes[name];
    RunAccounted(run.prev);
    SyncAccounted(LedgerOf(run.prev), History(run.prev), run.req);
    forall r ensures Get(e.reserved, r) == SumGranted(PriorHistory(run), name, r) {
      assert AccountedAt(Seen(run), PriorHistory(run), name, r);
    }
  }
}
