/** What is reserved for a pod, against what it later adds to its node's usage; and the
    reservation account under explicit releases. */
module Accounting {
  import opened Quantities
  import opened Objects
  import opened Ledger
  import opened Demand
  import opened Sync
  import opened Rebuild
  import opened Safety

  /** WHAT IS RESERVED IS WHAT WILL BE USED. Demand by requests is the sum over containers times the
      number of times a resource is tracked, so it equals what the bound pod adds to its node's
      usage exactly when the resource is tracked once or sums to nothing. */
  lemma ReservedIsUsed(pod: Pod, source: DemandSource, pods: seq<Pod>, node: string, r: string)
    requires source.kind == "ResourceRequest"
    requires r in DemandOf(Unbounded, pod, source)
    requires node != "" && pod.phase !in ["Succeeded", "Failed"]
    ensures var demand := DemandOf(Unbounded, pod, source)[r];
      var added := BoundRequests(pods + [pod.(nodeName := node)], node, r) - BoundRequests(pods, node, r);
      var times := Occurrences(TrackedResources(source), r);
      && demand == times * added
      && (demand == added <==> times == 1 || added == 0)
  {
    var all := pods + [pod.(nodeName := node)];
    assert all[..|all| - 1] == pods;
    var times, sum := Occurrences(TrackedResources(source), r), RequestSum(pod.containers, r);
    TimesEquals(times, sum);
  }

  lemma TimesEquals(times: int, sum: int)
    ensures times * sum == sum <==> times == 1 || sum == 0
  {
    if times * sum == sum && sum != 0 {
      assert (times - 1) * sum == 0;
    }
  }

  lemma {:induction false} DistinctOccursOnce(names: seq<string>, r: string)
    requires forall i, j :: 0 <= i < j < |names| ==> names[i] != names[j]
    requires r in names
    ensures Occurrences(names, r) == 1
  {
    var init, last := names[..|names| - 1], names[|names| - 1];
    assert names == init + [last];
    OccursIff(init, r);
    if r in init {
      DistinctOccursOnce(init, r);
    }
  }

  /** Listing cpu among the additional resources counts it twice. */
  lemma TrackedTwiceCountsTwice(pod: Pod, source: DemandSource)
    requires source.kind == "ResourceRequest" && source.resources == [] && source.additionalResources == ["cpu"]
    requires pod.containers == [map["cpu" := 1000]]
    ensures DemandOf(Unbounded, pod, source) == map["cpu" := 2000]
  {
    var names := TrackedResources(source);
    assert names == ["cpu", "memory", "cpu"];
    assert names[..2] == ["cpu", "memory"] && names[..2][..1] == ["cpu"] && names[..1][..0] == [];
    assert Occurrences(names[..1], "cpu") == 1;
    assert Occurrences(names[..2], "cpu") == 1;
    assert Occurrences(names, "cpu") == 2;
    assert pod.containers[..0] == [];
    assert RequestSum(pod.containers, "cpu") == 1000;
    assert Requested(pod.containers, "cpu") by { assert "cpu" in pod.containers[0]; }
    assert "memory" !in pod.containers[0];
  }

  /** Reserve calls, successful or not, and releases of outstanding grants, in any order. */
  datatype Ops = Fresh(s: State) | Take(prev: Ops, name: string, demand: Amounts) | GiveBack(prev: Ops, i: nat)

  function Outstanding(ops: Ops): seq<Grant> {
    match ops
    case Fresh(_) => []
    case Take(prev, name, demand) =>
      if CanReserve(Unbounded, LedgerAfter(prev), name, demand) then Outstanding(prev) + [Grant(name, demand)]
      else Outstanding(prev)
    case GiveBack(prev, i) =>
      var h := Outstanding(prev);
      if i < |h| then h[..i] + h[i + 1..] else h
  }

  function LedgerAfter(ops: Ops): State {
    match ops
    case Fresh(s) => s
    case Take(prev, name, demand) =>
      var s := LedgerAfter(prev);
      if CanReserve(Unbounded, s, name, demand) then Reserved(Unbounded, s, name, demand) else s
    case GiveBack(prev, i) =>
      var h := Outstanding(prev);
      if i < |h| then Freed(Unbounded, LedgerAfter(prev), h[i].name, h[i].demand) else LedgerAfter(prev)
  }

  /** Nothing reserved at first, demands never negative. */
  ghost predicate ValidOps(ops: Ops) {
    match ops
    case Fresh(s) => WellKeyed(s) && forall n :: HasEntry(s, n) ==> FindEntry(s, n).reserved == map[]
    case Take(prev, _, demand) => ValidOps(prev) && NonNegative(demand)
    case GiveBack(prev, _) => ValidOps(prev)
  }

  lemma {:induction false} SumWithout(h: seq<Grant>, i: nat, name: string, r: string)
    requires i < |h|
    ensures SumGranted(h[..i] + h[i + 1..], name, r) == SumGranted(h, name, r) - if h[i].name == name then Get(h[i].demand, r) else 0
    decreases |h|
  {
    var init, last := h[..|h| - 1], h[|h| - 1];
    if i == |h| - 1 {
      assert h[..i] + h[i + 1..] == init;
    } else {
      SumWithout(init, i, name, r);
      assert h[..i] + h[i + 1..] == init[..i] + init[i + 1..] + [last];
      AppendSum(init[..i] + init[i + 1..], last, name, r);
    }
  }

  lemma {:induction false} SumNonNegative(h: seq<Grant>, name: string, r: string)
    requires forall g :: g in h ==> NonNegative(g.demand)
    ensures SumGranted(h, name, r) >= 0
  {
    if h != [] {
      SumNonNegative(h[..|h| - 1], name, r);
      assert NonNegative(h[|h| - 1].demand);
    }
  }

  lemma {:induction false} OutstandingNonNegative(ops: Ops)
    requires ValidOps(ops)
    ensures forall g :: g in Outstanding(ops) ==> NonNegative(g.demand)
  {
    if !ops.Fresh? {
      OutstandingNonNegative(ops.prev);
    }
  }

  lemma FreedAt(s: State, n: string, demand: Amounts, name: string, r: string)
    requires HasEntry(s, n) && HasEntry(s, name)
    ensures HasEntry(Freed(Unbounded, s, n, demand), name)
    ensures var e, e' := FindEntry(s, name), FindEntry(Freed(Unbounded, s, n, demand), name);
      Get(e'.reserved, r) ==
        if n == name && r in demand then
          if Get(e.reserved, r) - demand[r] < 0 then 0 else Get(e.reserved, r) - demand[r]
        else Get(e.reserved, r)
  {
  }

  /** The clamp at zero never fires on the release of an outstanding grant. */
  lemma ClampNeverFires(s: State, h: seq<Grant>, i: nat, r: string)
    requires Accounted(s, h) && i < |h|
    requires forall g :: g in h ==> NonNegative(g.demand)
    ensures HasEntry(s, h[i].name)
    ensures Get(FindEntry(s, h[i].name).reserved, r) - Get(h[i].demand, r) >= 0
  {
    var name := h[i].name;
    assert h[i] in h;
    assert AccountedAt(s, h, name, r);
    SumWithout(h, i, name, r);
    SumNonNegative(h[..i] + h[i + 1..], name, r);
  }

  lemma GiveBackAccounted(s: State, h: seq<Grant>, i: nat)
    requires Accounted(s, h) && i < |h|
    requires forall g :: g in h ==> NonNegative(g.demand)
    ensures Accounted(Freed(Unbounded, s, h[i].name, h[i].demand), h[..i] + h[i + 1..])
  {
    var g, h' := h[i], h[..i] + h[i + 1..];
    assert g in h;
    var s' := Freed(Unbounded, s, g.name, g.demand);
    forall name, r | HasEntry(s', name) ensures AccountedAt(s', h', name, r) {
      assert HasEntry(s, name);
      assert AccountedAt(s, h, name, r);
      ClampNeverFires(s, h, i, r);
      FreedAt(s, g.name, g.demand, name, r);
      SumWithout(h, i, name, r);
    }
    forall x | x in h' ensures HasEntry(s', x.name) {
      assert x in h;
      FreedAt(s, g.name, g.demand, x.name, "");
    }
  }

  /** RESERVATION CONSERVATION. For any interleaving of Reserve calls and releases of outstanding
      grants in any order, what is reserved is the exact sum of the outstanding grants. */
  lemma {:induction false} OpsAccounted(ops: Ops)
    requires ValidOps(ops)
    ensures Accounted(LedgerAfter(ops), Outstanding(ops))
  {
    match ops
    case Fresh(s) =>
      forall name, r | HasEntry(s, name) ensures AccountedAt(s, [], name, r) {
        assert FindEntry(s, name).reserved == map[];
      }
    case Take(prev, name, demand) =>
      OpsAccounted(prev);
      if CanReserve(Unbounded, LedgerAfter(prev), name, demand) {
        GrantAccounted(LedgerAfter(prev), Outstanding(prev), name, demand);
      }
    case GiveBack(prev, i) =>
      OpsAccounted(prev);
      OutstandingNonNegative(prev);
      if i < |Outstanding(prev)| {
        GiveBackAccounted(LedgerAfter(prev), Outstanding(prev), i);
      }
  }

  /** Releasing what was just reserved brings every available amount back. */
  lemma ReserveReleaseRoundTrip(s: State, name: string, demand: Amounts, n: string, r: string)
    requires CanReserve(Unbounded, s, name, demand) && NonNegative(demand)
    requires forall k :: HasEntry(s, k) ==> NonNegative(FindEntry(s, k).reserved)
    requires HasEntry(s, n)
    ensures var s' := Freed(Unbounded, Reserved(Unbounded, s, name, demand), name, demand);
      HasEntry(s', n) && Available(Unbounded, FindEntry(s', n), r) == Available(Unbounded, FindEntry(s, n), r)
  {
    var s1 := Reserved(Unbounded, s, name, demand);
    FindEntryAfterReserve(s, name, demand, n, r);
    FindEntryAfterReserve(s, name, demand, name, r);
    FreedAt(s1, name, demand, n, r);
    assert NonNegative(FindEntry(s, name).reserved);
    var s2 := Freed(Unbounded, s1, name, demand);
    assert FindEntry(s2, n) == FindEntry(s1, n).(reserved := FindEntry(s2, n).reserved);
  }
}
