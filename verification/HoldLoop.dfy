/** The hold loop: pods waiting for an in-flight node are reconciled again and again, and
    reserve again each time. */
module HoldLoop {
  import opened Quantities
  import opened Objects
  import opened Ledger
  import opened Rules
  import opened Sync
  import opened Reconcile
  import opened Rebuild
  import opened RuleLoop

  /** How many more times an amount can be taken from what is available. */
  function SlotCount(avail: int, qty: int): nat
    requires qty > 0
    decreases if avail < 0 then 0 else avail
  {
    if avail < qty then 0 else SlotCount(avail - qty, qty) + 1
  }

  /** SlotCount is floor(avail / qty). */
  lemma {:induction false} SlotCountIsFloor(avail: int, qty: int)
    requires qty > 0 && avail >= 0
    ensures SlotCount(avail, qty) * qty <= avail < SlotCount(avail, qty) * qty + qty
    decreases avail
  {
    if avail >= qty {
      SlotCountIsFloor(avail - qty, qty);
      assert (SlotCount(avail - qty, qty) + 1) * qty == SlotCount(avail - qty, qty) * qty + qty;
    }
  }

  function SlotMap(s: State, r: string, qty: int): Amounts
    requires qty > 0
  {
    map k | k in s.inflight :: SlotCount(Available(Unbounded, s.inflight[k], r), qty)
  }

  /** The measure: slots left over all in-flight entries. */
  ghost function Slots(s: State, r: string, qty: int): int
    requires qty > 0
  {
    MapSum(SlotMap(s, r, qty))
  }

  lemma InflightGrantAt(s: State, name: string, demand: Amounts, r: string, k: string)
    requires WellKeyed(s) && name in s.inflight && k in s.inflight
    requires r in demand
    ensures k in Reserved(Unbounded, s, name, demand).inflight
    ensures Available(Unbounded, Reserved(Unbounded, s, name, demand).inflight[k], r) ==
            Available(Unbounded, s.inflight[k], r) - if k == name then demand[r] else 0
  {
    assert name !in s.nodes;
  }

  lemma InflightGrantSlotAt(s: State, name: string, demand: Amounts, r: string, k: string)
    requires WellKeyed(s) && name in s.inflight && k in s.inflight
    requires CanReserve(Unbounded, s, name, demand)
    requires r in demand && demand[r] > 0
    ensures var s' := Reserved(Unbounded, s, name, demand);
      && k in s'.inflight
      && SlotCount(Available(Unbounded, s'.inflight[k], r), demand[r]) ==
         SlotCount(Available(Unbounded, s.inflight[k], r), demand[r]) - if k == name then 1 else 0
  {
    assert name !in s.nodes;
    InflightGrantAt(s, name, demand, r, k);
  }

  /** A grant on an in-flight entry takes exactly one slot. */
  lemma InflightGrantTakesSlot(s: State, name: string, demand: Amounts, r: string)
    requires WellKeyed(s) && name in s.inflight
    requires CanReserve(Unbounded, s, name, demand)
    requires r in demand && demand[r] > 0
    ensures Slots(Reserved(Unbounded, s, name, demand), r, demand[r]) == Slots(s, r, demand[r]) - 1
  {
    var s' := Reserved(Unbounded, s, name, demand);
    forall k | k in s.inflight
      ensures k in s'.inflight
      ensures SlotCount(Available(Unbounded, s'.inflight[k], r), demand[r]) ==
              SlotCount(Available(Unbounded, s.inflight[k], r), demand[r]) - if k == name then 1 else 0
    {
      InflightGrantSlotAt(s, name, demand, r, k);
    }
    DropOne(SlotMap(s, r, demand[r]), SlotMap(s', r, demand[r]), name);
  }

  lemma DropOne(m: Amounts, m': Amounts, name: string)
    requires name in m && forall k :: k in m <==> k in m'
    requires forall k :: k in m ==> m'[k] == m[k] - if k == name then 1 else 0
    ensures MapSum(m') == MapSum(m) - 1
  {
    assert m' == m[name := m[name] - 1];
    MapSumUpdate(m, name, m[name] - 1);
  }

  /** A reconcile held by WaitForNodeReady takes exactly one slot, whatever the rule list. */
  lemma {:induction false} HoldTakesSlot(s: State, pod: Pod, profile: Profile, rules: seq<string>, target: string,
                                         s': State, grants: seq<string>, r: string)
    requires WellKeyed(s)
    requires Decides(Unbounded, s, pod, profile, rules, target, s', Hold(NODE_READY), grants)
    requires !HasInflightSignalIn(s, ProfilePrefix(profile))
    requires r in PodDemand(Unbounded, pod, profile) && PodDemand(Unbounded, pod, profile)[r] > 0
    ensures var qty := PodDemand(Unbounded, pod, profile)[r]; Slots(s', r, qty) == Slots(s, r, qty) - 1
    decreases |rules|
  {
    var d := Hold(NODE_READY);
    if !Registered(rules[0]) {
      HoldTakesSlot(s, pod, profile, rules[1..], target, s', grants, r);
    } else {
      var s1, v, rest := Unroll(Unbounded, s, pod, profile, rules, target, s', d, grants);
      EvaluatesSound(Unbounded, rules[0], s, pod, profile, s1, v);
      VerdictFrame(Unbounded, s, pod, profile, s1, v);
      if v.release {
        SignalFrame(s, s1, ProfilePrefix(profile));
        assert s1.inflight == s.inflight;
        HoldTakesSlot(s1, pod, profile, rules[1..], NextTarget(v, target), s', rest, r);
      } else {
        NodeReadyOutcomes(Unbounded, s, pod, profile, s1, v);
        InflightGrantTakesSlot(s, v.grant.value, PodDemand(Unbounded, pod, profile), r);
      }
    }
  }

  /** Pods the ledger cannot tell apart: the same pod at another time, or a replica of it. */
  predicate Alike(p: Pod, q: Pod, profile: Profile) {
    && p.nodeSelector == q.nodeSelector && p.tolerations == q.tolerations
    && PodDemand(Unbounded, p, profile) == PodDemand(Unbounded, q, profile)
  }

  lemma {:induction false} AlikeTemplate(p: Pod, q: Pod, templates: seq<Template>)
    requires p.nodeSelector == q.nodeSelector && p.tolerations == q.tolerations
    ensures FindTemplateForPod(p, templates) == FindTemplateForPod(q, templates)
  {
    if templates != [] {
      AlikeTemplate(p, q, templates[1..]);
    }
  }

  lemma {:induction false} AlikeDetected(p: Pod, q: Pod, m: map<string, Entry>, found: seq<InflightNode>, profile: Profile)
    requires p.nodeSelector == q.nodeSelector && p.tolerations == q.tolerations
    ensures WithDetected(m, found, p, profile) == WithDetected(m, found, q, profile)
  {
    if found != [] {
      AlikeDetected(p, q, m, found[..|found| - 1], profile);
      AlikeTemplate(p, q, profile.templates);
    }
  }

  lemma AlikeRebuilt(s: State, p: Pod, q: Pod, profile: Profile, cluster: Cluster)
    requires Alike(p, q, profile) && Listed(cluster)
    ensures Rebuilt(Unbounded, s, profile, p, cluster) == Rebuilt(Unbounded, s, profile, q, cluster)
  {
    AlikeDetected(p, q, OtherInflight(s, profile), Detected(cluster.detections), profile);
  }

  /** Reconciles of alike pods, one after the other, on an unchanged cluster and profile. */
  datatype Repeat = Begin(s: State) | Again(prev: Repeat, req: Request, out: Outcome, grants: seq<string>, after: State)

  function LedgerAfter(h: Repeat): State {
    if h.Begin? then h.s else h.after
  }

  function First(h: Repeat): State {
    if h.Begin? then h.s else First(h.prev)
  }

  function Times(h: Repeat): nat {
    if h.Begin? then 0 else Times(h.prev) + 1
  }

  ghost predicate IsRepeat(h: Repeat, pod: Pod, profile: Profile, cluster: Cluster) {
    match h
    case Begin(s) => WellKeyed(s) && NamesValid(cluster) && Listed(cluster)
    case Again(prev, req, out, grants, after) =>
      && IsRepeat(prev, pod, profile, cluster)
      && RunsRules(req) && Alike(pod, req.pod.value, profile)
      && req.profile.value == profile && req.cluster == cluster
      && Reconciles(Unbounded, LedgerAfter(prev), req, after, out, grants)
  }

  predicate AllHeldByNodeReady(h: Repeat) {
    h.Again? ==> h.out == Held(NODE_READY) && AllHeldByNodeReady(h.prev)
  }

  /** The ledger a repeated reconcile works on: the first sync, then whatever the last one left. */
  function Current(h: Repeat, pod: Pod, profile: Profile, cluster: Cluster): State
    requires Listed(cluster)
  {
    if h.Begin? then Rebuilt(Unbounded, h.s, profile, pod, cluster) else h.after
  }

  lemma StepFromRebuilt(s: State, req: Request, out: Outcome, grants: seq<string>, after: State) returns (d: Decision)
    requires WellKeyed(s) && NamesValid(req.cluster) && RunsRules(req)
    requires Reconciles(Unbounded, s, req, after, out, grants)
    ensures var t := Rebuilt(Unbounded, s, req.profile.value, req.pod.value, req.cluster);
      && Decides(Unbounded, t, req.pod.value, req.profile.value, req.profile.value.rules, "", after, d, grants)
      && out == OutcomeOf(d)
      && WellKeyed(t) && SameFrame(t, after)
  {
    var pod, profile := req.pod.value, req.profile.value;
    var t := Rebuilt(Unbounded, s, profile, pod, req.cluster);
    d :| Decides(Unbounded, t, pod, profile, profile.rules, "", after, d, grants) && out == OutcomeOf(d);
    SyncedWellKeyed(Unbounded, s, profile, pod, req.cluster);
    LoopSound(Unbounded, t, pod, profile, profile.rules, "", after, d, grants);
  }

  /** Every sync after the first leaves the ledger as it is. */
  lemma {:induction false} RepeatStable(h: Repeat, pod: Pod, profile: Profile, cluster: Cluster)
    requires IsRepeat(h, pod, profile, cluster)
    ensures NamesValid(cluster) && Listed(cluster) && WellKeyed(LedgerAfter(h)) && WellKeyed(Current(h, pod, profile, cluster))
    ensures Rebuilt(Unbounded, LedgerAfter(h), profile, pod, cluster) == Current(h, pod, profile, cluster)
    ensures SameFrame(Rebuilt(Unbounded, First(h), profile, pod, cluster), Current(h, pod, profile, cluster))
    ensures WellKeyed(First(h))
  {
    match h
    case Begin(s) =>
      SyncedWellKeyed(Unbounded, s, profile, pod, cluster);
    case Again(prev, req, out, grants, after) =>
      RepeatStable(prev, pod, profile, cluster);
      var d := StepFromRebuilt(LedgerAfter(prev), req, out, grants, after);
      AlikeRebuilt(LedgerAfter(prev), pod, req.pod.value, profile, cluster);
      FrameTransitive(Rebuilt(Unbounded, First(h), profile, pod, cluster), Current(prev, pod, profile, cluster), after);
      FrameWellKeyed(Current(prev, pod, profile, cluster), after);
      RebuildIsStable(Unbounded, First(h), profile, pod, cluster, after);
  }

  /** HOLD-LOOP MEASURE. With no in-flight entry of unknown capacity, each hold lowers the slots by
      exactly one, so alike pods are held at most as often as there were slots to begin with. */
  lemma {:induction false} HoldsAreBounded(h: Repeat, pod: Pod, profile: Profile, cluster: Cluster, r: string)
    requires IsRepeat(h, pod, profile, cluster) && AllHeldByNodeReady(h)
    requires r in PodDemand(Unbounded, pod, profile) && PodDemand(Unbounded, pod, profile)[r] > 0
    requires Listed(cluster)
    requires !HasInflightSignalIn(Rebuilt(Unbounded, First(h), profile, pod, cluster), ProfilePrefix(profile))
    ensures var qty := PodDemand(Unbounded, pod, profile)[r];
      && Slots(Current(h, pod, profile, cluster), r, qty) ==
         Slots(Rebuilt(Unbounded, First(h), profile, pod, cluster), r, qty) - Times(h)
      && Times(h) <= Slots(Rebuilt(Unbounded, First(h), profile, pod, cluster), r, qty)
  {
    match h
    case Begin(s) =>
      MapSumNonNegative(SlotMap(Rebuilt(Unbounded, s, profile, pod, cluster), r, PodDemand(Unbounded, pod, profile)[r]));
    case Again(prev, req, out, grants, after) =>
      HoldsAreBounded(prev, pod, profile, cluster, r);
      RepeatStable(prev, pod, profile, cluster);
      var d := StepFromRebuilt(LedgerAfter(prev), req, out, grants, after);
      AlikeRebuilt(LedgerAfter(prev), pod, req.pod.value, profile, cluster);
      var t := Current(prev, pod, profile, cluster);
      SignalFrame(Rebuilt(Unbounded, First(h), profile, pod, cluster), t, ProfilePrefix(profile));
      HoldTakesSlot(t, req.pod.value, profile, profile.rules, "", after, grants, r);
      MapSumNonNegative(SlotMap(after, r, PodDemand(Unbounded, pod, profile)[r]));
  }

  ghost predicate NothingFits(t: State, pod: Pod, profile: Profile) {
    forall n, i :: !Candidate(Unbounded, t, PodDemand(Unbounded, pod, profile), ConstraintsOf(pod), n, i)
  }

  /** With an entry of unknown capacity and nothing that fits, WaitForNodeReady alone never releases:
      every repetition is a hold and leaves the ledger untouched. Only the timeout ends it. */
  lemma {:induction false} UnknownCapacityHoldsForever(h: Repeat, pod: Pod, profile: Profile, cluster: Cluster)
    requires IsRepeat(h, pod, profile, cluster) && Listed(cluster)
    requires profile.rules == [NODE_READY] && PodDemand(Unbounded, pod, profile) != map[]
    requires var t := Rebuilt(Unbounded, First(h), profile, pod, cluster);
      && HasInflightSignalIn(t, ProfilePrefix(profile))
      && NothingFits(t, pod, profile)
    ensures AllHeldByNodeReady(h)
    ensures Current(h, pod, profile, cluster) == Rebuilt(Unbounded, First(h), profile, pod, cluster)
  {
    match h
    case Begin(s) =>
    case Again(prev, req, out, grants, after) =>
      UnknownCapacityHoldsForever(prev, pod, profile, cluster);
      RepeatStable(prev, pod, profile, cluster);
      var d := StepFromRebuilt(LedgerAfter(prev), req, out, grants, after);
      AlikeRebuilt(LedgerAfter(prev), pod, req.pod.value, profile, cluster);
      AlikeNothingFits(Current(prev, pod, profile, cluster), pod, req.pod.value, profile);
      SignalHold(Current(prev, pod, profile, cluster), req.pod.value, profile, after, d, grants);
  }

  lemma AlikeNothingFits(t: State, p: Pod, q: Pod, profile: Profile)
    requires Alike(p, q, profile) && NothingFits(t, p, profile)
    ensures NothingFits(t, q, profile)
  {
    assert ConstraintsOf(p) == ConstraintsOf(q);
  }

  lemma SignalHold(t: State, pod: Pod, profile: Profile, after: State, d: Decision, grants: seq<string>)
    requires WellKeyed(t) && profile.rules == [NODE_READY]
    requires Decides(Unbounded, t, pod, profile, profile.rules, "", after, d, grants)
    requires PodDemand(Unbounded, pod, profile) != map[]
    requires HasInflightSignalIn(t, ProfilePrefix(profile))
    requires NothingFits(t, pod, profile)
    ensures d == Hold(NODE_READY) && after == t
  {
    var s1, v, rest := Unroll(Unbounded, t, pod, profile, profile.rules, "", after, d, grants);
    NodeReadyOutcomes(Unbounded, t, pod, profile, s1, v);
  }
}
