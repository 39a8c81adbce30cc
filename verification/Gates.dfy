/** Scheduling gates: injected by the webhook, removed by the controller. */
module Gates {
  import opened Scheduling
  import opened Objects
  import opened Affinity

  predicate IsKompaktGate(gate: string) {
    GATE_PREFIX <= gate
  }

  /** Scan for the first gate that carries the prefix. */
  predicate FindsKompaktGate(gates: seq<string>)
    ensures FindsKompaktGate(gates) <==> exists g :: g in gates && IsKompaktGate(g)
  {
    |gates| > 0 && (IsKompaktGate(gates[0]) || FindsKompaktGate(gates[1..]))
  }

  /** The controller's filter: it looks at a pod only while the scan finds a gate. */
  predicate HasKompaktGates(pod: Pod) {
    FindsKompaktGate(pod.gates)
  }

  function WithoutKompakt(gates: seq<string>): seq<string> {
    if gates == [] then []
    else
      var init := WithoutKompakt(gates[..|gates| - 1]);
      var gate := gates[|gates| - 1];
      if IsKompaktGate(gate) then init else init + [gate]
  }

  function ReleaseAnnotations(annotations: map<string, string>, target: string, reason: string): map<string, string> {
    var reasoned := annotations[ANNOTATION_REASON := reason];
    (if target != "" then reasoned[ANNOTATION_NODE := target] else reasoned) - {ANNOTATION_HELD_BY}
  }

  /** The pod a release patches in. */
  function ReleasedPod(pod: Pod, target: string, reason: string): Pod {
    pod.(annotations := ReleaseAnnotations(pod.annotations, target, reason),
         gates := WithoutKompakt(pod.gates),
         required := if target != "" then Pinned(pod.required, target) else pod.required)
  }

  method ReleaseGatesWithAffinity(pod: Pod, nodeName: string, reason: string) returns (p: Pod)
    ensures p == ReleasedPod(pod, nodeName, reason)
    ensures forall node :: Satisfied(p.required, node) <==>
      if nodeName == "" then Satisfied(pod.required, node)
      else OnHost(node, nodeName) && (Satisfied(pod.required, node) || HasEmptyAlternative(pod.required))
  {
    p := pod;
    p := p.(annotations := p.annotations[ANNOTATION_REASON := reason]);
    if nodeName != "" {
      p := p.(annotations := p.annotations[ANNOTATION_NODE := nodeName]);
    }
    p := p.(annotations := p.annotations - {ANNOTATION_HELD_BY});
    var remaining: seq<string> := [];
    for i := 0 to |pod.gates|
      invariant remaining == WithoutKompakt(pod.gates[..i])
    {
      assert pod.gates[..i + 1][..i] == pod.gates[..i];
      if !IsKompaktGate(pod.gates[i]) {
        remaining := remaining + [pod.gates[i]];
      }
    }
    assert pod.gates[..|pod.gates|] == pod.gates;
    p := p.(gates := remaining);
    if nodeName != "" {
      var required := Pin(p.required, nodeName);
      p := p.(required := required);
      forall node ensures Satisfied(p.required, node) <==>
        OnHost(node, nodeName) && (Satisfied(pod.required, node) || HasEmptyAlternative(pod.required))
      {
        PinnedMeaning(pod.required, nodeName, node);
      }
    }
  }

  /** Gate name of a rule; the last three rules have gates but no implementation. */
  function GateName(rule: string): Option<string> {
    if rule == "WaitForWorkloadPacking" then Some("kompakt.io/wait-for-workload-packing")
    else if rule == "WaitForNodeReady" then Some("kompakt.io/wait-for-node-ready")
    else if rule == "WaitForImagePrePull" then Some("kompakt.io/awaiting-image-prepull")
    else if rule == "WaitForMIGProfile" then Some("kompakt.io/awaiting-mig-reconfig")
    else if rule == "WaitForCoLocation" then Some("kompakt.io/awaiting-colocation")
    else None
  }

  function GatesFor(rules: seq<string>): seq<string> {
    if rules == [] then []
    else
      var init := GatesFor(rules[..|rules| - 1]);
      var gate := GateName(rules[|rules| - 1]);
      if gate.Some? then init + [gate.value] else init
  }

  datatype Admission = Denied | Allowed | Patched(pod: Pod)

  /** The webhook's answer; `profile` is what the resolver finds under the pod's profile label. */
  function Admit(pod: Pod, profile: Option<Profile>, traceID: string): Admission {
    if LabelOf(pod.labels, LABEL_EXCLUDE) == "true" || LABEL_PROFILE !in pod.labels then Allowed
    else if profile.None? then Denied
    else
      var gates := GatesFor(profile.value.rules);
      if gates == [] then Allowed
      else Patched(pod.(annotations := pod.annotations[ANNOTATION_TRACE_ID := traceID], gates := pod.gates + gates))
  }

  method Handle(pod: Pod, profile: Option<Profile>, traceID: string) returns (response: Admission)
    ensures response == Admit(pod, profile, traceID)
  {
    if LabelOf(pod.labels, LABEL_EXCLUDE) == "true" {
      return Allowed;
    }
    if LABEL_PROFILE !in pod.labels {
      return Allowed;
    }
    if profile.None? {
      return Denied;
    }
    var rules := profile.value.rules;
    var gates: seq<string> := [];
    for i := 0 to |rules|
      invariant gates == GatesFor(rules[..i])
    {
      assert rules[..i + 1][..i] == rules[..i];
      var gate := GateName(rules[i]);
      if gate.Some? {
        gates := gates + [gate.value];
      }
    }
    assert rules[..|rules|] == rules;
    if gates == [] {
      return Allowed;
    }
    var p := pod.(annotations := pod.annotations[ANNOTATION_TRACE_ID := traceID]);
    p := p.(gates := p.gates + gates);
    response := Patched(p);
  }

  /** One webhook invocation: the profile it resolved and the trace id it drew. */
  datatype Invocation = Invocation(profile: Option<Profile>, traceID: string)

  /** The pod after a run of invocations, None once one denies it. */
  function AdmitAll(pod: Pod, calls: seq<Invocation>): Option<Pod>
    decreases |calls|
  {
    if calls == [] then Some(pod)
    else
      match Admit(pod, calls[0].profile, calls[0].traceID)
      case Denied => None
      case Allowed => AdmitAll(pod, calls[1..])
      case Patched(p) => AdmitAll(p, calls[1..])
  }

  predicate Injects(pod: Pod, call: Invocation) {
    Admit(pod, call.profile, call.traceID).Patched?
  }

  lemma {:induction false} GatesForAreKompakt(rules: seq<string>)
    ensures forall g :: g in GatesFor(rules) ==> IsKompaktGate(g)
  {
    if rules != [] {
      GatesForAreKompakt(rules[..|rules| - 1]);
      var gate := GateName(rules[|rules| - 1]);
      assert gate.Some? ==> gate.value[..11] == GATE_PREFIX;
    }
  }

  /** Gates come in rule order, one rule at a time. */
  lemma {:induction false} GatesForConcat(a: seq<string>, b: seq<string>)
    ensures GatesFor(a + b) == GatesFor(a) + GatesFor(b)
    decreases |b|
  {
    if b == [] {
      assert a + b == a;
    } else {
      var all := a + b;
      assert all[..|all| - 1] == a + b[..|b| - 1] && all[|all| - 1] == b[|b| - 1];
      GatesForConcat(a, b[..|b| - 1]);
    }
  }

  /** The gate of each rule; other rules have none. With `GatesForConcat` this fixes the gates of every rule list. */
  lemma GateOfRule(rule: string)
    ensures GatesFor([rule]) ==
      if rule == "WaitForWorkloadPacking" then ["kompakt.io/wait-for-workload-packing"]
      else if rule == "WaitForNodeReady" then ["kompakt.io/wait-for-node-ready"]
      else if rule == "WaitForImagePrePull" then ["kompakt.io/awaiting-image-prepull"]
      else if rule == "WaitForMIGProfile" then ["kompakt.io/awaiting-mig-reconfig"]
      else if rule == "WaitForCoLocation" then ["kompakt.io/awaiting-colocation"]
      else []
  {
    assert [rule][..0] == [] && GatesFor([]) == [];
  }

  const GATED_RULES: set<string> :=
    {"WaitForWorkloadPacking", "WaitForNodeReady", "WaitForImagePrePull", "WaitForMIGProfile", "WaitForCoLocation"}

  lemma {:induction false} SomeGateIff(rules: seq<string>)
    ensures GatesFor(rules) != [] <==> exists rule :: rule in rules && rule in GATED_RULES
  {
    if rules != [] {
      var init, last := rules[..|rules| - 1], rules[|rules| - 1];
      assert rules == init + [last];
      SomeGateIff(init);
      assert GateName(last).Some? <==> last in GATED_RULES;
    }
  }

  /** ADMISSION. A pod is denied exactly when it is not excluded, names a profile, and that profile does not exist. It
      is gated exactly when it is not excluded, names a profile that exists, and some rule of that has a gate; it then
      keeps its own gates and gains those of the rules behind them, gets the trace id, and is otherwise unchanged. */
  lemma AdmissionMeaning(pod: Pod, profile: Option<Profile>, traceID: string)
    ensures var asks := !("kompakt.io/exclude" in pod.labels && pod.labels["kompakt.io/exclude"] == "true")
                        && "packer.kompakt.io/packing-profile" in pod.labels;
      var a := Admit(pod, profile, traceID);
      && (a == Denied <==> asks && profile.None?)
      && (a.Patched? <==> asks && profile.Some? && exists rule :: rule in profile.value.rules && rule in GATED_RULES)
      && (a.Patched? ==>
           && a.pod.gates == pod.gates + GatesFor(profile.value.rules)
           && a.pod.annotations == pod.annotations["kompakt.io/trace-id" := traceID]
           && a.pod == pod.(gates := a.pod.gates, annotations := a.pod.annotations))
  {
    if profile.Some? {
      SomeGateIff(profile.value.rules);
    }
  }

  lemma {:induction false} WithoutKompaktDrops(gates: seq<string>, injected: seq<string>)
    requires forall g :: g in injected ==> IsKompaktGate(g)
    ensures WithoutKompakt(gates + injected) == WithoutKompakt(gates)
  {
    if injected == [] {
      assert gates + injected == gates;
    } else {
      var all := gates + injected;
      assert all[..|all| - 1] == gates + injected[..|injected| - 1];
      WithoutKompaktDrops(gates, injected[..|injected| - 1]);
    }
  }

  lemma {:induction false} WithoutKompaktKeeps(gates: seq<string>)
    requires forall g :: g in gates ==> !IsKompaktGate(g)
    ensures WithoutKompakt(gates) == gates
  {
    if gates != [] {
      WithoutKompaktKeeps(gates[..|gates| - 1]);
    }
  }

  lemma {:induction false} WithoutKompaktClean(gates: seq<string>)
    ensures forall g :: g in WithoutKompakt(gates) ==> !IsKompaktGate(g)
  {
    if gates != [] {
      WithoutKompaktClean(gates[..|gates| - 1]);
    }
  }

  /** The controller sees a pod exactly when a release would change its gates, and what a release
      leaves is never seen again: reconciling a released pod is a no-op. */
  lemma SeenUntilReleased(pod: Pod, target: string, reason: string)
    ensures HasKompaktGates(pod) <==> ReleasedPod(pod, target, reason).gates != pod.gates
    ensures !HasKompaktGates(ReleasedPod(pod, target, reason))
  {
    WithoutKompaktClean(pod.gates);
    if !HasKompaktGates(pod) {
      WithoutKompaktKeeps(pod.gates);
    }
  }

  lemma {:induction false} AdmitAllGates(pod: Pod, calls: seq<Invocation>)
    requires AdmitAll(pod, calls).Some?
    ensures var p := AdmitAll(pod, calls).value;
      && p.labels == pod.labels
      && WithoutKompakt(p.gates) == WithoutKompakt(pod.gates)
      && (HasKompaktGates(p) <==> HasKompaktGates(pod) || exists c :: c in calls && Injects(pod, c))
    decreases |calls|
  {
    if calls != [] {
      var c := calls[0];
      match Admit(pod, c.profile, c.traceID)
      case Allowed =>
        AdmitAllGates(pod, calls[1..]);
        assert forall x :: x in calls <==> x == c || x in calls[1..];
      case Patched(q) =>
        var gates := GatesFor(c.profile.value.rules);
        GatesForAreKompakt(c.profile.value.rules);
        WithoutKompaktDrops(pod.gates, gates);
        AdmitAllGates(q, calls[1..]);
        assert gates[0] in q.gates;
        assert Injects(pod, c) && c in calls;
    }
  }

  /** Injecting any number of times and then removing restores the original gates in order;
      in between the controller sees the pod exactly when some invocation injected. */
  lemma GateRoundTrip(pod: Pod, calls: seq<Invocation>, target: string, reason: string)
    requires !HasKompaktGates(pod)
    requires AdmitAll(pod, calls).Some?
    ensures var p := AdmitAll(pod, calls).value;
      && ReleasedPod(p, target, reason).gates == pod.gates
      && !HasKompaktGates(ReleasedPod(p, target, reason))
      && (HasKompaktGates(p) <==> exists c :: c in calls && Injects(pod, c))
  {
    AdmitAllGates(pod, calls);
    WithoutKompaktKeeps(pod.gates);
  }
}
