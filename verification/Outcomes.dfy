/** What a reconcile comes to, told from the objects it read: which branch it takes, and the pod it leaves stored. The
    labels, annotations, reasons and times are written out. */
module Outcomes {
  import opened Quantities
  import opened Scheduling
  import opened Objects
  import opened Ledger
  import opened Rules
  import opened Sync
  import opened Reconcile
  import opened Gates
  import opened Affinity

  /** The controller looks at the pod: it carries one of our gates and names a profile. */
  predicate Managed(pod: Pod) {
    (exists g :: g in pod.gates && "kompakt.io/" <= g) && "packer.kompakt.io/packing-profile" in pod.labels
  }

  /** Pod and profile were found and the pod is managed: the reconcile goes on to sync. */
  predicate GoesOn(req: Request) {
    req.pod.Found? && Managed(req.pod.value) && req.profile.Found?
  }

  predicate HighPriority(pod: Pod) {
    "kompakt.io/priority" in pod.annotations && pod.annotations["kompakt.io/priority"] == "high"
  }

  /** The profile's timeout in nanoseconds; three minutes when it does not parse. */
  function Allowance(profile: Profile): int {
    match profile.timeout
    case Some(timeout) => timeout
    case None => 180_000_000_000
  }

  /** A pod without a creation time is never overdue. */
  predicate Overdue(pod: Pod, profile: Profile, now: int) {
    pod.created.Some? && now > pod.created.value + Allowance(profile)
  }

  /** The rules get to decide: both lists came, and neither priority nor the timeout came first. */
  predicate RulesDecide(req: Request) {
    && GoesOn(req) && req.cluster.nodes.Some? && req.cluster.pods.Some?
    && !HighPriority(req.pod.value) && !Overdue(req.pod.value, req.profile.value, req.now)
  }

  lemma ReachesRulesIff(req: Request)
    ensures Syncs(req) <==> GoesOn(req)
    ensures RunsRules(req) <==> RulesDecide(req)
  {
    if req.pod.Found? {
      assert HasKompaktGates(req.pod.value) <==> exists g :: g in req.pod.value.gates && "kompakt.io/" <= g;
    }
  }

  /** WHICH BRANCH. Every outcome but those of the rules, exactly when it comes about. */
  lemma OutcomeCases(w: Width, s: State, req: Request, s': State, out: Outcome, grants: seq<string>)
    requires Reconciles(w, s, req, s', out, grants)
    ensures out == Errored <==> req.pod.Failed? || (req.pod.Found? && Managed(req.pod.value) && req.profile.Failed?)
    ensures out == Ignored <==> req.pod.NotFound? || (req.pod.Found? && !Managed(req.pod.value))
    ensures out == Released("profile_not_found", "") <==> req.pod.Found? && Managed(req.pod.value) && req.profile.NotFound?
    ensures out == Retry <==> GoesOn(req) && (req.cluster.nodes.None? || req.cluster.pods.None?)
    ensures out == Released("priority", "") <==>
      GoesOn(req) && req.cluster.nodes.Some? && req.cluster.pods.Some? && HighPriority(req.pod.value)
    ensures out == Released("timeout", "") <==>
      && GoesOn(req) && req.cluster.nodes.Some? && req.cluster.pods.Some? && !HighPriority(req.pod.value)
      && Overdue(req.pod.value, req.profile.value, req.now)
    ensures out.Held? || (out.Released? && out.reason == "capacity") <==> RulesDecide(req)
    ensures out.Released? && out.reason != "capacity" ==> out.target == ""
    ensures !RulesDecide(req) ==> grants == []
  {
    ReachesRulesIff(req);
  }

  /** Whenever the rules get to decide, the rule loop does, on the synced ledger: a hold names the rule that held, a
      release the target it chose. */
  lemma RulesDecideOutcome(w: Width, s: State, req: Request, s': State, out: Outcome, grants: seq<string>)
    requires Reconciles(w, s, req, s', out, grants) && RulesDecide(req)
    ensures exists d ::
      && Decides(w, Synced(w, s, req.profile.value, req.pod.value, req.cluster), req.pod.value, req.profile.value,
                 req.profile.value.rules, "", s', d, grants)
      && (d.Hold? ==> out == Held(d.rule)) && (d.Release? ==> out == Released("capacity", d.target))
  {
    ReachesRulesIff(req);
  }

  /** In every other branch the ledger is synced if the reconcile got that far, and otherwise left alone. */
  lemma LedgerOtherwise(w: Width, s: State, req: Request, s': State, out: Outcome, grants: seq<string>)
    requires Reconciles(w, s, req, s', out, grants) && !RulesDecide(req)
    ensures s' == if GoesOn(req) then Synced(w, s, req.profile.value, req.pod.value, req.cluster) else s
  {
    ReachesRulesIff(req);
  }

  /** THE PIN. After an accepted patch, a pod released for a target may be placed exactly on the nodes of that hostname that its
      own affinity admits, or that an empty alternative of it lets in; any other reconcile leaves its affinity alone. */
  lemma PodPinned(w: Width, s: State, req: Request, s': State, out: Outcome, grants: seq<string>, node: Node)
    requires Reconciles(w, s, req, s', out, grants) && req.pod.Found? && req.patchAccepted
    ensures var pod, pod' := req.pod.value, PodAfter(req, out);
      if out.Released? && out.target != "" then
        && out.reason == "capacity"
        && (Satisfied(pod'.required, node) <==>
             && "kubernetes.io/hostname" in node.labels && node.labels["kubernetes.io/hostname"] == out.target
             && (Satisfied(pod.required, node) || HasEmptyAlternative(pod.required)))
      else pod'.required == pod.required
  {
    OutcomeCases(w, s, req, s', out, grants);
    if out.Released? && out.target != "" {
      PinnedMeaning(req.pod.value.required, out.target, node);
    }
  }

  /** An annotation, None when it is not set. */
  function AnnotationOf(pod: Pod, key: string): Option<string> {
    if key in pod.annotations then Some(pod.annotations[key]) else None
  }

  /** THE ANNOTATIONS, key by key. A release sets the reason, sets the target node if there is one, and removes held-by; a
      hold sets held-by to the rule; nothing else is touched, and no other outcome touches any. */
  lemma AnnotationsAfter(req: Request, out: Outcome, key: string)
    requires req.pod.Found? && req.patchAccepted
    ensures AnnotationOf(PodAfter(req, out), key) ==
      if out.Released? && key == "kompakt.io/gate-reason" then Some(out.reason)
      else if out.Released? && key == "kompakt.io/target-node" && out.target != "" then Some(out.target)
      else if out.Released? && key == "kompakt.io/held-by" then None
      else if out.Held? && key == "kompakt.io/held-by" then Some(out.rule)
      else AnnotationOf(req.pod.value, key)
  {
  }

  /** The gates: a release takes away exactly those of ours, the rest keep their order; nothing else of the pod changes in any
      outcome, and without an accepted patch nothing at all. */
  lemma {:induction false} GatesAfter(req: Request, out: Outcome, gate: string)
    requires req.pod.Found?
    ensures var pod, pod' := req.pod.value, PodAfter(req, out);
      && (multiset(pod'.gates)[gate] ==
           if out.Released? && req.patchAccepted && "kompakt.io/" <= gate then 0 else multiset(pod.gates)[gate])
      && pod' == pod.(annotations := pod'.annotations, gates := pod'.gates, required := pod'.required)
      && (!req.patchAccepted ==> pod' == pod)
  {
    KeptGates(req.pod.value.gates, gate);
  }

  lemma {:induction false} KeptGates(gates: seq<string>, gate: string)
    ensures multiset(WithoutKompakt(gates))[gate] == if "kompakt.io/" <= gate then 0 else multiset(gates)[gate]
  {
    if gates != [] {
      var init, last := gates[..|gates| - 1], gates[|gates| - 1];
      assert gates == init + [last];
      KeptGates(init, gate);
    }
  }
}
