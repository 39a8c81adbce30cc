/** The documented rule list, WaitForWorkloadPacking before WaitForNodeReady: what it comes to, on the
    ledger before the call, over every order in which the searches may go. */
module RuleLists {
  import opened Quantities
  import opened Scheduling
  import opened Objects
  import opened Ledger
  import opened Rules
  import opened Sync
  import opened Reconcile
  import opened Rebuild
  import opened RuleLoop
  import opened Searches
  import opened HoldLoop

  ghost predicate Tightest(w: Width, s: State, pod: Pod, profile: Profile, n: string) {
    IsBest(w, ExistingOnly(s), PodDemand(w, pod, profile), ConstraintsOf(pod), n, false)
  }

  /** Every tightest existing node is the first rule's choice in some decision. */
  lemma TightestIsChosen(w: Width, s: State, pod: Pod, profile: Profile, rules: seq<string>, n: string)
    returns (s': State, d: Decision, grants: seq<string>)
    requires WellKeyed(s) && NamesNonEmpty(s) && PodDemand(w, pod, profile) != map[]
    requires rules == [PACKING, NODE_READY] && Tightest(w, s, pod, profile, n)
    ensures Decides(w, s, pod, profile, rules, "", s', d, grants) && grants != [] && grants[0] == n
  {
    var demand, c := PodDemand(w, pod, profile), ConstraintsOf(pod);
    var fit, v := FitOn(n, false), Verdict(true, n, Some(n));
    assert Has(ExistingOnly(s), n, false);
    assert FindFitAnswers(w, ExistingOnly(s), demand, c, fit);
    ReserveAfterFindSucceeds(w, s, demand, c, fit);
    var s1 := Reserved(w, s, n, demand);
    assert (s1, v) == PackingAfter(w, s, demand, fit);
    assert Evaluates(w, PACKING, s, pod, profile, s1, v);
    var rest;
    s', d, rest := DecisionExists(w, s1, pod, profile, rules[1..], NextTarget(v, ""));
    PrependRelease(w, s, pod, profile, rules, "", s1, v, s', d, rest);
    grants := GrantList(v) + rest;
  }

  ghost predicate AlwaysReleases(w: Width, s: State, pod: Pod, profile: Profile, rules: seq<string>) {
    forall s', d, grants :: Decides(w, s, pod, profile, rules, "", s', d, grants) ==> d.Release?
  }

  ghost predicate AlwaysReservesTwice(w: Width, s: State, pod: Pod, profile: Profile, rules: seq<string>) {
    forall s', d, grants :: Decides(w, s, pod, profile, rules, "", s', d, grants) ==> |grants| == 2
  }

  lemma ChoiceDecides(w: Width, s: State, pod: Pod, profile: Profile, rules: seq<string>, n: string)
    requires WellKeyed(s) && NamesNonEmpty(s) && PodDemand(w, pod, profile) != map[]
    requires rules == [PACKING, NODE_READY] && Tightest(w, s, pod, profile, n)
    ensures HasEntry(s, n)
    ensures AlwaysReleases(w, s, pod, profile, rules) ==>
            NodeReadyReleases(w, Reserved(w, s, n, PodDemand(w, pod, profile)), pod, profile)
    ensures AlwaysReservesTwice(w, s, pod, profile, rules) ==>
            SomethingFits(w, Reserved(w, s, n, PodDemand(w, pod, profile)), pod, profile)
  {
    ExistingCandidates(w, s, PodDemand(w, pod, profile), ConstraintsOf(pod));
    assert Candidate(w, ExistingOnly(s), PodDemand(w, pod, profile), ConstraintsOf(pod), n, false);
    var s', d, grants := TightestIsChosen(w, s, pod, profile, rules, n);
    PackingThenNodeReady(w, s, pod, profile, rules, s', d, grants);
  }

  /** THE DOCUMENTED LIST, EXACTLY. When an existing node fits, the pod is released whatever the search orders if and
      only if, for every tightest existing node, WaitForNodeReady would release on the ledger with the demand
      reserved there; and the demand is reserved twice whatever the orders if and only if, for every such
      node, something still fits. */
  lemma DocumentedListIff(w: Width, s: State, pod: Pod, profile: Profile, rules: seq<string>)
    requires WellKeyed(s) && NamesNonEmpty(s) && PodDemand(w, pod, profile) != map[]
    requires rules == [PACKING, NODE_READY]
    requires exists n :: Candidate(w, s, PodDemand(w, pod, profile), ConstraintsOf(pod), n, false)
    ensures AlwaysReleases(w, s, pod, profile, rules) <==>
      forall n :: Tightest(w, s, pod, profile, n) ==>
        HasEntry(s, n) && NodeReadyReleases(w, Reserved(w, s, n, PodDemand(w, pod, profile)), pod, profile)
    ensures AlwaysReservesTwice(w, s, pod, profile, rules) <==>
      forall n :: Tightest(w, s, pod, profile, n) ==>
        HasEntry(s, n) && SomethingFits(w, Reserved(w, s, n, PodDemand(w, pod, profile)), pod, profile)
  {
    forall n | Tightest(w, s, pod, profile, n)
      ensures HasEntry(s, n)
      ensures AlwaysReleases(w, s, pod, profile, rules) ==>
              NodeReadyReleases(w, Reserved(w, s, n, PodDemand(w, pod, profile)), pod, profile)
      ensures AlwaysReservesTwice(w, s, pod, profile, rules) ==>
              SomethingFits(w, Reserved(w, s, n, PodDemand(w, pod, profile)), pod, profile)
    {
      ChoiceDecides(w, s, pod, profile, rules, n);
    }
    forall s', d, grants | Decides(w, s, pod, profile, rules, "", s', d, grants)
      ensures grants != [] && Tightest(w, s, pod, profile, grants[0]) && HasEntry(s, grants[0])
      ensures var s1 := Reserved(w, s, grants[0], PodDemand(w, pod, profile));
        && (d.Release? <==> NodeReadyReleases(w, s1, pod, profile))
        && (|grants| == 2 <==> SomethingFits(w, s1, pod, profile))
    {
      PackingThenNodeReady(w, s, pod, profile, rules, s', d, grants);
    }
  }

  predicate AllHeldByPacking(h: Repeat) {
    h.Again? ==> h.out == Held(PACKING) && h.grants == [] && AllHeldByPacking(h.prev)
  }

  lemma PackingHolds(t: State, pod: Pod, profile: Profile, after: State, d: Decision, grants: seq<string>)
    requires WellKeyed(t) && NamesNonEmpty(t) && profile.rules != [] && profile.rules[0] == PACKING
    requires PodDemand(Unbounded, pod, profile) != map[]
    requires forall n :: !Candidate(Unbounded, t, PodDemand(Unbounded, pod, profile), ConstraintsOf(pod), n, false)
    requires Decides(Unbounded, t, pod, profile, profile.rules, "", after, d, grants)
    ensures d == Hold(PACKING) && after == t && grants == []
  {
    PackingFirstHoldsIff(Unbounded, t, pod, profile, profile.rules, after, d, grants);
  }

  /** With bin-packing first and no existing node that fits, a pod is held for ever on an unchanged cluster:
      the rules after it are never asked, so it is never passed through. Only the timeout ends it. */
  lemma {:induction false} PackingHoldsForever(h: Repeat, pod: Pod, profile: Profile, cluster: Cluster)
    requires IsRepeat(h, pod, profile, cluster) && Listed(cluster)
    requires profile.rules != [] && profile.rules[0] == PACKING && PodDemand(Unbounded, pod, profile) != map[]
    requires var t := Rebuilt(Unbounded, First(h), profile, pod, cluster);
      && NamesNonEmpty(t)
      && forall n :: !Candidate(Unbounded, t, PodDemand(Unbounded, pod, profile), ConstraintsOf(pod), n, false)
    ensures AllHeldByPacking(h)
    ensures Current(h, pod, profile, cluster) == Rebuilt(Unbounded, First(h), profile, pod, cluster)
  {
    match h
    case Begin(s) =>
    case Again(prev, req, out, grants, after) =>
      PackingHoldsForever(prev, pod, profile, cluster);
      RepeatStable(prev, pod, profile, cluster);
      var d := StepFromRebuilt(LedgerAfter(prev), req, out, grants, after);
      AlikeRebuilt(LedgerAfter(prev), pod, req.pod.value, profile, cluster);
      assert ConstraintsOf(pod) == ConstraintsOf(req.pod.value);
      PackingHolds(Current(prev, pod, profile, cluster), req.pod.value, profile, after, d, grants);
  }
}
