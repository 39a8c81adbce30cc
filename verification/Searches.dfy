/** The search relation itself: it always has an answer, and what the answer decides does not
    depend on the order in which the maps are iterated. */
module Searches {
  import opened Quantities
  import opened Scheduling
  import opened Objects
  import opened Ledger
  import opened Rules
  import opened Sync
  import opened Reconcile
  import opened Rebuild
  import opened RuleLoop

  /** Any two answers agree on success, on the side and on the slack; only the name among equally
      tight entries is open. */
  lemma AnswersAgree(w: Width, s: State, demand: Amounts, c: Option<Constraints>, f: Fit, g: Fit)
    requires NamesNonEmpty(s)
    requires FindFitAnswers(w, s, demand, c, f) && FindFitAnswers(w, s, demand, c, g)
    ensures f.NoFit? <==> g.NoFit?
    ensures f.FitOn? ==>
      && Has(s, f.name, f.inflight) && Has(s, g.name, g.inflight)
      && f.inflight == g.inflight
      && Slack(w, EntryAt(s, f.name, f.inflight), demand) == Slack(w, EntryAt(s, g.name, g.inflight), demand)
  {
    FoundIffFits(w, s, demand, c, f);
    FoundIffFits(w, s, demand, c, g);
    if f.FitOn? {
      assert Candidate(w, s, demand, c, f.name, f.inflight);
      assert Candidate(w, s, demand, c, g.name, g.inflight);
    }
  }

  /** Whether WaitForNodeReady releases, holds or passes through is the same for every order. */
  lemma NodeReadyOrderIndependent(w: Width, s: State, pod: Pod, profile: Profile, s1: State, v1: Verdict, s2: State, v2: Verdict)
    requires WellKeyed(s) && NamesNonEmpty(s)
    requires Evaluates(w, NODE_READY, s, pod, profile, s1, v1) && Evaluates(w, NODE_READY, s, pod, profile, s2, v2)
    ensures v1.release == v2.release && (v1.target == "" <==> v2.target == "") && (v1.grant.None? <==> v2.grant.None?)
  {
    var demand, c, prefix := PodDemand(w, pod, profile), ConstraintsOf(pod), ProfilePrefix(profile);
    if demand != map[] {
      var f :| FindFitAnswers(w, s, demand, c, f) && (s1, v1) == NodeReadyAfter(w, s, demand, prefix, f);
      var g :| FindFitAnswers(w, s, demand, c, g) && (s2, v2) == NodeReadyAfter(w, s, demand, prefix, g);
      AnswersAgree(w, s, demand, c, f, g);
      ReserveAfterFindSucceeds(w, s, demand, c, f);
      ReserveAfterFindSucceeds(w, s, demand, c, g);
    }
  }

  /** The slack of every candidate on one side. */
  ghost function Ranks(w: Width, s: State, demand: Amounts, c: Option<Constraints>, i: bool): Amounts {
    map n | n in (if i then s.inflight.Keys else s.nodes.Keys) && Candidate(w, s, demand, c, n, i)
      :: Slack(w, EntryAt(s, n, i), demand)
  }

  lemma RanksCandidates(w: Width, s: State, demand: Amounts, c: Option<Constraints>, n: string, i: bool)
    ensures n in Ranks(w, s, demand, c, i) <==> Candidate(w, s, demand, c, n, i)
    ensures Candidate(w, s, demand, c, n, i) ==> Ranks(w, s, demand, c, i)[n] == Slack(w, EntryAt(s, n, i), demand)
  {
  }

  lemma BestByRank(w: Width, s: State, demand: Amounts, c: Option<Constraints>, name: string, inflight: bool)
    requires name in Ranks(w, s, demand, c, inflight)
    requires forall n, i :: n in Ranks(w, s, demand, c, i) ==>
      var mine, other := Ranks(w, s, demand, c, inflight)[name], Ranks(w, s, demand, c, i)[n];
      mine <= other && (inflight && !i ==> mine < other)
    ensures IsBest(w, s, demand, c, name, inflight)
  {
    RanksCandidates(w, s, demand, c, name, inflight);
    forall n, i | Candidate(w, s, demand, c, n, i)
      ensures var mine, other := Slack(w, EntryAt(s, name, inflight), demand), Slack(w, EntryAt(s, n, i), demand);
        mine <= other && (inflight && !i ==> mine < other)
    {
      RanksCandidates(w, s, demand, c, n, i);
    }
  }

  /** Every search has an answer. */
  lemma SearchAnswers(w: Width, s: State, demand: Amounts, c: Option<Constraints>) returns (fit: Fit)
    ensures FindFitAnswers(w, s, demand, c, fit)
  {
    var ns, fs := Ranks(w, s, demand, c, false), Ranks(w, s, demand, c, true);
    if ns == map[] && fs == map[] {
      forall n, i ensures !Candidate(w, s, demand, c, n, i) {
        RanksCandidates(w, s, demand, c, n, i);
      }
      return NoFit;
    }
    var name, inflight := "", false;
    if ns != map[] {
      name := LeastKey(ns);
    }
    if fs != map[] {
      var f := LeastKey(fs);
      if ns == map[] || fs[f] < ns[name] {
        name, inflight := f, true;
      }
    }
    BestByRank(w, s, demand, c, name, inflight);
    fit := if name == "" then NoFit else FitOn(name, inflight);
  }

  lemma EvaluationExists(w: Width, rule: string, s: State, pod: Pod, profile: Profile) returns (s': State, v: Verdict)
    ensures Evaluates(w, rule, s, pod, profile, s', v)
  {
    var demand, c := PodDemand(w, pod, profile), ConstraintsOf(pod);
    if demand == map[] {
      return s, Verdict(true, "", None);
    }
    if rule == NODE_READY {
      var fit := SearchAnswers(w, s, demand, c);
      var r := NodeReadyAfter(w, s, demand, ProfilePrefix(profile), fit);
      return r.0, r.1;
    } else {
      var fit := SearchAnswers(w, ExistingOnly(s), demand, c);
      var r := PackingAfter(w, s, demand, fit);
      return r.0, r.1;
    }
  }

  lemma {:induction false} DecisionExists(w: Width, s: State, pod: Pod, profile: Profile, rules: seq<string>, target: string)
    returns (s': State, d: Decision, grants: seq<string>)
    ensures Decides(w, s, pod, profile, rules, target, s', d, grants)
    decreases |rules|
  {
    if rules == [] {
      return s, Release(target), [];
    }
    if !Registered(rules[0]) {
      s', d, grants := DecisionExists(w, s, pod, profile, rules[1..], target);
    } else {
      var s1, v := EvaluationExists(w, rules[0], s, pod, profile);
      if !v.release {
        HoldDecides(w, s, pod, profile, rules, target, s1, v);
        s', d, grants := s1, Hold(rules[0]), GrantList(v);
      } else {
        var rest;
        s', d, rest := DecisionExists(w, s1, pod, profile, rules[1..], NextTarget(v, target));
        PrependRelease(w, s, pod, profile, rules, target, s1, v, s', d, rest);
        grants := GrantList(v) + rest;
      }
    }
  }

  /** Every reconcile has an outcome, so every run can go on, at either width. */
  lemma ReconcileExists(w: Width, s: State, req: Request) returns (s': State, out: Outcome, grants: seq<string>)
    ensures Reconciles(w, s, req, s', out, grants)
  {
    if RunsRules(req) {
      var pod, profile := req.pod.value, req.profile.value;
      var d;
      s', d, grants := DecisionExists(w, Rebuilt(w, s, profile, pod, req.cluster), pod, profile, profile.rules, "");
      out := OutcomeOf(d);
    } else {
      s' := if Syncs(req) then Synced(w, s, req.profile.value, req.pod.value, req.cluster) else s;
      out, grants := EarlyOutcome(req), [];
    }
  }
}
