/** What the rules do to the ledger and decide, for every rule list and every search order. */
module RuleLoop {
  import opened Quantities
  import opened Scheduling
  import opened Objects
  import opened Ledger
  import opened Rules
  import opened Rebuild

  /** In a sequential run nothing comes between a search and its Reserve, which therefore succeeds. */
  lemma ReserveAfterFindSucceeds(w: Width, s: State, demand: Amounts, c: Option<Constraints>, fit: Fit)
    requires WellKeyed(s)
    requires FindFitAnswers(w, s, demand, c, fit) || FindFitAnswers(w, ExistingOnly(s), demand, c, fit)
    ensures fit.FitOn? ==> Has(s, fit.name, fit.inflight) && CanReserve(w, s, fit.name, demand)
    ensures fit.FitOn? ==> FindEntry(s, fit.name) == EntryAt(s, fit.name, fit.inflight)
    ensures fit.FitOn? ==> Matches(EntryAt(s, fit.name, fit.inflight), c)
  {
    if fit.FitOn? {
      if FindFitAnswers(w, s, demand, c, fit) {
        assert Candidate(w, s, demand, c, fit.name, fit.inflight);
      } else {
        assert Candidate(w, ExistingOnly(s), demand, c, fit.name, fit.inflight);
      }
    }
  }

  /** The four outcomes of WaitForNodeReady: the race branches are unreachable. */
  lemma NodeReadyOutcomes(w: Width, s: State, pod: Pod, profile: Profile, s': State, v: Verdict)
    requires WellKeyed(s)
    requires Evaluates(w, NODE_READY, s, pod, profile, s', v)
    requires PodDemand(w, pod, profile) != map[]
    ensures var demand, c := PodDemand(w, pod, profile), ConstraintsOf(pod);
      exists fit :: FindFitAnswers(w, s, demand, c, fit) &&
        match fit
        case FitOn(name, inflight) =>
          && v == (if inflight then Verdict(false, "", Some(name)) else Verdict(true, name, Some(name)))
          && HasEntry(s, name) && s' == Reserved(w, s, name, demand)
        case NoFit =>
          && v == Verdict(!HasInflightSignalIn(s, ProfilePrefix(profile)), "", None)
          && s' == s
  {
    var fit := NodeReadyAnswer(w, s, pod, profile, s', v);
  }

  /** The answer behind an evaluation. */
  lemma NodeReadyAnswer(w: Width, s: State, pod: Pod, profile: Profile, s': State, v: Verdict) returns (fit: Fit)
    requires WellKeyed(s)
    requires Evaluates(w, NODE_READY, s, pod, profile, s', v)
    requires PodDemand(w, pod, profile) != map[]
    ensures FindFitAnswers(w, s, PodDemand(w, pod, profile), ConstraintsOf(pod), fit)
    ensures fit.FitOn? ==>
      && v == (if fit.inflight then Verdict(false, "", Some(fit.name)) else Verdict(true, fit.name, Some(fit.name)))
      && Has(s, fit.name, fit.inflight) && HasEntry(s, fit.name)
      && s' == Reserved(w, s, fit.name, PodDemand(w, pod, profile))
    ensures fit.NoFit? ==> v == Verdict(!HasInflightSignalIn(s, ProfilePrefix(profile)), "", None) && s' == s
  {
    var demand, c := PodDemand(w, pod, profile), ConstraintsOf(pod);
    fit :| FindFitAnswers(w, s, demand, c, fit) && (s', v) == NodeReadyAfter(w, s, demand, ProfilePrefix(profile), fit);
    ReserveAfterFindSucceeds(w, s, demand, c, fit);
  }

  /** A rule changes the ledger by at most one reservation of the pod's demand. A target is an
      existing node that met the constraints, and is granted; a grant without a target is
      an in-flight hold. */
  ghost predicate VerdictSound(w: Width, s: State, pod: Pod, profile: Profile, s': State, v: Verdict) {
    var demand := PodDemand(w, pod, profile);
    && (v.grant.None? ==> s' == s && v.target == "")
    && (v.grant.Some? ==>
         && demand != map[]
         && CanReserve(w, s, v.grant.value, demand)
         && s' == Reserved(w, s, v.grant.value, demand)
         && Matches(FindEntry(s, v.grant.value), ConstraintsOf(pod))
         && (v.target != "" ==> v.target == v.grant.value && v.target in s.nodes && v.release)
         && (v.target == "" ==> v.grant.value in s.inflight && !v.release))
  }

  lemma EvaluatesSound(w: Width, rule: string, s: State, pod: Pod, profile: Profile, s': State, v: Verdict)
    requires WellKeyed(s) && Registered(rule)
    requires Evaluates(w, rule, s, pod, profile, s', v)
    ensures VerdictSound(w, s, pod, profile, s', v)
  {
    var demand, c := PodDemand(w, pod, profile), ConstraintsOf(pod);
    if demand != map[] {
      if rule == NODE_READY {
        var fit :| FindFitAnswers(w, s, demand, c, fit)
                   && (s', v) == NodeReadyAfter(w, s, demand, ProfilePrefix(profile), fit);
        ReserveAfterFindSucceeds(w, s, demand, c, fit);
      } else {
        var fit :| FindFitAnswers(w, ExistingOnly(s), demand, c, fit) && (s', v) == PackingAfter(w, s, demand, fit);
        ReserveAfterFindSucceeds(w, s, demand, c, fit);
      }
    }
  }

  lemma ReservedFrame(w: Width, s: State, name: string, demand: Amounts)
    requires HasEntry(s, name)
    ensures SameFrame(s, Reserved(w, s, name, demand))
  {
  }

  lemma FrameTransitive(s: State, t: State, u: State)
    requires SameFrame(s, t) && SameFrame(t, u)
    ensures SameFrame(s, u)
  {
  }

  lemma VerdictFrame(w: Width, s: State, pod: Pod, profile: Profile, s': State, v: Verdict)
    requires WellKeyed(s) && VerdictSound(w, s, pod, profile, s', v)
    ensures SameFrame(s, s') && WellKeyed(s')
  {
    if v.grant.Some? {
      ReservedFrame(w, s, v.grant.value, PodDemand(w, pod, profile));
    }
    FrameWellKeyed(s, s');
  }

  /** A sequence of successful reservations of one demand. */
  ghost predicate Granted(w: Width, s: State, demand: Amounts, names: seq<string>, s': State)
    decreases |names|
  {
    if names == [] then s' == s
    else
      && CanReserve(w, s, names[0], demand)
      && Granted(w, Reserved(w, s, names[0], demand), demand, names[1..], s')
  }

  /** The decision of the whole loop, target and grants included. */
  ghost predicate DecisionSound(w: Width, s: State, pod: Pod, profile: Profile, target: string,
                                s': State, d: Decision, grants: seq<string>) {
    var demand := PodDemand(w, pod, profile);
    && SameFrame(s, s')
    && Granted(w, s, demand, grants, s')
    && (forall n :: n in grants ==> HasEntry(s, n) && Matches(FindEntry(s, n), ConstraintsOf(pod)))
    && (grants != [] ==> demand != map[])
    && (d.Release? && d.target != "" && d.target != target ==> d.target in s.nodes && d.target in grants)
  }

  lemma {:induction false} LoopSound(w: Width, s: State, pod: Pod, profile: Profile, rules: seq<string>, target: string,
                                     s': State, d: Decision, grants: seq<string>)
    requires WellKeyed(s)
    requires Decides(w, s, pod, profile, rules, target, s', d, grants)
    ensures DecisionSound(w, s, pod, profile, target, s', d, grants)
    decreases |rules|
  {
    if rules != [] {
      if !Registered(rules[0]) {
        LoopSound(w, s, pod, profile, rules[1..], target, s', d, grants);
      } else {
        var s1, v, rest := Unroll(w, s, pod, profile, rules, target, s', d, grants);
        EvaluatesSound(w, rules[0], s, pod, profile, s1, v);
        VerdictFrame(w, s, pod, profile, s1, v);
        if v.release {
          LoopSound(w, s1, pod, profile, rules[1..], NextTarget(v, target), s', d, rest);
          FirstThenRest(w, s, pod, profile, target, s', d, grants, s1, v, rest);
        } else {
          HoldSound(w, s, pod, profile, target, s', d, grants, v);
        }
      }
    }
  }

  lemma HoldSound(w: Width, s: State, pod: Pod, profile: Profile, target: string,
                  s': State, d: Decision, grants: seq<string>, v: Verdict)
    requires WellKeyed(s) && VerdictSound(w, s, pod, profile, s', v) && SameFrame(s, s')
    requires d.Hold? && grants == GrantList(v)
    ensures DecisionSound(w, s, pod, profile, target, s', d, grants)
  {
    if v.grant.Some? {
      assert grants[1..] == [];
      assert Granted(w, s', PodDemand(w, pod, profile), grants[1..], s');
    }
  }

  lemma FirstThenRest(w: Width, s: State, pod: Pod, profile: Profile, target: string,
                      s': State, d: Decision, grants: seq<string>, s1: State, v: Verdict, rest: seq<string>)
    requires WellKeyed(s) && VerdictSound(w, s, pod, profile, s1, v) && SameFrame(s, s1) && v.release
    requires grants == GrantList(v) + rest
    requires DecisionSound(w, s1, pod, profile, NextTarget(v, target), s', d, rest)
    ensures DecisionSound(w, s, pod, profile, target, s', d, grants)
  {
    FrameTransitive(s, s1, s');
    forall n | n in grants ensures HasEntry(s, n) && Matches(FindEntry(s, n), ConstraintsOf(pod)) {
      if n in rest {
        FrameMatches(s, s1, n, ConstraintsOf(pod));
      }
    }
    if v.grant.Some? {
      assert grants[0] == v.grant.value && grants[1..] == rest;
    } else {
      assert grants == rest;
    }
  }

  lemma FrameMatches(s: State, t: State, n: string, c: Option<Constraints>)
    requires SameFrame(s, t) && HasEntry(t, n)
    ensures HasEntry(s, n)
    ensures Matches(FindEntry(t, n), c) <==> Matches(FindEntry(s, n), c)
  {
  }

  /** Every capacity release with a target names an existing node, never an in-flight one, that met
      the pod's tolerations and nodeSelector and on which its full demand was reserved in this very loop. */
  lemma ReleaseTargetsReserved(w: Width, s: State, pod: Pod, profile: Profile, s': State, target: string, grants: seq<string>)
    requires WellKeyed(s)
    requires Decides(w, s, pod, profile, profile.rules, "", s', Release(target), grants)
    requires target != ""
    ensures target in s.nodes && target !in s.inflight
    ensures Matches(s.nodes[target], ConstraintsOf(pod))
    ensures target in grants && PodDemand(w, pod, profile) != map[]
    ensures Granted(w, s, PodDemand(w, pod, profile), grants, s')
  {
    LoopSound(w, s, pod, profile, profile.rules, "", s', Release(target), grants);
  }

  lemma SignalFrame(s: State, t: State, prefix: string)
    requires SameFrame(s, t)
    ensures HasInflightSignalIn(s, prefix) <==> HasInflightSignalIn(t, prefix)
  {
    if HasInflightSignalIn(s, prefix) {
      var k :| k in s.inflight && HasPrefix(k, prefix) && s.inflight[k].allocatable == map[];
      assert k in t.inflight;
    }
    if HasInflightSignalIn(t, prefix) {
      var k :| k in t.inflight && HasPrefix(k, prefix) && t.inflight[k].allocatable == map[];
      assert k in s.inflight;
    }
  }

  /** Single-flight: while a node of unknown capacity is on its way for the profile, no pod with
      demand is released unpinned by a rule list containing WaitForNodeReady. */
  lemma {:induction false} SingleFlight(w: Width, s: State, pod: Pod, profile: Profile, rules: seq<string>, target: string,
                                        s': State, d: Decision, grants: seq<string>)
    requires WellKeyed(s)
    requires Decides(w, s, pod, profile, rules, target, s', d, grants)
    requires NODE_READY in rules || target != ""
    requires PodDemand(w, pod, profile) != map[]
    requires HasInflightSignalIn(s, ProfilePrefix(profile))
    ensures d.Hold? || d.target != ""
    decreases |rules|
  {
    if rules != [] {
      if !Registered(rules[0]) {
        SingleFlight(w, s, pod, profile, rules[1..], target, s', d, grants);
      } else {
        var s1, v, rest := Unroll(w, s, pod, profile, rules, target, s', d, grants);
        EvaluatesSound(w, rules[0], s, pod, profile, s1, v);
        VerdictFrame(w, s, pod, profile, s1, v);
        if v.release {
          SignalFrame(s, s1, ProfilePrefix(profile));
          if rules[0] == NODE_READY {
            NodeReadyOutcomes(w, s, pod, profile, s1, v);
          }
          SingleFlight(w, s1, pod, profile, rules[1..], NextTarget(v, target), s', d, rest);
        }
      }
    }
  }

  /** Something to wait for or to use: a signal for the profile, or an entry that fits. */
  ghost predicate Prospect(w: Width, s: State, pod: Pod, profile: Profile) {
    || HasInflightSignalIn(s, ProfilePrefix(profile))
    || exists n, i :: Candidate(w, s, PodDemand(w, pod, profile), ConstraintsOf(pod), n, i)
  }

  predicate NamesNonEmpty(s: State) {
    "" !in s.nodes && "" !in s.inflight
  }

  /** FindFit succeeds if and only if some entry fits and meets the constraints. */
  lemma FoundIffFits(w: Width, s: State, demand: Amounts, c: Option<Constraints>, fit: Fit)
    requires FindFitAnswers(w, s, demand, c, fit) && NamesNonEmpty(s)
    ensures fit.FitOn? <==> exists n, i :: Candidate(w, s, demand, c, n, i)
  {
    if fit.FitOn? {
      assert Candidate(w, s, demand, c, fit.name, fit.inflight);
    } else {
      assert forall i :: !Candidate(w, s, demand, c, "", i);
    }
  }

  /** One WaitForNodeReady evaluation passes a pod through unpinned exactly when nothing fits
      and nothing is pending for its profile. */
  lemma PassThroughIff(w: Width, s: State, pod: Pod, profile: Profile, s': State, v: Verdict)
    requires WellKeyed(s) && NamesNonEmpty(s)
    requires Evaluates(w, NODE_READY, s, pod, profile, s', v)
    requires PodDemand(w, pod, profile) != map[]
    ensures v.release && v.target == "" <==> !Prospect(w, s, pod, profile)
  {
    var demand, c := PodDemand(w, pod, profile), ConstraintsOf(pod);
    var fit := NodeReadyAnswer(w, s, pod, profile, s', v);
    FoundIffFits(w, s, demand, c, fit);
  }

  /** With a prospect, no rule list containing WaitForNodeReady releases the pod unpinned. */
  lemma {:induction false} ProspectNotPassedThrough(w: Width, s: State, pod: Pod, profile: Profile, rules: seq<string>,
                                                    s': State, d: Decision, grants: seq<string>)
    requires WellKeyed(s) && NamesNonEmpty(s)
    requires Decides(w, s, pod, profile, rules, "", s', d, grants)
    requires NODE_READY in rules && PodDemand(w, pod, profile) != map[]
    requires Prospect(w, s, pod, profile)
    ensures d.Hold? || d.target != ""
    decreases |rules|
  {
    if !Registered(rules[0]) {
      ProspectNotPassedThrough(w, s, pod, profile, rules[1..], s', d, grants);
    } else {
      var s1, v, rest := Unroll(w, s, pod, profile, rules, "", s', d, grants);
      if v.release {
        if rules[0] == NODE_READY {
          PassThroughIff(w, s, pod, profile, s1, v);
        } else {
          PackingReleasesPinned(w, s, pod, profile, s1, v);
        }
        TargetStays(w, s1, pod, profile, rules[1..], v.target, s', d, rest);
      }
    }
  }

  lemma PackingReleasesPinned(w: Width, s: State, pod: Pod, profile: Profile, s': State, v: Verdict)
    requires Evaluates(w, PACKING, s, pod, profile, s', v)
    requires PodDemand(w, pod, profile) != map[] && v.release
    ensures v.target != ""
  {
  }

  lemma {:induction false} TargetStays(w: Width, s: State, pod: Pod, profile: Profile, rules: seq<string>, target: string,
                                       s': State, d: Decision, grants: seq<string>)
    requires Decides(w, s, pod, profile, rules, target, s', d, grants) && target != ""
    ensures d.Hold? || d.target != ""
    decreases |rules|
  {
    if rules != [] {
      if !Registered(rules[0]) {
        TargetStays(w, s, pod, profile, rules[1..], target, s', d, grants);
      } else {
        var s1, v, rest := Unroll(w, s, pod, profile, rules, target, s', d, grants);
        if v.release {
          TargetStays(w, s1, pod, profile, rules[1..], NextTarget(v, target), s', d, rest);
        }
      }
    }
  }

  /** A list that starts with WaitForWorkloadPacking stops there, untouched, exactly when no existing
      node fits: WaitForNodeReady listed after it is then never asked. */
  lemma PackingFirstHoldsIff(w: Width, s: State, pod: Pod, profile: Profile, rules: seq<string>,
                             s': State, d: Decision, grants: seq<string>)
    requires WellKeyed(s) && NamesNonEmpty(s)
    requires rules != [] && rules[0] == PACKING && PodDemand(w, pod, profile) != map[]
    requires Decides(w, s, pod, profile, rules, "", s', d, grants)
    ensures d == Hold(PACKING) && s' == s && grants == [] <==>
            forall n :: !Candidate(w, s, PodDemand(w, pod, profile), ConstraintsOf(pod), n, false)
  {
    var demand, c := PodDemand(w, pod, profile), ConstraintsOf(pod);
    var s1, v, rest := Unroll(w, s, pod, profile, rules, "", s', d, grants);
    PackingGrantsIff(w, s, pod, profile, s1, v);
  }

  lemma PackingGrantsIff(w: Width, s: State, pod: Pod, profile: Profile, s': State, v: Verdict)
    requires WellKeyed(s) && NamesNonEmpty(s) && PodDemand(w, pod, profile) != map[]
    requires Evaluates(w, PACKING, s, pod, profile, s', v)
    ensures v.grant.Some? <==> v.release
    ensures v.grant.Some? <==> exists n :: Candidate(w, s, PodDemand(w, pod, profile), ConstraintsOf(pod), n, false)
    ensures v.grant.None? ==> s' == s
  {
    var demand, c := PodDemand(w, pod, profile), ConstraintsOf(pod);
    var fit :| FindFitAnswers(w, ExistingOnly(s), demand, c, fit) && (s', v) == PackingAfter(w, s, demand, fit);
    ReserveAfterFindSucceeds(w, s, demand, c, fit);
    ExistingCandidates(w, s, demand, c);
    if fit.FitOn? {
      assert Candidate(w, ExistingOnly(s), demand, c, fit.name, fit.inflight);
    } else {
      assert forall i :: !Candidate(w, ExistingOnly(s), demand, c, "", i);
    }
  }

  ghost predicate SomethingFits(w: Width, s: State, pod: Pod, profile: Profile) {
    exists n, i :: Candidate(w, s, PodDemand(w, pod, profile), ConstraintsOf(pod), n, i)
  }

  /** WaitForNodeReady, asked on this ledger, releases: an existing node is best, or nothing fits and
      nothing is pending. */
  ghost predicate NodeReadyReleases(w: Width, s: State, pod: Pod, profile: Profile) {
    || (exists n :: IsBest(w, s, PodDemand(w, pod, profile), ConstraintsOf(pod), n, false))
    || !Prospect(w, s, pod, profile)
  }

  /** WaitForNodeReady as the last rule, after one that chose a target: it reserves, on a best fit, exactly
      when something fits on the ledger it is asked on; without a grant the earlier target stands. */
  ghost predicate LastRuleDecides(w: Width, s: State, pod: Pod, profile: Profile, target: string, d: Decision, grants: seq<string>) {
    && |grants| == (if SomethingFits(w, s, pod, profile) then 1 else 0)
    && (grants != [] ==> exists i :: IsBest(w, s, PodDemand(w, pod, profile), ConstraintsOf(pod), grants[0], i))
    && (d.Release? <==> NodeReadyReleases(w, s, pod, profile))
    && d == (if d.Release? then Release(if grants == [] then target else grants[0]) else Hold(NODE_READY))
  }

  /** What the documented list [WaitForWorkloadPacking, WaitForNodeReady] does when an existing node
      fits: the first rule reserves on a tightest existing node, and the second then decides on the
      ledger with that reservation in place. So the demand is reserved twice exactly when something
      still fits, and a pod that is then held leaves the first reservation behind. */
  lemma PackingThenNodeReady(w: Width, s: State, pod: Pod, profile: Profile, rules: seq<string>,
                             s': State, d: Decision, grants: seq<string>)
    requires WellKeyed(s) && NamesNonEmpty(s) && PodDemand(w, pod, profile) != map[]
    requires rules == [PACKING, NODE_READY] && Decides(w, s, pod, profile, rules, "", s', d, grants)
    requires exists n :: Candidate(w, s, PodDemand(w, pod, profile), ConstraintsOf(pod), n, false)
    ensures grants != [] && HasEntry(s, grants[0])
    ensures IsBest(w, ExistingOnly(s), PodDemand(w, pod, profile), ConstraintsOf(pod), grants[0], false)
    ensures LastRuleDecides(w, Reserved(w, s, grants[0], PodDemand(w, pod, profile)), pod, profile, grants[0], d, grants[1..])
  {
    var s1, v, rest := Unroll(w, s, pod, profile, rules, "", s', d, grants);
    PackingGrantsIff(w, s, pod, profile, s1, v);
    var name := PackingChoice(w, s, pod, profile, s1, v);
    assert grants[0] == name && grants[1..] == rest;
    ReservedFrame(w, s, name, PodDemand(w, pod, profile));
    FrameWellKeyed(s, s1);
    NodeReadyAlone(w, s1, pod, profile, rules[1..], name, s', d, rest);
  }

  lemma PackingChoice(w: Width, s: State, pod: Pod, profile: Profile, s': State, v: Verdict) returns (name: string)
    requires WellKeyed(s) && PodDemand(w, pod, profile) != map[]
    requires Evaluates(w, PACKING, s, pod, profile, s', v) && v.grant.Some?
    ensures name != "" && name in s.nodes && v == Verdict(true, name, Some(name))
    ensures s' == Reserved(w, s, name, PodDemand(w, pod, profile))
    ensures IsBest(w, ExistingOnly(s), PodDemand(w, pod, profile), ConstraintsOf(pod), name, false)
  {
    var demand, c := PodDemand(w, pod, profile), ConstraintsOf(pod);
    var fit :| FindFitAnswers(w, ExistingOnly(s), demand, c, fit) && (s', v) == PackingAfter(w, s, demand, fit);
    name := fit.name;
    ReserveAfterFindSucceeds(w, s, demand, c, fit);
    assert Has(ExistingOnly(s), name, fit.inflight);
  }

  lemma NodeReadyAlone(w: Width, s: State, pod: Pod, profile: Profile, rules: seq<string>, target: string,
                       s': State, d: Decision, grants: seq<string>)
    requires WellKeyed(s) && NamesNonEmpty(s) && PodDemand(w, pod, profile) != map[]
    requires rules == [NODE_READY] && Decides(w, s, pod, profile, rules, target, s', d, grants)
    ensures LastRuleDecides(w, s, pod, profile, target, d, grants)
  {
    var fit := LastAnswer(w, s, pod, profile, rules, target, s', d, grants);
    AnswerDecides(w, s, pod, profile, fit);
  }

  /** The one answer that settles the loop. */
  lemma LastAnswer(w: Width, s: State, pod: Pod, profile: Profile, rules: seq<string>, target: string,
                   s': State, d: Decision, grants: seq<string>) returns (fit: Fit)
    requires WellKeyed(s) && PodDemand(w, pod, profile) != map[]
    requires rules == [NODE_READY] && Decides(w, s, pod, profile, rules, target, s', d, grants)
    ensures FindFitAnswers(w, s, PodDemand(w, pod, profile), ConstraintsOf(pod), fit)
    ensures fit.FitOn? ==> grants == [fit.name] && d == if fit.inflight then Hold(NODE_READY) else Release(fit.name)
    ensures fit.NoFit? ==> grants == [] && d == if HasInflightSignalIn(s, ProfilePrefix(profile)) then Hold(NODE_READY) else Release(target)
  {
    var s1, v, rest := Unroll(w, s, pod, profile, rules, target, s', d, grants);
    fit := NodeReadyAnswer(w, s, pod, profile, s1, v);
    assert rest == [] && grants == GrantList(v);
    if v.release {
      assert rules[1..] == [];
      assert d == Release(NextTarget(v, target));
    }
  }

  /** What the search's answer says about the ledger. */
  lemma AnswerDecides(w: Width, s: State, pod: Pod, profile: Profile, fit: Fit)
    requires NamesNonEmpty(s) && FindFitAnswers(w, s, PodDemand(w, pod, profile), ConstraintsOf(pod), fit)
    ensures fit.FitOn? <==> SomethingFits(w, s, pod, profile)
    ensures fit.FitOn? ==> exists i :: IsBest(w, s, PodDemand(w, pod, profile), ConstraintsOf(pod), fit.name, i)
    ensures NodeReadyReleases(w, s, pod, profile) <==>
            if fit.FitOn? then !fit.inflight else !HasInflightSignalIn(s, ProfilePrefix(profile))
  {
    FoundIffFits(w, s, PodDemand(w, pod, profile), ConstraintsOf(pod), fit);
    BestSide(w, s, PodDemand(w, pod, profile), ConstraintsOf(pod), fit);
  }

  /** A search answers an existing node exactly when some existing node is best. */
  lemma BestSide(w: Width, s: State, demand: Amounts, c: Option<Constraints>, fit: Fit)
    requires NamesNonEmpty(s) && FindFitAnswers(w, s, demand, c, fit)
    ensures fit.FitOn? && !fit.inflight <==> exists n :: IsBest(w, s, demand, c, n, false)
  {
    FoundIffFits(w, s, demand, c, fit);
    if n :| IsBest(w, s, demand, c, n, false) {
      assert Candidate(w, s, demand, c, n, false);
      assert Candidate(w, s, demand, c, fit.name, fit.inflight);
    }
  }

  lemma ExistingCandidates(w: Width, s: State, demand: Amounts, c: Option<Constraints>)
    ensures forall n :: Candidate(w, s, demand, c, n, false) <==> Candidate(w, ExistingOnly(s), demand, c, n, false)
    ensures forall n :: !Candidate(w, ExistingOnly(s), demand, c, n, true)
  {
  }

  /** A pod that demands nothing has nothing to wait for: every rule list releases it unpinned, and the ledger is left alone. */
  lemma {:induction false} EmptyDemandReleases(w: Width, s: State, pod: Pod, profile: Profile, rules: seq<string>,
                                               s': State, d: Decision, grants: seq<string>)
    requires PodDemand(w, pod, profile) == map[]
    requires Decides(w, s, pod, profile, rules, "", s', d, grants)
    ensures s' == s && d == Release("") && grants == []
    decreases |rules|
  {
    if rules != [] {
      if !Registered(rules[0]) {
        EmptyDemandReleases(w, s, pod, profile, rules[1..], s', d, grants);
      } else {
        var s1, v, rest := Unroll(w, s, pod, profile, rules, "", s', d, grants);
        EmptyDemandReleases(w, s1, pod, profile, rules[1..], s', d, rest);
      }
    }
  }

  /** A profile whose rules all lack an implementation releases its pods at once, unpinned. */
  lemma {:induction false} UnregisteredRulesRelease(w: Width, s: State, pod: Pod, profile: Profile, rules: seq<string>,
                                                    s': State, d: Decision, grants: seq<string>)
    requires forall rule :: rule in rules ==> rule != "WaitForNodeReady" && rule != "WaitForWorkloadPacking"
    requires Decides(w, s, pod, profile, rules, "", s', d, grants)
    ensures s' == s && d == Release("") && grants == []
    decreases |rules|
  {
    if rules != [] {
      assert rules[0] in rules && !Registered(rules[0]);
      assert forall rule :: rule in rules[1..] ==> rule in rules;
      UnregisteredRulesRelease(w, s, pod, profile, rules[1..], s', d, grants);
    }
  }
}
