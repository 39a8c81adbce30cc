/** The two registered rules, and the loop that runs a profile's ordered rule list. */
module Rules {
  import opened Quantities
  import opened Scheduling
  import opened Objects
  import opened Ledger
  import Demand

  const NODE_READY := "WaitForNodeReady"
  const PACKING := "WaitForWorkloadPacking"

  predicate Registered(rule: string) {
    rule == NODE_READY || rule == PACKING
  }

  /** A rule's answer. `grant` names the entry its Reserve call succeeded on, if any. */
  datatype Verdict = Verdict(release: bool, target: string, grant: Option<string>)

  function GrantList(v: Verdict): seq<string> {
    if v.grant.Some? then [v.grant.value] else []
  }

  datatype Decision = Hold(rule: string) | Release(target: string)

  function ProfilePrefix(profile: Profile): string {
    profile.name + "/"
  }

  function PodDemand(w: Width, pod: Pod, profile: Profile): Amounts {
    Demand.DemandOf(w, pod, profile.demandSource)
  }

  /** WaitForNodeReady once the search has answered. */
  function NodeReadyAfter(w: Width, s: State, demand: Amounts, prefix: string, fit: Fit): (State, Verdict) {
    match fit
    case NoFit => (s, Verdict(!HasInflightSignalIn(s, prefix), "", None))
    case FitOn(name, inflight) =>
      if inflight then
        if CanReserve(w, s, name, demand) then (Reserved(w, s, name, demand), Verdict(false, "", Some(name)))
        else (s, Verdict(true, "", None))
      else
        if CanReserve(w, s, name, demand) then (Reserved(w, s, name, demand), Verdict(true, name, Some(name)))
        else (s, Verdict(false, "", None))
  }

  /** WaitForWorkloadPacking once the search has answered. */
  function PackingAfter(w: Width, s: State, demand: Amounts, fit: Fit): (State, Verdict) {
    if fit.FitOn? && CanReserve(w, s, fit.name, demand)
    then (Reserved(w, s, fit.name, demand), Verdict(true, fit.name, Some(fit.name)))
    else (s, Verdict(false, "", None))
  }

  /** What one registered rule may do to the ledger and answer, over every search order. */
  ghost predicate Evaluates(w: Width, rule: string, s: State, pod: Pod, profile: Profile, s': State, v: Verdict) {
    var demand := PodDemand(w, pod, profile);
    if demand == map[] then s' == s && v == Verdict(true, "", None)
    else if rule == NODE_READY then
      exists fit :: FindFitAnswers(w, s, demand, ConstraintsOf(pod), fit)
                    && (s', v) == NodeReadyAfter(w, s, demand, ProfilePrefix(profile), fit)
    else
      exists fit :: FindFitAnswers(w, ExistingOnly(s), demand, ConstraintsOf(pod), fit)
                    && (s', v) == PackingAfter(w, s, demand, fit)
  }

  function NextTarget(v: Verdict, target: string): string {
    if v.target != "" then v.target else target
  }

  /** The rule loop from a suffix of the rule list: unknown rules are skipped, the first
      holding rule stops it, a later target replaces an earlier one. */
  ghost predicate Decides(w: Width, s: State, pod: Pod, profile: Profile, rules: seq<string>, target: string,
                          s': State, d: Decision, grants: seq<string>)
    decreases |rules|
  {
    if rules == [] then s' == s && d == Release(target) && grants == []
    else if !Registered(rules[0]) then Decides(w, s, pod, profile, rules[1..], target, s', d, grants)
    else exists s1, v :: DecidesFirst(w, s, pod, profile, rules, target, s', d, grants, s1, v)
  }

  ghost predicate DecidesFirst(w: Width, s: State, pod: Pod, profile: Profile, rules: seq<string>, target: string,
                               s': State, d: Decision, grants: seq<string>, s1: State, v: Verdict)
    requires rules != []
    decreases |rules|, 0
  {
    && Evaluates(w, rules[0], s, pod, profile, s1, v)
    && GrantList(v) <= grants
    && if !v.release then s' == s1 && d == Hold(rules[0]) && grants == GrantList(v)
       else Decides(w, s1, pod, profile, rules[1..], NextTarget(v, target), s', d, grants[|GrantList(v)|..])
  }

  method EvaluateNodeReady(pod: Pod, l: NodeLedger, profile: Profile) returns (v: Verdict)
    modifies l
    ensures Evaluates(Int64, NODE_READY, old(l.View()), pod, profile, l.View(), v)
  {
    var demand := Demand.ExtractDemand(pod, profile.demandSource);
    if demand == map[] {
      return Verdict(true, "", None);
    }
    ghost var s := l.View();
    var fit := l.FindFit(demand, ConstraintsOf(pod));
    if fit.NoFit? {
      var signal := l.HasInflightSignal(ProfilePrefix(profile));
      v := Verdict(!signal, "", None);
    } else {
      var ok := l.Reserve(fit.name, demand);
      if fit.inflight {
        v := if ok then Verdict(false, "", Some(fit.name)) else Verdict(true, "", None);
      } else {
        v := if ok then Verdict(true, fit.name, Some(fit.name)) else Verdict(false, "", None);
      }
    }
    assert (l.View(), v) == NodeReadyAfter(Int64, s, demand, ProfilePrefix(profile), fit);
  }

  method EvaluatePacking(pod: Pod, l: NodeLedger, profile: Profile) returns (v: Verdict)
    modifies l
    ensures Evaluates(Int64, PACKING, old(l.View()), pod, profile, l.View(), v)
  {
    var demand := Demand.ExtractDemand(pod, profile.demandSource);
    if demand == map[] {
      return Verdict(true, "", None);
    }
    ghost var s := l.View();
    var fit := l.FindFitExisting(demand, ConstraintsOf(pod));
    v := Verdict(false, "", None);
    if fit.FitOn? {
      var ok := l.Reserve(fit.name, demand);
      if ok {
        v := Verdict(true, fit.name, Some(fit.name));
      }
    }
    assert (l.View(), v) == PackingAfter(Int64, s, demand, fit);
  }

  lemma PrependRelease(w: Width, s: State, pod: Pod, profile: Profile, rules: seq<string>, target: string,
                       s1: State, v: Verdict, s': State, d: Decision, grants: seq<string>)
    requires rules != [] && Registered(rules[0]) && v.release
    requires Evaluates(w, rules[0], s, pod, profile, s1, v)
    requires Decides(w, s1, pod, profile, rules[1..], NextTarget(v, target), s', d, grants)
    ensures Decides(w, s, pod, profile, rules, target, s', d, GrantList(v) + grants)
  {
    assert (GrantList(v) + grants)[|GrantList(v)|..] == grants;
    assert DecidesFirst(w, s, pod, profile, rules, target, s', d, GrantList(v) + grants, s1, v);
  }

  lemma HoldDecides(w: Width, s: State, pod: Pod, profile: Profile, rules: seq<string>, target: string, s1: State, v: Verdict)
    requires rules != [] && Registered(rules[0]) && !v.release
    requires Evaluates(w, rules[0], s, pod, profile, s1, v)
    ensures Decides(w, s, pod, profile, rules, target, s1, Hold(rules[0]), GrantList(v))
  {
    assert DecidesFirst(w, s, pod, profile, rules, target, s1, Hold(rules[0]), GrantList(v), s1, v);
  }

  /** The first registered rule of a decision, and the decision of the rest. */
  lemma Unroll(w: Width, s: State, pod: Pod, profile: Profile, rules: seq<string>, target: string,
               s': State, d: Decision, grants: seq<string>)
    returns (s1: State, v: Verdict, rest: seq<string>)
    requires rules != [] && Registered(rules[0])
    requires Decides(w, s, pod, profile, rules, target, s', d, grants)
    ensures Evaluates(w, rules[0], s, pod, profile, s1, v)
    ensures grants == GrantList(v) + rest
    ensures !v.release ==> s' == s1 && d == Hold(rules[0]) && rest == []
    ensures v.release ==> Decides(w, s1, pod, profile, rules[1..], NextTarget(v, target), s', d, rest)
  {
    s1, v := FirstEvaluation(w, s, pod, profile, rules, target, s', d, grants);
    rest := AfterFirst(w, s, pod, profile, rules, target, s', d, grants, s1, v);
  }

  lemma AfterFirst(w: Width, s: State, pod: Pod, profile: Profile, rules: seq<string>, target: string,
                   s': State, d: Decision, grants: seq<string>, s1: State, v: Verdict)
    returns (rest: seq<string>)
    requires rules != [] && DecidesFirst(w, s, pod, profile, rules, target, s', d, grants, s1, v)
    ensures Evaluates(w, rules[0], s, pod, profile, s1, v)
    ensures grants == GrantList(v) + rest
    ensures !v.release ==> s' == s1 && d == Hold(rules[0]) && rest == []
    ensures v.release ==> Decides(w, s1, pod, profile, rules[1..], NextTarget(v, target), s', d, rest)
  {
    rest := grants[|GrantList(v)|..];
  }

  lemma FirstEvaluation(w: Width, s: State, pod: Pod, profile: Profile, rules: seq<string>, target: string,
                        s': State, d: Decision, grants: seq<string>)
    returns (s1: State, v: Verdict)
    requires rules != [] && Registered(rules[0])
    requires Decides(w, s, pod, profile, rules, target, s', d, grants)
    ensures DecidesFirst(w, s, pod, profile, rules, target, s', d, grants, s1, v)
  {
    s1, v :| DecidesFirst(w, s, pod, profile, rules, target, s', d, grants, s1, v);
  }

  method Evaluate(rule: string, pod: Pod, l: NodeLedger, profile: Profile) returns (v: Verdict)
    requires Registered(rule)
    modifies l
    ensures Evaluates(Int64, rule, old(l.View()), pod, profile, l.View(), v)
  {
    if rule == NODE_READY {
      v := EvaluateNodeReady(pod, l, profile);
    } else {
      v := EvaluatePacking(pod, l, profile);
    }
  }

  type Result = (State, Decision, seq<string>) -> bool

  /** The decisions the loop can reach from here. */
  ghost function Reachable(now: State, pod: Pod, profile: Profile, rest: seq<string>, target: string): Result {
    (s', d, g) => Decides(Int64, now, pod, profile, rest, target, s', d, g)
  }

  /** Whatever is reached from here, after the grants so far, meets the goal. */
  ghost predicate OnCourse(goal: Result, here: Result, soFar: seq<string>) {
    forall s', d, g :: here(s', d, g) ==> goal(s', d, soFar + g)
  }

  lemma OnCourseTransitive(goal: Result, here: Result, there: Result, soFar: seq<string>, more: seq<string>)
    requires OnCourse(goal, here, soFar) && OnCourse(here, there, more)
    ensures OnCourse(goal, there, soFar + more)
  {
    forall s', d, g | there(s', d, g) ensures goal(s', d, soFar + more + g) {
      assert here(s', d, more + g);
      assert soFar + (more + g) == soFar + more + g;
    }
  }

  lemma ReleaseStaysOnCourse(now: State, pod: Pod, profile: Profile, rest: seq<string>, target: string, s1: State, v: Verdict)
    requires rest != [] && Registered(rest[0]) && v.release
    requires Evaluates(Int64, rest[0], now, pod, profile, s1, v)
    ensures OnCourse(Reachable(now, pod, profile, rest, target),
                     Reachable(s1, pod, profile, rest[1..], NextTarget(v, target)), GrantList(v))
  {
    forall s', d, g | Reachable(s1, pod, profile, rest[1..], NextTarget(v, target))(s', d, g)
      ensures Reachable(now, pod, profile, rest, target)(s', d, GrantList(v) + g)
    {
      PrependRelease(Int64, now, pod, profile, rest, target, s1, v, s', d, g);
    }
  }

  lemma SkipStaysOnCourse(now: State, pod: Pod, profile: Profile, rest: seq<string>, target: string)
    requires rest != [] && !Registered(rest[0])
    ensures OnCourse(Reachable(now, pod, profile, rest, target), Reachable(now, pod, profile, rest[1..], target), [])
  {
    forall s', d, g | Reachable(now, pod, profile, rest[1..], target)(s', d, g)
      ensures Reachable(now, pod, profile, rest, target)(s', d, [] + g)
    {
      assert [] + g == g;
    }
  }

  /** The rule loop of a reconcile. */
  method RunRules(pod: Pod, l: NodeLedger, profile: Profile) returns (d: Decision, grants: seq<string>)
    modifies l
    ensures Decides(Int64, old(l.View()), pod, profile, profile.rules, "", l.View(), d, grants)
  {
    var rules := profile.rules;
    ghost var goal := Reachable(l.View(), pod, profile, rules, "");
    var target := "";
    grants := [];
    var i := 0;
    assert rules[0..] == rules;
    assert forall g: seq<string> :: grants + g == g;
    while i < |rules|
      invariant 0 <= i <= |rules|
      invariant OnCourse(goal, Reachable(l.View(), pod, profile, rules[i..], target), grants)
    {
      ghost var now, rest := l.View(), rules[i..];
      assert rest[0] == rules[i] && rest[1..] == rules[i + 1..];
      ghost var here := Reachable(now, pod, profile, rest, target);
      if Registered(rules[i]) {
        var v := Evaluate(rules[i], pod, l, profile);
        if !v.release {
          HoldDecides(Int64, now, pod, profile, rest, target, l.View(), v);
          assert here(l.View(), Hold(rules[i]), GrantList(v));
          return Hold(rules[i]), grants + GrantList(v);
        }
        ReleaseStaysOnCourse(now, pod, profile, rest, target, l.View(), v);
        OnCourseTransitive(goal, here, Reachable(l.View(), pod, profile, rest[1..], NextTarget(v, target)), grants, GrantList(v));
        grants := grants + GrantList(v);
        target := NextTarget(v, target);
      } else {
        SkipStaysOnCourse(now, pod, profile, rest, target);
        OnCourseTransitive(goal, here, Reachable(now, pod, profile, rest[1..], target), grants, []);
        assert grants + [] == grants;
      }
      i := i + 1;
    }
    assert rules[i..] == [];
    assert Reachable(l.View(), pod, profile, rules[i..], target)(l.View(), Release(target), []);
    assert grants + [] == grants;
    d := Release(target);
  }
}
