/** What a search answers, told from the entries' own fields: no predicate of the search itself appears in the
    account, so it can be read beside the code. */
module Placement {
  import opened Quantities
  import opened Scheduling
  import opened Objects
  import opened Ledger
  import opened Rules
  import opened Rebuild
  import opened RuleLoop

  /** What is free of each demanded resource. */
  function Free(e: Entry, demand: Amounts): Amounts {
    map r | r in demand :: Get(e.allocatable, r) - Get(e.used, r) - Get(e.reserved, r)
  }

  /** The entry may take the pod and has room for the demand. */
  predicate CouldTake(e: Entry, pod: Pod, demand: Amounts) {
    && Admits(e.labels, e.taints, Constraints(pod.tolerations, pod.nodeSelector))
    && forall r :: r in demand ==> demand[r] <= Free(e, demand)[r]
  }

  /** What would be left over, in total. */
  ghost function Spare(e: Entry, demand: Amounts): int {
    MapSum(Free(e, demand)) - MapSum(demand)
  }

  ghost predicate Takes(s: State, pod: Pod, demand: Amounts, n: string, inflight: bool) {
    if inflight then n in s.inflight && CouldTake(s.inflight[n], pod, demand)
    else n in s.nodes && CouldTake(s.nodes[n], pod, demand)
  }

  ghost function SpareAt(s: State, demand: Amounts, n: string, inflight: bool): int
    requires if inflight then n in s.inflight else n in s.nodes
  {
    if inflight then Spare(s.inflight[n], demand) else Spare(s.nodes[n], demand)
  }

  /** Best fit: an entry that could take the pod and leaves least spare, an in-flight one only if it leaves strictly
      less than every existing node that could; nothing when no entry could. */
  ghost predicate IsBestFit(s: State, pod: Pod, demand: Amounts, fit: Fit) {
    match fit
    case NoFit => forall n, i :: !Takes(s, pod, demand, n, i)
    case FitOn(n, i) =>
      && Takes(s, pod, demand, n, i)
      && forall m, j :: Takes(s, pod, demand, m, j) ==>
        SpareAt(s, demand, n, i) <= SpareAt(s, demand, m, j) && (i && !j ==> SpareAt(s, demand, n, i) < SpareAt(s, demand, m, j))
  }

  lemma {:induction false} SpareIsSlack(free: Amounts, demand: Amounts, left: Amounts)
    requires free.Keys == demand.Keys == left.Keys
    requires forall r :: r in demand ==> left[r] == free[r] - demand[r]
    ensures MapSum(left) == MapSum(free) - MapSum(demand)
    decreases |demand|
  {
    if demand == map[] {
      assert free == map[] && left == map[];
    } else {
      var r :| r in demand;
      MapSumRemove(demand, r);
      MapSumRemove(free, r);
      MapSumRemove(left, r);
      SpareIsSlack(free - {r}, demand - {r}, left - {r});
    }
  }

  lemma CandidateIff(s: State, pod: Pod, demand: Amounts, n: string, i: bool)
    ensures Candidate(Unbounded, s, demand, ConstraintsOf(pod), n, i) <==> Takes(s, pod, demand, n, i)
    ensures Takes(s, pod, demand, n, i) ==> Slack(Unbounded, EntryAt(s, n, i), demand) == SpareAt(s, demand, n, i)
  {
    if Has(s, n, i) {
      var e := EntryAt(s, n, i);
      ChecksAdmit(e.labels, e.taints, Constraints(pod.tolerations, pod.nodeSelector));
      assert forall r :: r in demand ==> Free(e, demand)[r] == Available(Unbounded, e, r);
      SpareIsSlack(Free(e, demand), demand, Leftovers(Unbounded, e, demand));
    }
  }

  lemma BestIff(s: State, pod: Pod, demand: Amounts, n: string, i: bool)
    ensures IsBest(Unbounded, s, demand, ConstraintsOf(pod), n, i) <==> IsBestFit(s, pod, demand, FitOn(n, i))
  {
    forall m, j
      ensures Candidate(Unbounded, s, demand, ConstraintsOf(pod), m, j) <==> Takes(s, pod, demand, m, j)
      ensures Takes(s, pod, demand, m, j) ==> Slack(Unbounded, EntryAt(s, m, j), demand) == SpareAt(s, demand, m, j)
    {
      CandidateIff(s, pod, demand, m, j);
    }
  }

  /** THE SEARCH IS BEST FIT. For non-empty names, what a search for a pod may answer is exactly a best fit. */
  lemma SearchIsBestFit(s: State, pod: Pod, demand: Amounts, fit: Fit)
    requires NamesNonEmpty(s)
    ensures FindFitAnswers(Unbounded, s, demand, ConstraintsOf(pod), fit) <==> IsBestFit(s, pod, demand, fit)
  {
    if fit.FitOn? {
      BestIff(s, pod, demand, fit.name, fit.inflight);
    } else {
      forall n, i ensures Candidate(Unbounded, s, demand, ConstraintsOf(pod), n, i) <==> Takes(s, pod, demand, n, i) {
        CandidateIff(s, pod, demand, n, i);
      }
      if FindFitAnswers(Unbounded, s, demand, ConstraintsOf(pod), fit) {
        FoundIffFits(Unbounded, s, demand, ConstraintsOf(pod), fit);
      }
    }
  }

  /** Bin-packing looks at existing nodes alone. */
  lemma PackingSearchIsBestFit(s: State, pod: Pod, demand: Amounts, fit: Fit)
    requires NamesNonEmpty(s)
    ensures FindFitAnswers(Unbounded, ExistingOnly(s), demand, ConstraintsOf(pod), fit) <==>
      match fit
      case NoFit => forall n :: n in s.nodes ==> !CouldTake(s.nodes[n], pod, demand)
      case FitOn(n, i) =>
        && !i && n in s.nodes && CouldTake(s.nodes[n], pod, demand)
        && forall m :: m in s.nodes && CouldTake(s.nodes[m], pod, demand) ==> Spare(s.nodes[n], demand) <= Spare(s.nodes[m], demand)
  {
    var s1 := ExistingOnly(s);
    SearchIsBestFit(s1, pod, demand, fit);
    assert forall n :: Takes(s1, pod, demand, n, false) <==> n in s.nodes && CouldTake(s.nodes[n], pod, demand);
    assert forall n :: !Takes(s1, pod, demand, n, true);
  }

  /** Every grant of a reconcile's rules is on an entry that may take the pod, by its labels and taints. */
  lemma GrantsAdmit(w: Width, s: State, pod: Pod, profile: Profile, s': State, d: Decision, grants: seq<string>, n: string)
    requires WellKeyed(s) && n in grants
    requires Decides(w, s, pod, profile, profile.rules, "", s', d, grants)
    ensures HasEntry(s, n)
    ensures Admits(FindEntry(s, n).labels, FindEntry(s, n).taints, Constraints(pod.tolerations, pod.nodeSelector))
  {
    LoopSound(w, s, pod, profile, profile.rules, "", s', d, grants);
    var e := FindEntry(s, n);
    ChecksAdmit(e.labels, e.taints, Constraints(pod.tolerations, pod.nodeSelector));
  }
}
