/** How long a pod can stay gated. */
module Gating {
  import opened Quantities
  import opened Scheduling
  import opened Ledger
  import opened Sync
  import opened Reconcile
  import opened Gates
  import opened Rebuild
  import opened Outcomes

  /** Reconciles of one pod that all ended in a hold; ledgers, clusters and rules may change freely. */
  datatype Visits = NoVisit | Visit(prev: Visits, before: State, req: Request, rule: string, grants: seq<string>, after: State)

  function Count(v: Visits): nat {
    if v.NoVisit? then 0 else Count(v.prev) + 1
  }

  /** The pod was created at `created`, its profile's timeout never exceeds `limit`, and reconciles
      are at least the one-second requeue interval apart. */
  ghost predicate AllHeld(w: Width, v: Visits, created: int, limit: int) {
    match v
    case NoVisit => true
    case Visit(prev, before, req, rule, grants, after) =>
      && AllHeld(w, prev, created, limit)
      && Reconciles(w, before, req, after, Held(rule), grants)
      && req.pod.Found? && req.pod.value.created == Some(created)
      && req.profile.Found? && Allowance(req.profile.value) <= limit
      && req.now >= (if prev.NoVisit? then created else prev.req.now + SECOND)
  }

  lemma HeldBeforeDeadline(w: Width, s: State, req: Request, s': State, rule: string, grants: seq<string>)
    requires Reconciles(w, s, req, s', Held(rule), grants)
    ensures RulesDecide(req)
  {
    OutcomeCases(w, s, req, s', Held(rule), grants);
  }

  lemma {:induction false} LastVisitIsLate(w: Width, v: Visits, created: int, limit: int)
    requires AllHeld(w, v, created, limit) && v.Visit?
    ensures v.req.now >= created + (Count(v) - 1) * SECOND
  {
    if v.prev.Visit? {
      LastVisitIsLate(w, v.prev, created, limit);
    }
  }

  /** BOUNDED GATING. Whatever the rules answer and however the cluster changes, a pod is held at
      most once per second of its timeout, plus one. */
  lemma BoundedGating(w: Width, v: Visits, created: int, limit: int)
    requires AllHeld(w, v, created, limit)
    ensures Count(v) <= limit / SECOND + 1 || v.NoVisit?
  {
    if v.Visit? {
      LastVisitIsLate(w, v, created, limit);
      HeldBeforeDeadline(w, v.before, v.req, v.after, v.rule, v.grants);
      assert (Count(v) - 1) * SECOND <= limit;
    }
  }

  /** The safety net fires exactly when the sync went through and the patch was accepted: an overdue
      pod loses all its gates if and only if both list calls succeeded and the API took the patch. */
  lemma TimeoutReleases(w: Width, s: State, req: Request, s': State, out: Outcome, grants: seq<string>)
    requires Reconciles(w, s, req, s', out, grants)
    requires GoesOn(req) && Overdue(req.pod.value, req.profile.value, req.now)
    ensures !HasKompaktGates(PodAfter(req, out)) <==> Listed(req.cluster) && req.patchAccepted
    ensures !HasKompaktGates(PodAfter(req, out)) ==> PodAfter(req, out).gates == WithoutKompakt(req.pod.value.gates)
  {
    OutcomeCases(w, s, req, s', out, grants);
    ReachesRulesIff(req);
    WithoutKompaktClean(req.pod.value.gates);
  }

  /** While a list call keeps failing neither the timeout nor high priority releases the pod, and
      every reservation on an existing node is gone. */
  lemma FailedSyncKeepsGates(w: Width, s: State, req: Request, s': State, out: Outcome, grants: seq<string>)
    requires Reconciles(w, s, req, s', out, grants)
    requires GoesOn(req) && (req.cluster.nodes.None? || req.cluster.pods.None?)
    ensures out == Retry && PodAfter(req, out) == req.pod.value && HasKompaktGates(PodAfter(req, out))
    ensures forall k :: k in s'.nodes ==> s'.nodes[k].reserved == map[]
    ensures forall k :: k in s'.inflight <==> k in s.inflight && !(req.profile.value.name + "/" <= k)
    ensures forall k :: k in s'.inflight ==> s'.inflight[k] == s.inflight[k]
  {
    ReachesRulesIff(req);
    forall k | k in s'.nodes ensures s'.nodes[k].reserved == map[] {
      ListedAt(req.cluster.nodes.value, req.profile.value, k);
    }
  }

  /** A reconcile removes either all Kompakt gates or none, and touches no other gate. */
  lemma GatesAllOrNothing(w: Width, s: State, req: Request, s': State, out: Outcome, grants: seq<string>)
    requires Reconciles(w, s, req, s', out, grants) && req.pod.Found?
    ensures out.Released? && req.patchAccepted ==> !HasKompaktGates(PodAfter(req, out))
    ensures !(out.Released? && req.patchAccepted) ==> PodAfter(req, out).gates == req.pod.value.gates
    ensures WithoutKompakt(PodAfter(req, out).gates) == WithoutKompakt(req.pod.value.gates)
  {
    WithoutKompaktClean(req.pod.value.gates);
    WithoutKompaktKeeps(WithoutKompakt(req.pod.value.gates));
  }
}
