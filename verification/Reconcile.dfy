/** One reconcile of a gated pod. */
module Reconcile {
  import opened Quantities
  import opened Scheduling
  import opened Objects
  import opened Ledger
  import opened Rules
  import opened Sync
  import opened Gates

  const SECOND: int := 1_000_000_000
  const DEFAULT_TIMEOUT: int := 180 * SECOND

  /** The result of a Get call. */
  datatype Lookup<+T> = Found(value: T) | NotFound | Failed

  /** Everything a reconcile reads from outside, and whether its patch will be accepted. */
  datatype Request = Request(
    pod: Lookup<Pod>,
    profile: Lookup<Profile>,
    cluster: Cluster,
    now: int,
    patchAccepted: bool)

  datatype Outcome =
    | Ignored
    | Errored
    | Retry
    | Held(rule: string)
    | Released(reason: string, target: string)

  function TimeoutOf(profile: Profile): int {
    if profile.timeout.Some? then profile.timeout.value else DEFAULT_TIMEOUT
  }

  predicate IsTimedOut(pod: Pod, profile: Profile, now: int) {
    pod.created.Some? && now - pod.created.value > TimeoutOf(profile)
  }

  /** The reconcile reaches syncLedger. */
  predicate Syncs(req: Request) {
    && req.pod.Found? && HasKompaktGates(req.pod.value) && LABEL_PROFILE in req.pod.value.labels
    && req.profile.Found?
  }

  /** ... and then the rule loop. */
  predicate RunsRules(req: Request) {
    && Syncs(req) && Listed(req.cluster)
    && LabelOf(req.pod.value.annotations, ANNOTATION_PRIORITY) != "high"
    && !IsTimedOut(req.pod.value, req.profile.value, req.now)
  }

  function OutcomeOf(d: Decision): Outcome {
    match d
    case Hold(rule) => Held(rule)
    case Release(target) => Released("capacity", target)
  }

  /** The outcome when the rule loop is not reached. */
  function EarlyOutcome(req: Request): Outcome
    requires !RunsRules(req)
  {
    if req.pod.Failed? then Errored
    else if req.pod.NotFound? || !HasKompaktGates(req.pod.value) || LABEL_PROFILE !in req.pod.value.labels then Ignored
    else if req.profile.NotFound? then Released("profile_not_found", "")
    else if req.profile.Failed? then Errored
    else if !Listed(req.cluster) then Retry
    else if LabelOf(req.pod.value.annotations, ANNOTATION_PRIORITY) == "high" then Released("priority", "")
    else Released("timeout", "")
  }

  /** One reconcile, over every search order: new ledger, outcome, and entries granted on. */
  ghost predicate Reconciles(w: Width, s: State, req: Request, s': State, out: Outcome, grants: seq<string>) {
    if !RunsRules(req) then
      && s' == (if Syncs(req) then Synced(w, s, req.profile.value, req.pod.value, req.cluster) else s)
      && out == EarlyOutcome(req)
      && grants == []
    else exists d ::
      && Decides(w, Rebuilt(w, s, req.profile.value, req.pod.value, req.cluster), req.pod.value, req.profile.value,
                 req.profile.value.rules, "", s', d, grants)
      && out == OutcomeOf(d)
  }

  /** The stored pod after the reconcile's patch. */
  function PodAfter(req: Request, out: Outcome): Pod
    requires req.pod.Found?
  {
    var pod := req.pod.value;
    if !req.patchAccepted then pod
    else
      match out
      case Released(reason, target) => ReleasedPod(pod, target, reason)
      case Held(rule) => pod.(annotations := pod.annotations[ANNOTATION_HELD_BY := rule])
      case _ => pod
  }

  class PackingProfileReconciler {
    const ledger: NodeLedger

    constructor (ledger: NodeLedger)
      ensures this.ledger == ledger
    {
      this.ledger := ledger;
    }

    /** `pod'` is the stored pod afterwards, None when there is none to patch. */
    method Reconcile(req: Request) returns (out: Outcome, pod': Option<Pod>, grants: seq<string>)
      modifies ledger
      ensures Reconciles(Int64, old(ledger.View()), req, ledger.View(), out, grants)
      ensures pod' == if req.pod.Found? then Some(PodAfter(req, out)) else None
    {
      grants := [];
      if req.pod.Failed? {
        return Errored, None, [];
      }
      if req.pod.NotFound? {
        return Ignored, None, [];
      }
      var pod := req.pod.value;
      if !HasKompaktGates(pod) || LABEL_PROFILE !in pod.labels {
        return Ignored, Some(pod), [];
      }
      if req.profile.NotFound? {
        pod' := Release(req, "", "profile_not_found");
        return Released("profile_not_found", ""), pod', [];
      }
      if req.profile.Failed? {
        return Errored, Some(pod), [];
      }
      var profile := req.profile.value;
      var synced := SyncLedger(ledger, profile, pod, req.cluster);
      if !synced {
        return Retry, Some(pod), [];
      }
      if LabelOf(pod.annotations, ANNOTATION_PRIORITY) == "high" {
        pod' := Release(req, "", "priority");
        return Released("priority", ""), pod', [];
      }
      if IsTimedOut(pod, profile, req.now) {
        pod' := Release(req, "", "timeout");
        return Released("timeout", ""), pod', [];
      }
      var d: Decision;
      d, grants := RunRules(pod, ledger, profile);
      if d.Hold? {
        if req.patchAccepted {
          pod := pod.(annotations := pod.annotations[ANNOTATION_HELD_BY := d.rule]);
        }
        return Held(d.rule), Some(pod), grants;
      }
      pod' := Release(req, d.target, "capacity");
      out := Released("capacity", d.target);
    }

    method Release(req: Request, target: string, reason: string) returns (pod': Option<Pod>)
      requires req.pod.Found?
      ensures pod' == Some(PodAfter(req, Released(reason, target)))
    {
      var p := ReleaseGatesWithAffinity(req.pod.value, target, reason);
      pod' := Some(if req.patchAccepted then p else req.pod.value);
    }
  }
}
