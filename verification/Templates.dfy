/** Template enrichment of in-flight nodes, and the ledger's constraint check on the result. */
module Templates {
  import opened Quantities
  import opened Scheduling
  import opened Objects
  import opened Ledger
  import opened Rules
  import opened Sync
  import opened Rebuild
  import opened RuleLoop
  import opened Reconcile

  /** A template that may take the pod, by the labels and taints it promises. */
  predicate TemplateAdmits(t: Template, pod: Pod) {
    Admits(t.labels, t.taints, Constraints(pod.tolerations, pod.nodeSelector))
  }

  /** The first of the templates that meet a condition. */
  ghost predicate IsFirst(t: Option<Template>, templates: seq<Template>, good: Template -> bool) {
    match t
    case Some(x) => exists i :: 0 <= i < |templates| && templates[i] == x && good(x) && forall j :: 0 <= j < i ==> !good(templates[j])
    case None => forall x :: x in templates ==> !good(x)
  }

  lemma FirstStep(t: Option<Template>, templates: seq<Template>, good: Template -> bool)
    requires templates != []
    requires if good(templates[0]) then t == Some(templates[0]) else IsFirst(t, templates[1..], good)
    ensures IsFirst(t, templates, good)
  {
    if good(templates[0]) {
      assert templates[0] == t.value;
    } else if t.Some? {
      var i :| 0 <= i < |templates[1..]| && templates[1..][i] == t.value && good(t.value)
               && forall j :: 0 <= j < i ==> !good(templates[1..][j]);
      assert templates[i + 1] == t.value;
      forall j | 0 <= j < i + 1 ensures !good(templates[j]) {
        assert j > 0 ==> templates[j] == templates[1..][j - 1];
      }
    }
  }

  /** The template found for a pod is the first that may take it, and none is found only if none may. */
  lemma {:induction false} TemplateForPodIsFirst(pod: Pod, templates: seq<Template>)
    ensures IsFirst(FindTemplateForPod(pod, templates), templates, t => TemplateAdmits(t, pod))
  {
    if templates != [] {
      var t := templates[0];
      ChecksAdmit(t.labels, t.taints, Constraints(pod.tolerations, pod.nodeSelector));
      TemplateForPodIsFirst(pod, templates[1..]);
      FirstStep(FindTemplateForPod(pod, templates), templates, t => TemplateAdmits(t, pod));
    }
  }

  /** The template is for the node's instance type, which both must state. */
  predicate ForInstanceType(t: Template, n: InflightNode) {
    t.instanceType != "" && t.instanceType == n.instanceType
  }

  /** The template is for nodes whose name starts with its prefix, which it must state. */
  predicate ForName(t: Template, n: InflightNode) {
    t.namePrefix != "" && |t.namePrefix| <= |n.name| && n.name[..|t.namePrefix|] == t.namePrefix
  }

  lemma {:induction false} InstanceTypeIsFirst(n: InflightNode, templates: seq<Template>)
    ensures IsFirst(FirstByInstanceType(n, templates), templates, t => ForInstanceType(t, n))
  {
    if templates != [] {
      InstanceTypeIsFirst(n, templates[1..]);
      FirstStep(FirstByInstanceType(n, templates), templates, t => ForInstanceType(t, n));
    }
  }

  lemma {:induction false} NamePrefixIsFirst(n: InflightNode, templates: seq<Template>)
    ensures IsFirst(FirstByNamePrefix(n, templates), templates, t => ForName(t, n))
  {
    if templates != [] {
      NamePrefixIsFirst(n, templates[1..]);
      FirstStep(FirstByNamePrefix(n, templates), templates, t => ForName(t, n));
    }
  }

  /** WHICH TEMPLATE. The first for the node's instance type; if there is none, the first for its name; if there is none
      either, the first that may take the pod. */
  lemma TemplateOrder(n: InflightNode, pod: Pod, profile: Profile)
    ensures var ts, chosen := profile.templates, TemplateFor(n, pod, profile);
      if exists t :: t in ts && ForInstanceType(t, n) then chosen.Some? && IsFirst(chosen, ts, t => ForInstanceType(t, n))
      else if exists t :: t in ts && ForName(t, n) then chosen.Some? && IsFirst(chosen, ts, t => ForName(t, n))
      else IsFirst(chosen, ts, t => TemplateAdmits(t, pod))
  {
    InstanceTypeIsFirst(n, profile.templates);
    NamePrefixIsFirst(n, profile.templates);
    TemplateForPodIsFirst(pod, profile.templates);
    IsFirstSome(FirstByInstanceType(n, profile.templates), profile.templates, t => ForInstanceType(t, n));
    IsFirstSome(FirstByNamePrefix(n, profile.templates), profile.templates, t => ForName(t, n));
  }

  lemma IsFirstSome(t: Option<Template>, templates: seq<Template>, good: Template -> bool)
    requires IsFirst(t, templates, good)
    ensures t.Some? <==> exists x :: x in templates && good(x)
    ensures t.Some? ==> t.value in templates && good(t.value)
  {
  }

  /** A template fills gaps: what the node reports of itself stays, and taints come from the template alone. A node that
      reports nothing and has no template is of unknown capacity. Usage and reservations start empty. */
  lemma TemplateFillsGaps(n: InflightNode, pod: Pod, profile: Profile)
    ensures var e, t := InflightEntry(n, pod, profile), TemplateFor(n, pod, profile);
      && e.used == map[] == e.reserved
      && (n.allocatable != map[] ==> e.allocatable == n.allocatable)
      && (n.labels != map[] ==> e.labels == n.labels)
      && (t.Some? && n.allocatable == map[] ==> e.allocatable == t.value.allocatable)
      && (t.Some? && n.labels == map[] ==> e.labels == t.value.labels)
      && e.taints == (if t.Some? then t.value.taints else [])
      && (t.None? && n.allocatable == map[] ==> e.allocatable == map[])
      && (t.None? && n.labels == map[] ==> e.labels == map[])
  {
  }

  /** TEMPLATE AGREEMENT. A detected node enriched by the template chosen for a pod passes that pod's
      constraint check if and only if it brought no labels of its own, or labels the pod selects. */
  lemma ChosenTemplateAdmits(n: InflightNode, pod: Pod, profile: Profile)
    requires FindMatchingTemplate(n, profile.templates).None?
    requires FindTemplateForPod(pod, profile.templates).Some?
    ensures Matches(InflightEntry(n, pod, profile), ConstraintsOf(pod)) <==>
            n.labels == map[] || SelectorMatches(pod.nodeSelector, n.labels)
  {
    TemplateForPodIsFirst(pod, profile.templates);
    IsFirstSome(FindTemplateForPod(pod, profile.templates), profile.templates, t => TemplateAdmits(t, pod));
    var e, c := InflightEntry(n, pod, profile), Constraints(pod.tolerations, pod.nodeSelector);
    var t := FindTemplateForPod(pod, profile.templates).value;
    ChecksAdmit(t.labels, t.taints, c);
    ChecksAdmit(e.labels, e.taints, c);
  }

  /** A detected node with labels of its own can fail the check even under the pod's own template. */
  lemma OwnLabelsCanFail(pod: Pod, profile: Profile, n: InflightNode)
    requires pod.nodeSelector == map["pool" := "gpu"] && pod.tolerations == []
    requires profile.templates == [Template("", "", map["cpu" := 4000], map["pool" := "gpu"], [])]
    requires n == InflightNode("x", map[], map["zone" := "a"], "")
    ensures FindTemplateForPod(pod, profile.templates).Some?
    ensures !Matches(InflightEntry(n, pod, profile), ConstraintsOf(pod))
  {
    assert profile.templates[1..] == [];
    assert "zone" in n.labels && n.labels != map[];
    assert "pool" in pod.nodeSelector && "pool" !in n.labels;
    assert InflightEntry(n, pod, profile).labels == n.labels;
    assert LabelOf(n.labels, "pool") != pod.nodeSelector["pool"];
  }

  /** ... so when what the template promises, less the restored reservations, covers the demand,
      the pod is not passed through unpinned. */
  lemma EnrichedNodeIsAwaited(s: State, pod: Pod, profile: Profile, cluster: Cluster, n: InflightNode,
                              s': State, d: Decision, grants: seq<string>)
    requires WellKeyed(s) && NamesValid(cluster) && Listed(cluster)
    requires n in Detected(cluster.detections) && n.labels == map[]
    requires forall m :: m in Detected(cluster.detections) && m.name == n.name ==> m == n
    requires FindMatchingTemplate(n, profile.templates).None? && FindTemplateForPod(pod, profile.templates).Some?
    requires var t := Rebuilt(Unbounded, s, profile, pod, cluster); var key := InflightKey(profile, n.name);
      && "" !in t.nodes
      && Fits(Unbounded, InflightEntry(n, pod, profile).(reserved := if key in s.inflight then s.inflight[key].reserved else map[]),
              PodDemand(Unbounded, pod, profile))
    requires NODE_READY in profile.rules && PodDemand(Unbounded, pod, profile) != map[]
    requires Decides(Unbounded, Rebuilt(Unbounded, s, profile, pod, cluster), pod, profile, profile.rules, "", s', d, grants)
    ensures d.Hold? || d.target != ""
  {
    var t, key := Rebuilt(Unbounded, s, profile, pod, cluster), InflightKey(profile, n.name);
    SyncedWellKeyed(Unbounded, s, profile, pod, cluster);
    EnrichedEntry(s, pod, profile, cluster, n);
    ChosenTemplateAdmits(n, pod, profile);
    assert Candidate(Unbounded, t, PodDemand(Unbounded, pod, profile), ConstraintsOf(pod), key, true);
    ProspectNotPassedThrough(Unbounded, t, pod, profile, profile.rules, s', d, grants);
  }

  lemma EnrichedEntry(s: State, pod: Pod, profile: Profile, cluster: Cluster, n: InflightNode)
    requires WellKeyed(s) && NamesValid(cluster) && Listed(cluster)
    requires n in Detected(cluster.detections)
    requires forall m :: m in Detected(cluster.detections) && m.name == n.name ==> m == n
    ensures var t, key := Rebuilt(Unbounded, s, profile, pod, cluster), InflightKey(profile, n.name);
      && key in t.inflight
      && t.inflight[key] == InflightEntry(n, pod, profile).(
           reserved := if key in s.inflight then s.inflight[key].reserved else map[])
  {
    var key, found := InflightKey(profile, n.name), Detected(cluster.detections);
    KeyHasPrefix(profile, n.name);
    WithDetectedAt(OtherInflight(s, profile), found, pod, profile, key);
    DetectedAreFresh(s, profile, pod, found, key);
    var m :| m in found && key == InflightKey(profile, m.name)
             && WithDetected(OtherInflight(s, profile), found, pod, profile)[key] == InflightEntry(m, pod, profile);
    assert m.name == key[|ProfilePrefix(profile)|..] == n.name;
    RebuiltReserved(Unbounded, s, profile, pod, cluster, key);
    SyncedWellKeyed(Unbounded, s, profile, pod, cluster);
  }

  /** SINGLE-FLIGHT SCALE-UP. While the detectors report a node whose capacity is unknown to the
      profile, no reconcile releases a pod with demand unpinned for capacity under a rule list
      containing WaitForNodeReady: it is held, or pinned to an existing node. */
  lemma PendingNodePreventsScaleUp(s: State, req: Request, n: InflightNode, s': State, out: Outcome, grants: seq<string>)
    requires WellKeyed(s) && NamesValid(req.cluster) && RunsRules(req)
    requires Reconciles(Unbounded, s, req, s', out, grants)
    requires n in Detected(req.cluster.detections)
    requires forall m :: m in Detected(req.cluster.detections) && m.name == n.name ==> m == n
    requires InflightEntry(n, req.pod.value, req.profile.value).allocatable == map[]
    requires NODE_READY in req.profile.value.rules
    requires PodDemand(Unbounded, req.pod.value, req.profile.value) != map[]
    ensures out.Held? || (out.Released? && out.reason == "capacity" && out.target in s'.nodes && out.target != "")
  {
    var pod, profile := req.pod.value, req.profile.value;
    var t, key := Rebuilt(Unbounded, s, profile, pod, req.cluster), InflightKey(profile, n.name);
    var d :| Decides(Unbounded, t, pod, profile, profile.rules, "", s', d, grants) && out == OutcomeOf(d);
    SyncedWellKeyed(Unbounded, s, profile, pod, req.cluster);
    EnrichedEntry(s, pod, profile, req.cluster, n);
    KeyHasPrefix(profile, n.name);
    assert HasInflightSignalIn(t, ProfilePrefix(profile));
    SingleFlight(Unbounded, t, pod, profile, profile.rules, "", s', d, grants);
    LoopSound(Unbounded, t, pod, profile, profile.rules, "", s', d, grants);
  }
}
