/** Profiles share one ledger; each owns the in-flight keys under its own name. */
module Isolation {
  import opened Quantities
  import opened Scheduling
  import opened Objects
  import opened Ledger
  import opened Rules
  import opened Sync
  import opened Reconcile
  import opened Rebuild
  import opened RuleLoop
  import opened SearchOrder
  import opened Safety

  /** A key belongs to one profile, even when one profile's name is a prefix of another's. */
  lemma OwnPrefixOnly(p: string, q: string, name: string)
    requires '/' !in p && '/' !in q
    ensures HasPrefix(q + "/" + name, p + "/") <==> p == q
  {
    var key := q + "/" + name;
    assert key[|q|] == '/';
    if HasPrefix(key, p + "/") {
      assert (p + "/")[|p|] == '/';
      assert key[|p|] == '/';
      assert |p| == |q|;
      assert forall i :: 0 <= i < |p| ==> p[i] == (p + "/")[i] == key[i] == q[i];
    }
  }

  /** PROFILE ISOLATION. A sync for one profile, successful or not, leaves every in-flight entry of
      another profile as it is, reservations included. */
  lemma SyncKeepsOthers(w: Width, s: State, profile: Profile, pod: Pod, cluster: Cluster, other: string, name: string)
    requires WellKeyed(s)
    requires '/' !in profile.name && '/' !in other && other != profile.name
    ensures AgreeAt(Synced(w, s, profile, pod, cluster).inflight, s.inflight, other + "/" + name)
  {
    var key := other + "/" + name;
    OwnPrefixOnly(profile.name, other, name);
    assert key[|other|] == '/';
    assert key !in s.nodes;
    if Listed(cluster) {
      var found := Detected(cluster.detections);
      WithDetectedAt(OtherInflight(s, profile), found, pod, profile, key);
      forall n: InflightNode ensures InflightKey(profile, n.name) != key {
        KeyHasPrefix(profile, n.name);
      }
      RestoreOther(s, Unreserved(w, s, profile, pod, cluster), key);
    }
  }

  lemma RestoreOther(s: State, u: State, key: string)
    requires key !in s.nodes && AgreeAt(u.inflight, s.inflight, key)
    ensures AgreeAt(Restored(u, Snapshot(s)).inflight, s.inflight, key)
  {
  }

  /** The profile an in-flight key belongs to: what precedes its first slash. */
  function Owner(key: string): string {
    if key == "" || key[0] == '/' then "" else [key[0]] + Owner(key[1..])
  }

  lemma {:induction false} OwnerHasPrefix(key: string, p: string)
    requires '/' !in p
    ensures HasPrefix(key, p + "/") <==> '/' in key && Owner(key) == p
  {
    if key != "" && key[0] != '/' {
      assert key == [key[0]] + key[1..];
      if p != "" {
        assert p == [p[0]] + p[1..];
        OwnerHasPrefix(key[1..], p[1..]);
        assert p + "/" == [p[0]] + (p[1..] + "/");
        if HasPrefix(key, p + "/") {
          assert key[1..][..|p|] == p[1..] + "/";
        }
      } else {
        assert (p + "/")[0] == '/';
      }
    } else if key != "" {
      assert HasPrefix(key, p + "/") ==> (p + "/")[0] == '/';
    }
  }

  /** The signal a profile sees comes from its own entries, and other profiles' syncs do not change it. */
  lemma SignalIsOwn(w: Width, s: State, profile: Profile, pod: Pod, cluster: Cluster, other: string)
    requires WellKeyed(s)
    requires '/' !in profile.name && '/' !in other && other != profile.name
    ensures HasInflightSignalIn(Synced(w, s, profile, pod, cluster), other + "/") <==> HasInflightSignalIn(s, other + "/")
  {
    var t := Synced(w, s, profile, pod, cluster);
    forall k | HasPrefix(k, other + "/") ensures AgreeAt(t.inflight, s.inflight, k) {
      assert k == other + "/" + k[|other| + 1..];
      SyncKeepsOthers(w, s, profile, pod, cluster, other, k[|other| + 1..]);
    }
    if HasInflightSignalIn(t, other + "/") {
      var k :| k in t.inflight && HasPrefix(k, other + "/") && t.inflight[k].allocatable == map[];
      assert AgreeAt(t.inflight, s.inflight, k);
    }
    if HasInflightSignalIn(s, other + "/") {
      var k :| k in s.inflight && HasPrefix(k, other + "/") && s.inflight[k].allocatable == map[];
      assert AgreeAt(t.inflight, s.inflight, k);
    }
  }

  lemma SignalNamesOwnEntry(s: State, p: string)
    requires '/' !in p
    ensures HasInflightSignalIn(s, p + "/") <==>
      exists k :: k in s.inflight && '/' in k && Owner(k) == p && s.inflight[k].allocatable == map[]
  {
    forall k ensures HasPrefix(k, p + "/") <==> '/' in k && Owner(k) == p {
      OwnerHasPrefix(k, p);
    }
  }

  /** Rules are not confined that way: what the loop reserves on an entry is exactly what it granted
      there, whichever profile owns it. */
  lemma {:induction false} GrantedAmount(s: State, demand: Amounts, names: seq<string>, s': State, name: string, r: string)
    requires Granted(Unbounded, s, demand, names, s') && HasEntry(s, name)
    ensures HasEntry(s', name)
    ensures Get(FindEntry(s', name).reserved, r) ==
            Get(FindEntry(s, name).reserved, r) + SumGranted(AsGrants(names, demand), name, r)
    decreases |names|
  {
    if names == [] {
    } else {
      var s1 := Reserved(Unbounded, s, names[0], demand);
      FindEntryAfterReserve(s, names[0], demand, name, r);
      GrantedAmount(s1, demand, names[1..], s', name, r);
      AsGrantsCons(names, demand, name, r);
    }
  }

  lemma {:induction false} AsGrantsCons(names: seq<string>, demand: Amounts, name: string, r: string)
    requires names != []
    ensures SumGranted(AsGrants(names, demand), name, r) ==
            SumGranted(AsGrants(names[1..], demand), name, r) + if names[0] == name then Get(demand, r) else 0
    decreases |names|
  {
    var all := AsGrants(names, demand);
    assert all[..|all| - 1] == AsGrants(names[..|names| - 1], demand);
    if |names| == 1 {
      assert all[..0] == [];
      assert AsGrants(names[1..], demand) == [];
    } else {
      var tail := AsGrants(names[1..], demand);
      assert tail[..|tail| - 1] == AsGrants(names[..|names| - 1][1..], demand);
      AsGrantsCons(names[..|names| - 1], demand, name, r);
    }
  }

  /** Which in-flight entry WaitForNodeReady reserves on does not depend on who owns it: it can reserve
      on an entry exactly when some iteration order of the two maps finds it, and that is exactly when
      the entry is a best fit of the ledger before the call. */
  lemma ReservesInflightIff(w: Width, s: State, pod: Pod, profile: Profile, k: string)
    requires WellKeyed(s) && k in s.inflight && PodDemand(w, pod, profile) != map[]
    ensures (exists s', v :: Evaluates(w, NODE_READY, s, pod, profile, s', v) && v.grant == Some(k)) <==>
            IsBest(w, s, PodDemand(w, pod, profile), ConstraintsOf(pod), k, true)
    ensures SomeOrderGives(w, s, PodDemand(w, pod, profile), ConstraintsOf(pod), FitOn(k, true)) <==>
            IsBest(w, s, PodDemand(w, pod, profile), ConstraintsOf(pod), k, true)
  {
    var demand, c := PodDemand(w, pod, profile), ConstraintsOf(pod);
    FoundInSomeOrder(w, s, demand, c, k, true);
    forall s', v | Evaluates(w, NODE_READY, s, pod, profile, s', v) && v.grant == Some(k)
      ensures IsBest(w, s, demand, c, k, true)
    {
      GrantIsBest(w, s, pod, profile, s', v, k);
    }
    if IsBest(w, s, demand, c, k, true) {
      var v := Verdict(false, "", Some(k));
      ReserveAfterFindSucceeds(w, s, demand, c, FitOn(k, true));
      assert (Reserved(w, s, k, demand), v) == NodeReadyAfter(w, s, demand, ProfilePrefix(profile), FitOn(k, true));
      assert Evaluates(w, NODE_READY, s, pod, profile, Reserved(w, s, k, demand), v);
    }
  }

  lemma GrantIsBest(w: Width, s: State, pod: Pod, profile: Profile, s': State, v: Verdict, k: string)
    requires WellKeyed(s) && k in s.inflight && PodDemand(w, pod, profile) != map[]
    requires Evaluates(w, NODE_READY, s, pod, profile, s', v) && v.grant == Some(k)
    ensures IsBest(w, s, PodDemand(w, pod, profile), ConstraintsOf(pod), k, true) && !v.release
  {
    var fit := NodeReadyAnswer(w, s, pod, profile, s', v);
  }

  /** Whatever the rule list, an in-flight entry that does not fit the pod, or does not meet its
      constraints, is left exactly as it was. */
  lemma {:induction false} UnfitEntryUntouched(w: Width, s: State, pod: Pod, profile: Profile, rules: seq<string>, target: string,
                                               s': State, d: Decision, grants: seq<string>, k: string)
    requires WellKeyed(s) && k in s.inflight
    requires Decides(w, s, pod, profile, rules, target, s', d, grants)
    requires !Choosable(w, s.inflight[k], PodDemand(w, pod, profile), ConstraintsOf(pod))
    ensures k !in grants && k in s'.inflight && s'.inflight[k] == s.inflight[k]
    decreases |rules|
  {
    if rules != [] {
      if !Registered(rules[0]) {
        UnfitEntryUntouched(w, s, pod, profile, rules[1..], target, s', d, grants, k);
      } else {
        var s1, v, rest := Unroll(w, s, pod, profile, rules, target, s', d, grants);
        EvaluatesSound(w, rules[0], s, pod, profile, s1, v);
        VerdictFrame(w, s, pod, profile, s1, v);
        UnfitNotGranted(w, rules[0], s, pod, profile, s1, v, k);
        if v.release {
          UnfitEntryUntouched(w, s1, pod, profile, rules[1..], NextTarget(v, target), s', d, rest, k);
        }
      }
    }
  }

  lemma UnfitNotGranted(w: Width, rule: string, s: State, pod: Pod, profile: Profile, s': State, v: Verdict, k: string)
    requires WellKeyed(s) && k in s.inflight && Registered(rule)
    requires Evaluates(w, rule, s, pod, profile, s', v) && VerdictSound(w, s, pod, profile, s', v)
    requires !Choosable(w, s.inflight[k], PodDemand(w, pod, profile), ConstraintsOf(pod))
    ensures v.grant != Some(k) && k in s'.inflight && s'.inflight[k] == s.inflight[k]
  {
    if v.grant == Some(k) {
      if rule == NODE_READY {
        GrantIsBest(w, s, pod, profile, s', v, k);
      } else {
        PackingGrantsPinned(w, s, pod, profile, s', v);
      }
      assert false;
    }
  }

  lemma PackingGrantsPinned(w: Width, s: State, pod: Pod, profile: Profile, s': State, v: Verdict)
    requires Evaluates(w, PACKING, s, pod, profile, s', v)
    ensures v.grant.Some? ==> v.target == v.grant.value != ""
  {
  }

  /** ISOLATION OF A WHOLE RECONCILE. Another profile's in-flight entry comes through a reconcile,
      sync and rules, exactly as it was unless the pod could be placed on it. */
  lemma ForeignEntryKept(w: Width, s: State, req: Request, s': State, out: Outcome, grants: seq<string>, other: string, name: string)
    requires WellKeyed(s) && NamesValid(req.cluster) && Reconciles(w, s, req, s', out, grants)
    requires req.profile.Found? && '/' !in req.profile.value.name && '/' !in other && other != req.profile.value.name
    requires RunsRules(req) && other + "/" + name in s.inflight ==>
      !Choosable(w, s.inflight[other + "/" + name], PodDemand(w, req.pod.value, req.profile.value), ConstraintsOf(req.pod.value))
    ensures AgreeAt(s'.inflight, s.inflight, other + "/" + name)
  {
    var key := other + "/" + name;
    if Syncs(req) {
      var pod, profile := req.pod.value, req.profile.value;
      SyncKeepsOthers(w, s, profile, pod, req.cluster, other, name);
      if RunsRules(req) {
        var t := Rebuilt(w, s, profile, pod, req.cluster);
        SyncedWellKeyed(w, s, profile, pod, req.cluster);
        var d :| Decides(w, t, pod, profile, profile.rules, "", s', d, grants) && out == OutcomeOf(d);
        LoopSound(w, t, pod, profile, profile.rules, "", s', d, grants);
        if key in s.inflight {
          UnfitEntryUntouched(w, t, pod, profile, profile.rules, "", s', d, grants, key);
        }
      }
    }
  }

  /** Some search order makes the reconcile reserve on the entry. */
  ghost predicate CanGrant(w: Width, s: State, req: Request, k: string) {
    exists s', out, grants :: Reconciles(w, s, req, s', out, grants) && k in grants
  }

  /** Exactly when a reconcile crosses into another profile: under WaitForNodeReady it can reserve on
      a foreign in-flight entry if and only if that entry is a best fit of the synced ledger, which is
      when some iteration order finds it. */
  lemma CrossesIff(w: Width, s: State, req: Request, other: string, name: string)
    requires WellKeyed(s) && NamesValid(req.cluster) && RunsRules(req)
    requires req.profile.value.rules == [NODE_READY] && PodDemand(w, req.pod.value, req.profile.value) != map[]
    requires '/' !in req.profile.value.name && '/' !in other && other != req.profile.value.name
    requires other + "/" + name in s.inflight
    ensures var t, key := Rebuilt(w, s, req.profile.value, req.pod.value, req.cluster), other + "/" + name;
      var demand, c := PodDemand(w, req.pod.value, req.profile.value), ConstraintsOf(req.pod.value);
      && (CanGrant(w, s, req, key) <==> IsBest(w, t, demand, c, key, true))
      && (CanGrant(w, s, req, key) <==> SomeOrderGives(w, t, demand, c, FitOn(key, true)))
  {
    var key, pod, profile := other + "/" + name, req.pod.value, req.profile.value;
    var t := Rebuilt(w, s, profile, pod, req.cluster);
    SyncedWellKeyed(w, s, profile, pod, req.cluster);
    SyncKeepsOthers(w, s, profile, pod, req.cluster, other, name);
    ReservesInflightIff(w, t, pod, profile, key);
    CanGrantIff(w, s, req, key);
  }

  lemma CanGrantIff(w: Width, s: State, req: Request, key: string)
    requires RunsRules(req) && req.profile.value.rules == [NODE_READY] && PodDemand(w, req.pod.value, req.profile.value) != map[]
    requires var t := Rebuilt(w, s, req.profile.value, req.pod.value, req.cluster); WellKeyed(t) && key in t.inflight
    ensures var t := Rebuilt(w, s, req.profile.value, req.pod.value, req.cluster);
      CanGrant(w, s, req, key) <==>
      exists s1, v :: Evaluates(w, NODE_READY, t, req.pod.value, req.profile.value, s1, v) && v.grant == Some(key)
  {
    if s', out, grants :| Reconciles(w, s, req, s', out, grants) && key in grants {
      SoleRuleGrants(w, s, req, s', out, grants);
    }
    var t := Rebuilt(w, s, req.profile.value, req.pod.value, req.cluster);
    if s1, v :| Evaluates(w, NODE_READY, t, req.pod.value, req.profile.value, s1, v) && v.grant == Some(key) {
      GrantReconciles(w, s, req, s1, v, key);
      assert key in [key];
    }
  }

  lemma GrantReconciles(w: Width, s: State, req: Request, s1: State, v: Verdict, key: string)
    requires RunsRules(req) && req.profile.value.rules == [NODE_READY] && PodDemand(w, req.pod.value, req.profile.value) != map[]
    requires var t := Rebuilt(w, s, req.profile.value, req.pod.value, req.cluster);
      && WellKeyed(t) && key in t.inflight
      && Evaluates(w, NODE_READY, t, req.pod.value, req.profile.value, s1, v) && v.grant == Some(key)
    ensures Reconciles(w, s, req, s1, Held(NODE_READY), [key])
  {
    var pod, profile := req.pod.value, req.profile.value;
    var t := Rebuilt(w, s, profile, pod, req.cluster);
    GrantIsBest(w, t, pod, profile, s1, v, key);
    HoldDecides(w, t, pod, profile, profile.rules, "", s1, v);
  }

  /** With one rule there is one evaluation, and its grant is the reconcile's. */
  lemma SoleRuleGrants(w: Width, s: State, req: Request, s': State, out: Outcome, grants: seq<string>)
    requires RunsRules(req) && req.profile.value.rules == [NODE_READY] && Reconciles(w, s, req, s', out, grants)
    ensures exists s1, v ::
      && Evaluates(w, NODE_READY, Rebuilt(w, s, req.profile.value, req.pod.value, req.cluster), req.pod.value, req.profile.value, s1, v)
      && grants == GrantList(v)
  {
    var pod, profile := req.pod.value, req.profile.value;
    var t := Rebuilt(w, s, profile, pod, req.cluster);
    var d :| Decides(w, t, pod, profile, profile.rules, "", s', d, grants) && out == OutcomeOf(d);
    var s1, v, rest := Unroll(w, t, pod, profile, profile.rules, "", s', d, grants);
    assert rest == [];
    assert grants == GrantList(v);
  }
}
