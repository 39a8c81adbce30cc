/** What a pod asks the ledger for. */
module Demand {
  import opened Quantities
  import opened Objects
  import opened Text

  function Occurrences(names: seq<string>, r: string): nat {
    if names == [] then 0
    else Occurrences(names[..|names| - 1], r) + if names[|names| - 1] == r then 1 else 0
  }

  /** The sum of one resource over containers; a container that does not request it adds nothing. */
  function RequestSum(containers: seq<Amounts>, r: string): int {
    if containers == [] then 0
    else RequestSum(containers[..|containers| - 1], r) + Get(containers[|containers| - 1], r)
  }

  predicate Requested(containers: seq<Amounts>, r: string) {
    exists i :: 0 <= i < |containers| && r in containers[i]
  }

  /** Each tracked and requested resource, counted once for every time it is listed. */
  function FromRequests(w: Width, containers: seq<Amounts>, resources: seq<string>): Amounts {
    map r | r in resources && Requested(containers, r) ::
      Norm(w, Occurrences(resources, r) * RequestSum(containers, r))
  }

  function FromAnnotation(annotations: map<string, string>, annotation: string): Amounts {
    if annotation in annotations && ParseInt(annotations[annotation]).1
    then map[annotation := ParseInt(annotations[annotation]).0]
    else map[]
  }

  function TrackedResources(source: DemandSource): seq<string> {
    if |source.resources| > 0 then source.resources else ["cpu", "memory"] + source.additionalResources
  }

  function DemandOf(w: Width, pod: Pod, source: DemandSource): Amounts {
    if source.kind == "ResourceRequest" then FromRequests(w, pod.containers, TrackedResources(source))
    else if source.kind == "Annotation" then FromAnnotation(pod.annotations, source.annotation)
    else map[]
  }

  lemma {:induction false} OccursIff(names: seq<string>, r: string)
    ensures Occurrences(names, r) > 0 <==> r in names
  {
    if names != [] {
      OccursIff(names[..|names| - 1], r);
      assert names == names[..|names| - 1] + [names[|names| - 1]];
    }
  }

  lemma {:induction false} OccursAsOften(names: seq<string>, r: string)
    ensures Occurrences(names, r) == multiset(names)[r]
  {
    if names != [] {
      var init, last := names[..|names| - 1], names[|names| - 1];
      OccursAsOften(init, r);
      assert names == init + [last];
      assert multiset(names) == multiset(init) + multiset{last};
    }
  }

  /** How often a source counts a resource: as often as an explicit list names it; without one, cpu and
      memory once each, plus as often as the additional list names it. */
  function Multiplicity(source: DemandSource, r: string): nat {
    if source.resources != [] then multiset(source.resources)[r]
    else multiset(source.additionalResources)[r] + if r in ["cpu", "memory"] then 1 else 0
  }

  /** What a source demands of one resource for a pod, without the loops: by requests, the sum over containers times
      the multiplicity, if some container requests it; by annotation, the parsed annotation, if it parses; else nothing. */
  predicate DemandsRightly(w: Width, demand: Amounts, pod: Pod, source: DemandSource, r: string) {
    if source.kind == "ResourceRequest" then
      && (r in demand <==> Multiplicity(source, r) > 0 && exists c :: c in pod.containers && r in c)
      && (r in demand ==> demand[r] == Norm(w, Multiplicity(source, r) * RequestSum(pod.containers, r)))
    else if source.kind == "Annotation" then
      && (r in demand <==> r == source.annotation && r in pod.annotations && ParseInt(pod.annotations[r]).1)
      && (r in demand ==> demand[r] == ParseInt(pod.annotations[r]).0)
    else r !in demand
  }

  lemma MultiplicityIff(source: DemandSource, r: string)
    ensures Occurrences(TrackedResources(source), r) == Multiplicity(source, r)
    ensures r in TrackedResources(source) <==> Multiplicity(source, r) > 0
  {
    var names := TrackedResources(source);
    OccursAsOften(names, r);
    if source.resources == [] {
      assert multiset(names) == multiset(["cpu", "memory"]) + multiset(source.additionalResources);
      assert multiset(["cpu", "memory"]) == multiset{"cpu", "memory"};
    }
  }

  /** DEMAND, from the pod and the source alone. */
  lemma DemandMeaning(w: Width, pod: Pod, source: DemandSource, r: string)
    ensures DemandsRightly(w, DemandOf(w, pod, source), pod, source, r)
  {
    MultiplicityIff(source, r);
    assert Requested(pod.containers, r) <==> exists c :: c in pod.containers && r in c;
  }

  lemma {:induction false} UnrequestedSum(containers: seq<Amounts>, r: string)
    requires !Requested(containers, r)
    ensures RequestSum(containers, r) == 0
  {
    if containers != [] {
      UnrequestedSum(containers[..|containers| - 1], r);
    }
  }

  /** The inner loop: one container's requests, over the tracked list. */
  function WithContainer(before: Amounts, resources: seq<string>, requests: Amounts): Amounts {
    if resources == [] then before
    else
      var m := WithContainer(before, resources[..|resources| - 1], requests);
      var res := resources[|resources| - 1];
      if res in requests then m[res := Add(Int64, Get(m, res), requests[res])] else m
  }

  method AddContainer(before: Amounts, resources: seq<string>, requests: Amounts) returns (demand: Amounts)
    ensures demand == WithContainer(before, resources, requests)
  {
    demand := before;
    for j := 0 to |resources|
      invariant demand == WithContainer(before, resources[..j], requests)
    {
      var res := resources[j];
      assert resources[..j + 1][..j] == resources[..j];
      if res in requests {
        demand := demand[res := Add(Int64, Get(demand, res), requests[res])];
      }
    }
    assert resources[..|resources|] == resources;
  }

  /** A container adds each resource as often as it is listed. */
  lemma {:induction false} WithContainerAt(before: Amounts, resources: seq<string>, requests: Amounts, r: string)
    ensures var m := WithContainer(before, resources, requests);
      && (r in m <==> r in before || (r in resources && r in requests))
      && (r in resources && r in requests ==> m[r] == Wrap(Get(before, r) + Occurrences(resources, r) * requests[r]))
      && (!(r in resources && r in requests) ==> Get(m, r) == Get(before, r))
  {
    if resources != [] {
      var init, res := resources[..|resources| - 1], resources[|resources| - 1];
      assert resources == init + [res];
      WithContainerAt(before, init, requests, r);
      OccursIff(init, r);
      if res == r && r in requests {
        var n := Occurrences(init, r);
        assert (n + 1) * requests[r] == n * requests[r] + requests[r];
        WrapAbsorbs(Get(before, r) + n * requests[r], requests[r]);
      }
    }
  }

  method ExtractFromRequests(containers: seq<Amounts>, resources: seq<string>) returns (demand: Amounts)
    ensures demand == FromRequests(Int64, containers, resources)
  {
    demand := map[];
    for i := 0 to |containers|
      invariant demand == FromRequests(Int64, containers[..i], resources)
    {
      ghost var before := demand;
      demand := AddContainer(demand, resources, containers[i]);
      FromRequestsStep(before, containers[..i], containers[i], resources);
      assert containers[..i + 1] == containers[..i] + [containers[i]];
    }
    assert containers[..|containers|] == containers;
  }

  lemma FromRequestsStep(before: Amounts, containers: seq<Amounts>, c: Amounts, resources: seq<string>)
    requires before == FromRequests(Int64, containers, resources)
    ensures WithContainer(before, resources, c) == FromRequests(Int64, containers + [c], resources)
  {
    forall r
      ensures var after, spec := WithContainer(before, resources, c), FromRequests(Int64, containers + [c], resources);
        (r in after <==> r in spec) && (r in after ==> after[r] == spec[r])
    {
      FromRequestsStepAt(before, containers, c, resources, r);
    }
  }

  lemma RequestedStep(containers: seq<Amounts>, c: Amounts, r: string)
    ensures Requested(containers + [c], r) <==> Requested(containers, r) || r in c
  {
    var all := containers + [c];
    if Requested(containers, r) {
      var i :| 0 <= i < |containers| && r in containers[i];
      assert r in all[i];
    }
    if r in c {
      assert r in all[|containers|];
    }
  }

  lemma FromRequestsStepAt(before: Amounts, containers: seq<Amounts>, c: Amounts, resources: seq<string>, r: string)
    requires before == FromRequests(Int64, containers, resources)
    ensures var after, spec := WithContainer(before, resources, c), FromRequests(Int64, containers + [c], resources);
      (r in after <==> r in spec) && (r in after ==> after[r] == spec[r])
  {
    var all := containers + [c];
    assert all[..|all| - 1] == containers;
    RequestedStep(containers, c, r);
    WithContainerAt(before, resources, c, r);
    var n, sum := Occurrences(resources, r), RequestSum(containers, r);
    if r in c && r in resources {
      if !Requested(containers, r) {
        UnrequestedSum(containers, r);
      }
      assert Get(before, r) == Wrap(n * sum);
      WrapDistributes(n, sum, c[r]);
    }
  }

  lemma WrapDistributes(n: int, sum: int, q: int)
    ensures Wrap(Wrap(n * sum) + n * q) == Wrap(n * (sum + q))
    ensures n * 0 == 0 && Wrap(0) == 0
  {
    assert n * (sum + q) == n * sum + n * q;
    WrapAbsorbs(n * sum, n * q);
  }

  method ExtractDemand(pod: Pod, source: DemandSource) returns (demand: Amounts)
    ensures demand == DemandOf(Int64, pod, source)
    ensures forall r :: DemandsRightly(Int64, demand, pod, source, r)
  {
    if source.kind == "ResourceRequest" {
      if |source.resources| > 0 {
        demand := ExtractFromRequests(pod.containers, source.resources);
      } else {
        demand := ExtractFromRequests(pod.containers, ["cpu", "memory"] + source.additionalResources);
      }
    } else if source.kind == "Annotation" {
      demand := FromAnnotation(pod.annotations, source.annotation);
    } else {
      demand := map[];
    }
    forall r ensures DemandsRightly(Int64, demand, pod, source, r) {
      DemandMeaning(Int64, pod, source, r);
    }
  }
}
