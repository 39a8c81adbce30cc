/** Pinning a released pod: the required node affinity rewrite, against Kubernetes
    NodeSelector semantics (terms ORed, requirements of a term ANDed, an empty term
    or an empty term list matches nothing, an absent selector matches everything). */
module Affinity {
  import opened Scheduling
  import opened Objects
  import opened Text

  predicate ValueMet(req: Requirement, value: Option<string>) {
    if req.operator == "In" then value.Some? && value.value in req.values
    else if req.operator == "NotIn" then value.None? || value.value !in req.values
    else if req.operator == "Exists" then value.Some?
    else if req.operator == "DoesNotExist" then value.None?
    else if req.operator == "Gt" || req.operator == "Lt" then
      && value.Some? && |req.values| == 1
      && ParseInt(value.value).1 && ParseInt(req.values[0]).1
      && if req.operator == "Gt" then ParseInt(value.value).0 > ParseInt(req.values[0]).0
         else ParseInt(value.value).0 < ParseInt(req.values[0]).0
    else false
  }

  predicate LabelMet(req: Requirement, node: Node) {
    ValueMet(req, if req.key in node.labels then Some(node.labels[req.key]) else None)
  }

  predicate FieldMet(req: Requirement, node: Node) {
    ValueMet(req, if req.key == "metadata.name" then Some(node.name) else None)
  }

  predicate EmptyTerm(t: Term) {
    t.matchExpressions == [] && t.matchFields == []
  }

  predicate TermMet(t: Term, node: Node) {
    && !EmptyTerm(t)
    && (forall r :: r in t.matchExpressions ==> LabelMet(r, node))
    && (forall r :: r in t.matchFields ==> FieldMet(r, node))
  }

  predicate Satisfied(required: Option<seq<Term>>, node: Node) {
    required.None? || exists t :: t in required.value && TermMet(t, node)
  }

  function HostnameRequirement(target: string): Requirement {
    Requirement(HOSTNAME, "In", [target])
  }

  function WithHostname(t: Term, target: string): Term {
    t.(matchExpressions := t.matchExpressions + [HostnameRequirement(target)])
  }

  function Pinned(required: Option<seq<Term>>, target: string): Option<seq<Term>> {
    if required.Some? && |required.value| > 0
    then Some(seq(|required.value|, i requires 0 <= i < |required.value| => WithHostname(required.value[i], target)))
    else Some([Term([HostnameRequirement(target)], [])])
  }

  method Pin(required: Option<seq<Term>>, target: string) returns (pinned: Option<seq<Term>>)
    ensures pinned == Pinned(required, target)
  {
    var hostnameReq := Requirement(HOSTNAME, "In", [target]);
    if required.Some? && |required.value| > 0 {
      var terms := required.value;
      for i := 0 to |terms|
        invariant |terms| == |required.value|
        invariant forall j :: 0 <= j < i ==> terms[j] == WithHostname(required.value[j], target)
        invariant forall j :: i <= j < |terms| ==> terms[j] == required.value[j]
      {
        terms := terms[i := terms[i].(matchExpressions := terms[i].matchExpressions + [hostnameReq])];
      }
      pinned := Some(terms);
      assert terms == Pinned(required, target).value;
    } else {
      pinned := Some([Term([hostnameReq], [])]);
    }
  }

  predicate OnHost(node: Node, target: string) {
    "kubernetes.io/hostname" in node.labels && node.labels["kubernetes.io/hostname"] == target
  }

  /** Selectors the rewrite turns from matching nothing into matching the target:
      an empty term, or a present selector with no terms. */
  predicate HasEmptyAlternative(required: Option<seq<Term>>) {
    required.Some? && (required.value == [] || exists t :: t in required.value && EmptyTerm(t))
  }

  lemma WithHostnameMet(t: Term, target: string, node: Node)
    ensures TermMet(WithHostname(t, target), node) <==> OnHost(node, target) && (EmptyTerm(t) || TermMet(t, node))
  {
    var t' := WithHostname(t, target);
    assert t'.matchExpressions[|t.matchExpressions|] == HostnameRequirement(target);
    assert LabelMet(HostnameRequirement(target), node) <==> OnHost(node, target);
    forall r ensures r in t'.matchExpressions <==> r in t.matchExpressions || r == HostnameRequirement(target) {
    }
  }

  /** Exactly which nodes the rewritten selector admits, for every selector and node. */
  lemma PinnedMeaning(required: Option<seq<Term>>, target: string, node: Node)
    ensures Satisfied(Pinned(required, target), node) <==>
            OnHost(node, target) && (Satisfied(required, node) || HasEmptyAlternative(required))
  {
    var pinned := Pinned(required, target).value;
    if required.Some? && |required.value| > 0 {
      var terms := required.value;
      forall i | 0 <= i < |terms|
        ensures TermMet(pinned[i], node) <==> OnHost(node, target) && (EmptyTerm(terms[i]) || TermMet(terms[i], node))
      {
        WithHostnameMet(terms[i], target, node);
      }
      if OnHost(node, target) && (Satisfied(required, node) || HasEmptyAlternative(required)) {
        var t :| t in terms && (EmptyTerm(t) || TermMet(t, node));
        var i :| 0 <= i < |terms| && terms[i] == t;
        assert pinned[i] in pinned;
      }
    } else {
      WithHostnameMet(Term([], []), target, node);
      assert [] + [HostnameRequirement(target)] == [HostnameRequirement(target)];
      assert pinned == [WithHostname(Term([], []), target)];
    }
  }

  /** The promised law: the pod keeps its own node affinity and is confined to the target.
      It holds of a node if and only if the selector has no empty alternative there to exploit. */
  lemma PinPreservesMeaning(required: Option<seq<Term>>, target: string, node: Node)
    ensures (Satisfied(Pinned(required, target), node) <==> Satisfied(required, node) && OnHost(node, target))
       <==> (HasEmptyAlternative(required) && OnHost(node, target) ==> Satisfied(required, node))
    ensures !HasEmptyAlternative(required) ==>
      (Satisfied(Pinned(required, target), node) <==> Satisfied(required, node) && OnHost(node, target))
  {
    PinnedMeaning(required, target, node);
  }

  /** A selector that matched no node admits the target after the rewrite. */
  lemma PinWidensEmptyTerm(target: string)
    ensures exists node ::
      var required := Some([Term([], [])]);
      !Satisfied(required, node) && Satisfied(Pinned(required, target), node)
  {
    var node := Node(target, false, map[], map[HOSTNAME := target], []);
    var required := Some([Term([], [])]);
    PinnedMeaning(required, target, node);
    assert required.value[0] in required.value;
    assert !Satisfied(required, node) && Satisfied(Pinned(required, target), node);
  }

  /** A pinned pod can be placed on the node it was pinned to exactly when that node's hostname label
      repeats its name and the pod's own affinity admits it or had an empty alternative. */
  lemma PinReachesTarget(required: Option<seq<Term>>, node: Node)
    ensures Satisfied(Pinned(required, node.name), node) <==>
            && HOSTNAME in node.labels && node.labels[HOSTNAME] == node.name
            && (Satisfied(required, node) || HasEmptyAlternative(required))
  {
    PinnedMeaning(required, node.name, node);
  }
}
