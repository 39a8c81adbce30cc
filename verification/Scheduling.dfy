/** Taints, tolerations and the scheduling constraints the ledger checks. */
module Scheduling {

  datatype Option<+T> = None | Some(value: T)

  datatype Taint = Taint(key: string, value: string, effect: string)

  datatype Toleration = Toleration(key: string, operator: string, value: string, effect: string)

  datatype Constraints = Constraints(tolerations: seq<Toleration>, nodeSelector: map<string, string>)

  predicate Tolerates(t: Toleration, taint: Taint) {
    && (t.effect == "" || t.effect == taint.effect)
    && (|| (t.operator == "Exists" && (t.key == "" || t.key == taint.key))
        || (t.key == taint.key && t.value == taint.value))
  }

  /** Scan for the first toleration that accepts the taint. */
  predicate TolerateTaint(tolerations: seq<Toleration>, taint: Taint)
    ensures TolerateTaint(tolerations, taint) <==> exists t :: t in tolerations && Tolerates(t, taint)
  {
    |tolerations| > 0 && (Tolerates(tolerations[0], taint) || TolerateTaint(tolerations[1..], taint))
  }

  predicate Blocking(taint: Taint) {
    taint.effect == "NoSchedule" || taint.effect == "NoExecute"
  }

  predicate ToleratesAll(tolerations: seq<Toleration>, taints: seq<Taint>) {
    forall t :: t in taints && Blocking(t) ==> TolerateTaint(tolerations, t)
  }

  /** A missing label reads as the empty string. */
  function LabelOf(labels: map<string, string>, key: string): string {
    if key in labels then labels[key] else ""
  }

  predicate SelectorMatches(selector: map<string, string>, labels: map<string, string>) {
    forall k :: k in selector ==> LabelOf(labels, k) == selector[k]
  }

  /** Independent account of what the constraints ask of a node. Every selected label is there with the selected
      value; a selected empty value is also met by a missing label. */
  predicate HasSelectedLabels(selector: map<string, string>, labels: map<string, string>) {
    && (forall k :: k in selector && selector[k] != "" ==> k in labels && labels[k] == selector[k])
    && (forall k :: k in selector && selector[k] == "" ==> k !in labels || labels[k] == "")
  }

  /** Some toleration has no effect of its own or the taint's, and either exists for every key or the taint's
      key, or repeats the taint's key and value. */
  predicate IsTolerated(taint: Taint, tolerations: seq<Toleration>) {
    exists t :: t in tolerations
      && t.effect in ["", taint.effect]
      && ((t.operator == "Exists" && t.key in ["", taint.key]) || (t.key, t.value) == (taint.key, taint.value))
  }

  /** A node with these labels and taints may take the pod. Only NoSchedule and NoExecute taints keep pods away. */
  predicate Admits(labels: map<string, string>, taints: seq<Taint>, c: Constraints) {
    && HasSelectedLabels(c.nodeSelector, labels)
    && forall taint :: taint in taints && taint.effect in ["NoSchedule", "NoExecute"] ==> IsTolerated(taint, c.tolerations)
  }

  lemma ToleratedIff(taint: Taint, tolerations: seq<Toleration>)
    ensures TolerateTaint(tolerations, taint) <==> IsTolerated(taint, tolerations)
  {
    forall t: Toleration
      ensures Tolerates(t, taint) <==>
        && t.effect in ["", taint.effect]
        && ((t.operator == "Exists" && t.key in ["", taint.key]) || (t.key, t.value) == (taint.key, taint.value))
    {
    }
  }

  /** The checks of the ledger and of the templates are that account. */
  lemma ChecksAdmit(labels: map<string, string>, taints: seq<Taint>, c: Constraints)
    ensures ToleratesAll(c.tolerations, taints) && SelectorMatches(c.nodeSelector, labels) <==> Admits(labels, taints, c)
  {
    forall taint ensures TolerateTaint(c.tolerations, taint) <==> IsTolerated(taint, c.tolerations) {
      ToleratedIff(taint, c.tolerations);
    }
    assert forall taint: Taint :: Blocking(taint) <==> taint.effect in ["NoSchedule", "NoExecute"];
  }
}
