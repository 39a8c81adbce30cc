/** The Kubernetes and PackingProfile objects a reconcile reads, cut down to the fields it uses. */
module Objects {
  import opened Quantities
  import opened Scheduling

  const LABEL_PROFILE := "packer.kompakt.io/packing-profile"
  const LABEL_EXCLUDE := "kompakt.io/exclude"
  const ANNOTATION_PRIORITY := "kompakt.io/priority"
  const ANNOTATION_TRACE_ID := "kompakt.io/trace-id"
  const ANNOTATION_REASON := "kompakt.io/gate-reason"
  const ANNOTATION_NODE := "kompakt.io/target-node"
  const ANNOTATION_HELD_BY := "kompakt.io/held-by"
  const GATE_PREFIX := "kompakt.io/"
  const HOSTNAME := "kubernetes.io/hostname"

  datatype Requirement = Requirement(key: string, operator: string, values: seq<string>)

  datatype Term = Term(matchExpressions: seq<Requirement>, matchFields: seq<Requirement>)

  /** `containers` holds each container's requests; `created` is None for a zero timestamp,
      otherwise nanoseconds; `required` is the required node affinity, if any. */
  datatype Pod = Pod(
    labels: map<string, string>,
    annotations: map<string, string>,
    nodeSelector: map<string, string>,
    tolerations: seq<Toleration>,
    containers: seq<Amounts>,
    gates: seq<string>,
    required: Option<seq<Term>>,
    created: Option<int>,
    nodeName: string,
    phase: string)

  datatype Node = Node(
    name: string,
    deleted: bool,
    allocatable: Amounts,
    labels: map<string, string>,
    taints: seq<Taint>)

  datatype InflightNode = InflightNode(
    name: string,
    allocatable: Amounts,
    labels: map<string, string>,
    instanceType: string)

  datatype DemandSource = DemandSource(
    kind: string,
    resources: seq<string>,
    additionalResources: seq<string>,
    annotation: string)

  datatype Template = Template(
    namePrefix: string,
    instanceType: string,
    allocatable: Amounts,
    labels: map<string, string>,
    taints: seq<Taint>)

  /** `timeout` is None when reservationTimeout does not parse as a duration. */
  datatype Profile = Profile(
    name: string,
    demandSource: DemandSource,
    templates: seq<Template>,
    rules: seq<string>,
    timeout: Option<int>)

  function ConstraintsOf(pod: Pod): Option<Constraints> {
    Some(Constraints(pod.tolerations, pod.nodeSelector))
  }
}
