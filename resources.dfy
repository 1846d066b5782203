/** The Kubernetes records the diagnosis rules read, reduced to the fields
    those rules consult, and the shape of a diagnostic finding. Quantities
    are integers: CPU in millicores, memory in bytes; a resource the record
    does not list reads as zero, as a missing entry of a Go ResourceList
    does. Timestamps are integers with 0 standing for the zero time. */
module Resources {
  import opened Wrappers

  type Labels = map<string, string>

  // ---------------------------------------------------------------------------
  // Findings
  // ---------------------------------------------------------------------------

  datatype Severity = Critical | Warning | Info

  /** One diagnostic finding: its severity, the rule that raised it and
      the object it is about. The rendered message text is not modelled. */
  datatype Finding = Finding(severity: Severity, check: string, subject: string)

  // ---------------------------------------------------------------------------
  // Pods and containers
  // ---------------------------------------------------------------------------

  datatype TerminatedState = TerminatedState(reason: string, exitCode: int)

  /** The state of a container: `waiting` holds the waiting reason when the
      container is waiting, `terminated` the termination record when it has
      terminated; both absent means running. */
  datatype ContainerState = ContainerState(waiting: Option<string>, terminated: Option<TerminatedState>)

  datatype ContainerStatus = ContainerStatus(
    name: string,
    ready: bool,
    restartCount: int,
    state: ContainerState,
    lastTerminated: Option<TerminatedState>)

  /** A resource list: CPU in millicores and memory in bytes. */
  datatype ResourceList = ResourceList(cpuMillis: int, memBytes: int)

  datatype EnvVar = EnvVar(name: string, value: string)

  datatype Container = Container(
    name: string,
    requests: Option<ResourceList>,
    limits: Option<ResourceList>,
    hasReadinessProbe: bool,
    hasLivenessProbe: bool,
    env: seq<EnvVar>)

  /** A pod or node condition: its type and status ("True", "False", ...). */
  datatype Condition = Condition(kind: string, status: string)

  /** A pod; `nodeName` is "" while the pod is not scheduled. */
  datatype Pod = Pod(
    name: string,
    namespace: string,
    labels: Labels,
    phase: string,
    reason: string,
    containers: seq<Container>,
    statuses: seq<ContainerStatus>,
    initStatuses: seq<ContainerStatus>,
    conditions: seq<Condition>,
    nodeName: string)

  const Running: string := "Running"
  const Succeeded: string := "Succeeded"
  const Failed: string := "Failed"
  const Pending: string := "Pending"

  // ---------------------------------------------------------------------------
  // Nodes
  // ---------------------------------------------------------------------------

  /** `capacity` is the node's reported CPU and memory capacity,
      `allocatable` what of it the scheduler may hand out to pods. */
  datatype Node = Node(
    name: string,
    labels: Labels,
    conditions: seq<Condition>,
    capacity: ResourceList,
    allocatable: ResourceList)

  // ---------------------------------------------------------------------------
  // Services and endpoints
  // ---------------------------------------------------------------------------

  datatype IntOrString = IntVal(i: int) | StrVal(s: string)

  datatype ServicePort = ServicePort(name: string, port: int, targetPort: IntOrString, protocol: string)

  /** `kind` is the service type ("ClusterIP", "ExternalName", ...); an absent
      selector is the empty map. */
  datatype Service = Service(
    name: string,
    namespace: string,
    kind: string,
    selector: Labels,
    ports: seq<ServicePort>)

  /** An endpoint address: its IP, the name of the object it targets and the
      node it runs on, each of the last two possibly absent. */
  datatype Address = Address(ip: string, targetRef: Option<string>, nodeName: Option<string>)

  datatype Subset = Subset(addresses: seq<Address>, notReadyAddresses: seq<Address>)

  // ---------------------------------------------------------------------------
  // Ingresses
  // ---------------------------------------------------------------------------

  /** A service backend: the service name, and its port given by name or by
      number (0 when the number is not set). */
  datatype ServiceBackend = ServiceBackend(name: string, portName: string, portNumber: int)

  datatype IngressPath = IngressPath(path: string, pathType: Option<string>, backend: Option<ServiceBackend>)

  /** A rule: its host ("" for any host) and, when it has an HTTP section,
      that section's paths. */
  datatype IngressRule = IngressRule(host: string, http: Option<seq<IngressPath>>)

  datatype IngressTLS = IngressTLS(hosts: seq<string>, secretName: string)

  datatype Ingress = Ingress(
    name: string,
    namespace: string,
    className: Option<string>,
    annotations: Labels,
    rules: seq<IngressRule>,
    tls: seq<IngressTLS>)

  // ---------------------------------------------------------------------------
  // Events, workloads, storage, metrics, policies
  // ---------------------------------------------------------------------------

  /** `kind` is the event type ("Normal" or "Warning"). */
  datatype Event = Event(
    kind: string,
    reason: string,
    involvedName: string,
    lastTimestamp: int,
    creationTimestamp: int)

  datatype Deployment = Deployment(name: string, replicas: Option<int>, availableReplicas: int)

  datatype PersistentVolumeClaim = PersistentVolumeClaim(name: string, phase: string)

  datatype ContainerUsage = ContainerUsage(name: string, cpuMillis: int, memBytes: int)

  datatype PodMetrics = PodMetrics(name: string, namespace: string, containers: seq<ContainerUsage>)

  /** A label-selector requirement: key, operator ("In", "NotIn", "Exists",
      "DoesNotExist") and values. */
  datatype Requirement = Requirement(key: string, operator: string, values: seq<string>)

  datatype LabelSelector = LabelSelector(matchLabels: Labels, matchExpressions: seq<Requirement>)

  /** A network policy with the number of ingress and egress rules it lists. */
  datatype NetworkPolicy = NetworkPolicy(
    name: string,
    podSelector: LabelSelector,
    policyTypes: seq<string>,
    ingressRules: nat,
    egressRules: nat)

  // ---------------------------------------------------------------------------
  // Label sets
  // ---------------------------------------------------------------------------

  /** A selector built from a label set matches a label set that carries
      every selector key with the same value; the empty set matches all. */
  predicate SelectorMatches(selector: Labels, labels: Labels) {
    forall k :: k in selector ==> k in labels && labels[k] == selector[k]
  }
}
