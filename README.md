# kube-doctor-mcp diagnosis rules in Dafny

kube-doctor-mcp is an MCP server that gives an assistant a set of
Kubernetes diagnostic tools. Each tool fetches pods, nodes, services,
endpoints, ingresses, network policies, events or metrics from the cluster,
applies a set of rules, and writes a text report of findings, tables and
Mermaid diagrams. This project models the rule layer that sits between the
fetched records and the report, and proves what each rule promises.

- **Health predicates and status labels** (`pods.dfy`, `nodes.dfy`,
  `diagnostics.dfy`): pod health, the pod status reason with its
  container, init-container, pod-reason and phase fallbacks, ready and
  restart counts with int32 wrap-around, node readiness and roles, and the
  namespace display name.
- **Topology resolvers** (`k8s_network.dfy`, `k8s_dependencies.dfy`,
  `k8s_events.dfy`): endpoint-health aggregation, ingress host/path search
  with `matchPath`, the AGIC annotation filter, the empty-selector rule for
  a service's pods, service dependency inference from environment
  variables, and event ordering and truncation.
- **Diagnostic rule engines**: `diagnose_pod`, `diagnose_namespace` and
  `find_unhealthy_pods` (`diagnostics.dfy`); the network tools' endpoint
  status, ingress details, log-error extraction, port checks, policy checks
  and ingress conflict detection (`network_tools.dfy`); the composite
  request-path diagnosis and cluster overview (`composite.dfy`,
  `request_path.dfy`, `cluster_overview.dfy`); `top_resource_consumers`
  (`metrics.dfy`, `sorting.dfy`); and the resource analysis tools for
  usage, node capacity, efficiency, network policies and CoreDNS health
  (`resource_usage.dfy`, `node_capacity.dfy`, `resource_efficiency.dfy`,
  `network_policies.dfy`, `dns_health.dfy`).
- **Mermaid builders** (`mermaid_*.dfy`): identifier and label
  sanitisation, node shapes and edge arrows, and the flowchart, subgraph,
  sequence, xychart and gantt builders. Each builder is a class whose
  methods append to its line lists, and each render method is proved to
  produce the text that a specification function gives.

Each fetch from the cluster is a parameter of type `Result`: the fetched
list, or the error the tool reports. The clock ("now") and the log text
are parameters too. So are the `util` constants: the restart threshold,
the event cap and the default top-N limit. A finding is a
`(severity, reason, subject)` value, not rendered text. Percentage
thresholds such as `usage / limit * 100 > 90` are stated as integer
cross-multiplication, for example `100 * usage > 90 * limit`. Go map
iteration order is not fixed by the model: a loop over a map picks any
remaining key, and its results are proved for every order.

The helper modules `StrUtil` (Go's `strings` functions used by the
source), `Seqs` (filtering, de-duplication, flat-map), `Wrappers`,
`Resources` (the Kubernetes records) and `Selectors` (label-selector
matching) carry no rows of their own.

Two rules are modelled as the code has them:
- The endpoint-status loop reports a failed endpoints fetch as ERROR
  before it tests for ExternalName (pkg/tools/network_analysis.go:643-686).
- The connectivity check flags deny-all ingress only when Ingress is
  listed explicitly (pkg/tools/network_analysis.go:896-902). The
  network-policy analysis infers Ingress when no type is listed
  (pkg/tools/resource_analysis.go:1104-1106). The model keeps both rules
  and proves that they differ (`NetworkTools.DenyAllIngressExplicit`,
  `NetworkPolicies.DefaultDeniesIngress`).

## Model

| member | source | states |
|---|---|---|
| Pods.StatusReason | pkg/tools/pods.go:220-226 | a container's reason is its non-empty Waiting reason, else its non-empty Terminated reason, else none; a reason is never "" |
| Pods.FirstReasonAt | pkg/tools/pods.go:220-227 | the scan yields the reason of the first container status that has one, in list order |
| Pods.PodPhaseReasonMain | pkg/tools/pods.go:218-227 | when some main container has a reason, the pod's reason is that of the first such container |
| Pods.PodPhaseReasonInit | pkg/tools/pods.go:229-236 | init statuses count only when no main container has a reason, and their reason carries the "Init:" prefix |
| Pods.PodPhaseReasonFallback | pkg/tools/pods.go:237-240 | with no container reason at all, the result is the non-empty pod reason, else the phase |
| Pods.Wrap32 | pkg/tools/pods.go:247-252 | the int32 restart counter: the result lies in the int32 range, is congruent to the input modulo 2^32 and equals it when it fits |
| Pods.WrapAdd | pkg/tools/pods.go:252 | adding into a wrapped int32 accumulator equals wrapping the exact sum |
| Pods.CountReady | pkg/tools/pods.go:249-251 | the ready count never exceeds the number of container statuses |
| Pods.PodContainerSummary | pkg/tools/pods.go:244-255 | total is the number of spec containers whatever the statuses; ready counts Ready statuses; restarts is the int32-wrapped sum of restart counts |
| Pods.DisplayNS | pkg/tools/pods.go:257-262 | "", "all" and "*" display as "all"; any other namespace is unchanged |
| Pods.DisplayNSIdempotent | pkg/tools/pods.go:257-262 | displayNS is idempotent |
| Nodes.FirstReady | pkg/tools/nodes.go:141-142 | locates the first condition of type Ready, and reports none exactly when there is no Ready condition |
| Nodes.NodeStatus | pkg/tools/nodes.go:140-150 | "Ready" iff the first Ready condition is True; "NotReady" iff it has any other status; "Unknown" iff there is no Ready condition |
| Nodes.FirstReadyUnique | pkg/tools/nodes.go:141-148 | only one condition can be the first Ready one, so the three outcomes are exclusive |
| Nodes.NodeRoles | pkg/tools/nodes.go:153-167 | the roles are exactly the non-empty remainders of labels with the node-role prefix, without repeats; the text is "<none>" iff there are none, else the roles joined by "," |
| K8sNetwork.Describe | pkg/k8s/network_analysis.go:67-75 | an endpoint address keeps its IP and carries the target pod name and the node name, each "" when absent |
| K8sNetwork.DescribeAll | pkg/k8s/network_analysis.go:66-87 | one described address per listed address |
| K8sNetwork.DescribeAllAt | pkg/k8s/network_analysis.go:66-87 | the i-th described address describes the i-th listed address, so order is kept |
| K8sNetwork.DescribeAllAppend | pkg/k8s/network_analysis.go:65-88 | describing the addresses of consecutive subsets concatenates their descriptions |
| K8sNetwork.DescribeAddresses | pkg/k8s/network_analysis.go:66-87 | the address loop builds exactly the described addresses, in order |
| K8sNetwork.GetServiceEndpointHealth | pkg/k8s/network_analysis.go:51-90 | a fetch error is returned; otherwise the ready and not-ready lists describe every subset's addresses in order, their counts are their lengths and the total is their sum |
| K8sNetwork.EndpointTotal | pkg/k8s/network_analysis.go:65-89 | ready plus not-ready addresses is the number of addresses in all subsets |
| K8sNetwork.ParseAGICAnnotations | pkg/k8s/network_analysis.go:196-207 | the result holds exactly the annotations whose key has the AGIC prefix, with the prefix stripped and the value kept, each key once |
| K8sNetwork.FilterMatching | pkg/k8s/network_analysis.go:218-223 | the listed pods are exactly those whose labels carry every selector pair |
| K8sNetwork.GetPodsForService | pkg/k8s/network_analysis.go:210-224 | a service with an empty selector yields no pods and no error; otherwise a listing error is returned, else the pods its selector matches |
| K8sNetwork.MatchPath | pkg/k8s/network_analysis.go:270-279 | an Exact path matches iff it equals the pattern; Prefix and every other type match iff the path starts with the pattern |
| K8sNetwork.EmptyPatternMatchesAll | pkg/k8s/network_analysis.go:274-277 | an empty non-Exact pattern matches every path |
| K8sNetwork.FindIngressForHostPath | pkg/k8s/network_analysis.go:228-267 | returns the first (ingress, rule, path), in list order, whose host is equal, whose rule has HTTP paths and whose path matches with a missing type read as Prefix; when none serves, returns the "no ingress found" error |
| K8sDependencies.NamesOf | pkg/k8s/network_analysis.go:113-116 | the name set holds exactly the listed services' names |
| K8sDependencies.OwnerOf | pkg/k8s/network_analysis.go:126-137 | a pod has an owner iff some service with a non-empty selector matches its labels, and the owner is a listed service |
| K8sDependencies.GroupedNonEmpty | pkg/k8s/network_analysis.go:124-137 | only services that received a pod appear in the pod map |
| K8sDependencies.GroupedSound | pkg/k8s/network_analysis.go:124-137 | a pod listed under a service is a listed pod whose first matching service is that one |
| K8sDependencies.GroupedComplete | pkg/k8s/network_analysis.go:124-137 | every pod with an owner is listed under its owner, so each pod goes to at most one service |
| K8sDependencies.FindOwner | pkg/k8s/network_analysis.go:128-136 | the inner loop stops at the first service, in list order, whose non-empty selector matches |
| K8sDependencies.StepConf | pkg/k8s/network_analysis.go:146-176 | one variable gives an edge to t iff it is a `_SERVICE_HOST` variable naming t (high) or its value contains `t.namespace` (medium); high takes precedence |
| K8sDependencies.FirstConfidenceSpec | pkg/k8s/network_analysis.go:142-180 | an edge is revealed iff some variable reveals it, and its confidence is that of the first such variable, since later hits are skipped as already seen |
| K8sDependencies.LinkedAdd | pkg/k8s/network_analysis.go:151-158 | recording a new edge and marking its (from, to) pair seen keeps each pair recorded once |
| K8sDependencies.ScanHost | pkg/k8s/network_analysis.go:147-160 | the `_SERVICE_HOST` check records a high edge to an existing other service unless that pair was seen |
| K8sDependencies.ScanValue | pkg/k8s/network_analysis.go:163-177 | the value check records a medium edge to every other service whose `name.namespace` it contains, unless that pair was seen |
| K8sDependencies.ScanEnv | pkg/k8s/network_analysis.go:145-178 | one variable: after both checks every edge it reveals is recorded with its first confidence |
| K8sDependencies.ScanVars | pkg/k8s/network_analysis.go:145-178 | the variable loop of one container keeps the scan sound and complete |
| K8sDependencies.ScanContainers | pkg/k8s/network_analysis.go:144-179 | the container loop of one pod keeps the scan sound and complete |
| K8sDependencies.ScanSource | pkg/k8s/network_analysis.go:143-180 | the pod loop of one service keeps the scan sound and complete |
| K8sDependencies.GroupPods | pkg/k8s/network_analysis.go:124-138 | the attribution loop builds exactly the service-to-pods map |
| K8sDependencies.ScanAll | pkg/k8s/network_analysis.go:142-181 | after all services, in any map order, the edges are sound, complete and pairwise distinct |
| K8sDependencies.InferServiceDependencies | pkg/k8s/network_analysis.go:104-183 | listing errors pass through; every edge stays in the namespace, comes from the env of a service with pods, goes to another listed service and has its first confidence; every revealed edge is reported once |
| K8sEvents.EffectiveTime | pkg/k8s/events.go:25-32 | an event's time is its last timestamp, or its creation timestamp when the last one is zero |
| K8sEvents.ListEvents | pkg/k8s/events.go:18-40 | a listing error passes through; otherwise the result is sorted most recent first, has min(count, MaxEvents) events drawn from the listing, is the whole listing when it fits, and every dropped event is no newer than those kept |
| K8sEvents.DroppedAreOlder | pkg/k8s/events.go:36-39 | truncating a list sorted most recent first drops only events no newer than every kept one |
| K8sEvents.EventSelector | pkg/k8s/events.go:45-47 | the field selector is "involvedObject.name=" followed by exactly the object's name |
| K8sEvents.SelectEvents | pkg/k8s/events.go:45-47 | the field selector keeps exactly the events whose involved object has that name |
| K8sEvents.SelectorSelects | pkg/k8s/events.go:45-47 | an event passes the selector "involvedObject.name=" + name exactly when the selector built from its own involved object's name is the same string, so the selected events are those the selector asks for |
| K8sEvents.GetEventsForObject | pkg/k8s/events.go:44-49 | a listing error passes through; otherwise the events about that object, sorted most recent first and cut to MaxEvents: min(count, MaxEvents) of them, all of them when they fit, only events about that object, and none dropped that is newer than one kept |
| Diagnostics.StatusesUp | pkg/tools/diagnostics.go:621-628 | true iff every container status is Ready and none is waiting; vacuously true without statuses |
| Diagnostics.IsPodHealthy | pkg/tools/diagnostics.go:618-636 | healthy iff the pod Succeeded, or it is Running with every status ready and none waiting |
| Diagnostics.FindUnhealthyPods | pkg/tools/diagnostics.go:517-531 | one row per pod that is not healthy, in listing order, and none for a healthy pod |
| Diagnostics.WaitingFindings | pkg/tools/diagnostics.go:69-93 | exactly one finding per waiting container; it is critical iff the reason is CrashLoopBackOff, ImagePullBackOff or ErrImagePull, else a warning |
| Diagnostics.LimitFindings | pkg/tools/diagnostics.go:121-132 | a missing or zero CPU limit and a missing or zero memory limit each raise their own INFO finding; no limits at all raises both |
| Diagnostics.StatusFindingsEmpty | pkg/tools/diagnostics.go:68-104 | the statuses raise nothing iff each is not waiting, has not exited non-zero and is under the restart threshold |
| Diagnostics.ConditionFindingsEmpty | pkg/tools/diagnostics.go:107-118 | the conditions raise nothing iff none is a False PodScheduled or a False Ready |
| Diagnostics.LimitFindingsEmpty | pkg/tools/diagnostics.go:121-132 | the containers raise nothing iff each has a non-zero CPU limit and a non-zero memory limit |
| Diagnostics.NoIssues | pkg/tools/diagnostics.go:134-136 | "no issues" is printed iff every status, condition and container is quiet |
| Diagnostics.MatchingWithLimits | pkg/tools/diagnostics.go:182-187 | an OOMKilled container yields only memory-increase actions, one per spec container of that name with limits |
| Diagnostics.StatusActionsMemoryOnly | pkg/tools/diagnostics.go:180-199 | statuses with no waiting state can only suggest more memory |
| Diagnostics.HealthyPodActions | pkg/tools/diagnostics.go:180-204 | a running pod that counts as healthy is never told to check images, logs or scheduling |
| Diagnostics.CheckStatuses | pkg/tools/diagnostics.go:68-104 | the status loop raises exactly the findings of each status, in order |
| Diagnostics.CheckConditionsAndLimits | pkg/tools/diagnostics.go:107-132 | the condition and limit loops raise their findings, conditions first |
| Diagnostics.CheckPodConditions | pkg/tools/diagnostics.go:107-118 | the condition loop raises exactly the findings of each condition |
| Diagnostics.CheckContainerLimits | pkg/tools/diagnostics.go:121-132 | the limit loop raises exactly the findings of each container |
| Diagnostics.SuggestMemory | pkg/tools/diagnostics.go:181-188 | the inner loop suggests more memory once per same-named container with limits |
| Diagnostics.CollectActions | pkg/tools/diagnostics.go:180-204 | the action loops produce the pod's actions in print order |
| Diagnostics.NumberActions | pkg/tools/diagnostics.go:178-208 | actions are numbered consecutively from 1, and the next number is one past the last |
| Diagnostics.DiagnosePod | pkg/tools/diagnostics.go:47-209 | the report shows the pod's reason and restarts and its findings; "no issues" iff none; warning events are counted only when listed; actions are numbered from 1; "no specific actions" iff none |
| Diagnostics.NamespaceFindings | pkg/tools/diagnostics.go:246-334 | one finding per kind of problem that occurs; none iff there are no unhealthy or restarting pods and no failing deployments, recent warnings or pending claims among the lists that were fetched |
| Diagnostics.CountMatching | pkg/tools/diagnostics.go:231-241 | a counting loop counts exactly the elements that satisfy the test |
| Diagnostics.CountFetched | pkg/tools/diagnostics.go:271-327 | a list that failed to fetch is skipped, otherwise its matching elements are counted |
| Diagnostics.DiagnoseNamespace | pkg/tools/diagnostics.go:220-348 | a pod listing error is returned; otherwise counts unhealthy pods, pods over the restart threshold, deployments with fewer available than desired replicas, warnings newer than an hour and claims not Bound, skipping lists that failed |
| NetworkTools.PathsOverlap | pkg/tools/network_analysis.go:1503-1513 | two paths overlap iff one is a prefix of the other |
| NetworkTools.PathsOverlapProperties | pkg/tools/network_analysis.go:1503-1513 | overlap is symmetric and reflexive, and the empty path overlaps every path |
| NetworkTools.IngressClassName | pkg/tools/network_analysis.go:1487-1495 | the spec class name, else the `kubernetes.io/ingress.class` annotation, else "<none>" |
| NetworkTools.RuleHostsMembers | pkg/tools/network_analysis.go:1470-1472 | the listed hosts are exactly the non-empty rule hosts |
| NetworkTools.AddRulePaths | pkg/tools/network_analysis.go:1473-1481 | the loop over one rule's paths appends every path and each backend name not yet seen |
| NetworkTools.ExtractIngressDetails | pkg/tools/network_analysis.go:1467-1484 | hosts are the non-empty rule hosts in order with repeats; paths are every HTTP path in order; backends are the backend names de-duplicated in first-occurrence order |
| NetworkTools.ErrorLinesSpec | pkg/tools/network_analysis.go:1516-1533 | one entry per non-blank line that contains a keyword, each the trimmed line, in order and never blank |
| NetworkTools.MentionsKeyword | pkg/tools/network_analysis.go:1525-1530 | the keyword loop finds a keyword iff the line contains one of the listed keywords |
| NetworkTools.ExtractLogErrors | pkg/tools/network_analysis.go:1516-1533 | the scan returns exactly the trimmed error lines of the log split on newlines, each line at most once |
| NetworkTools.ClassifyEndpoints | pkg/tools/network_analysis.go:643-668 | ERROR iff the health fetch failed; else EXTERNAL for ExternalName; else with no endpoints NO-SELECTOR for an empty selector and DEAD otherwise; else DEGRADED iff some endpoint is not ready; else HEALTHY |
| NetworkTools.StatusMeaning | pkg/tools/network_analysis.go:656-668 | with consistent counts, DEAD means no ready endpoint, DEGRADED some not-ready one, HEALTHY all endpoints ready and at least one |
| NetworkTools.CountsWithinRows | pkg/tools/network_analysis.go:637-683 | healthy + degraded + dead never exceeds the number of services |
| NetworkTools.RowFindingsEmpty | pkg/tools/network_analysis.go:689-708 | no finding is printed iff no row is DEAD, DEGRADED or ERROR |
| NetworkTools.EndpointFindings | pkg/tools/network_analysis.go:689-705 | the findings loop raises one CRITICAL per DEAD row and one WARNING per DEGRADED or ERROR row, in row order |
| NetworkTools.ListEndpointHealth | pkg/tools/network_analysis.go:615-711 | an empty namespace is refused and a listing error returned; otherwise one row per service with its status, counters agreeing with the rows and bounded by the services, and "all healthy" iff there are services and no findings |
| NetworkTools.TraceBackendPort | pkg/tools/network_analysis.go:404-409 | the backend port is the decimal number when non-zero, else the name |
| NetworkTools.PortMismatch | pkg/tools/network_analysis.go:432-443 | a mismatch warning iff the port is non-empty and equals neither the decimal number nor the name of any service port |
| NetworkTools.DeclaredBackendPort | pkg/tools/network_analysis.go:404-443 | a backend naming a declared port by number or by name raises no mismatch |
| NetworkTools.IngressEntriesEmpty | pkg/tools/network_analysis.go:896-902 | the loop over policy types warns iff Ingress is listed |
| NetworkTools.DenyAllIngressExplicit | pkg/tools/network_analysis.go:896-902 | a policy is flagged iff it lists Ingress explicitly and has no ingress rules; a policy with no listed types is never flagged |
| NetworkTools.SelectsAnyPod | pkg/tools/network_analysis.go:892-906 | the pod loop finds a match iff the policy selector matches some pod of the service |
| NetworkTools.DenyAllWarnings | pkg/tools/network_analysis.go:896-902 | the loop over types raises the policy's deny-all warnings |
| NetworkTools.PoliciesAffectingService | pkg/tools/network_analysis.go:884-913 | counts the policies that select some pod of a service with a selector, and collects their deny-all warnings |
| NetworkTools.HostKey | pkg/tools/network_analysis.go:1092-1096 | a rule is filed under its host, or "*" for the empty host; the key is never empty |
| NetworkTools.FileAllGroups | pkg/tools/network_analysis.go:1070-1120 | a host is present exactly when some entry is filed under it, and its list holds its entries in order |
| NetworkTools.FileRule | pkg/tools/network_analysis.go:1106-1120 | the loop over one rule's paths appends each entry to its host's list |
| NetworkTools.FileIngress | pkg/tools/network_analysis.go:1091-1120 | the loop over one ingress's rules files all its HTTP paths |
| NetworkTools.CollectHostPaths | pkg/tools/network_analysis.go:1070-1120 | the audit files every path of every HTTP rule of every ingress under its host, in order |
| NetworkTools.ConflictsAt | pkg/tools/network_analysis.go:1207-1222 | reports exactly the pairs i < j of one host's entries from different ingresses whose paths overlap, each once |
| NetworkTools.FindConflicts | pkg/tools/network_analysis.go:1203-1224 | over all hosts, in any map order, every conflicting pair under the same host is reported exactly once |
| Composite.ShownTarget | pkg/tools/composite_diagnostics.go:1061-1064 | the target shown is the port's own target, or the port number when the target reads "0" or "" |
| Composite.PortEntry | pkg/tools/composite_diagnostics.go:1065-1071 | an entry reads `port→target`, is wrapped as `name(...)` when the port is named, and ends in `/PROTO` when the protocol is not TCP |
| Composite.PortEntriesAt | pkg/tools/composite_diagnostics.go:1060-1073 | the k-th entry describes the k-th port, so entries keep port order |
| Composite.JoinStartsWithFirst | pkg/tools/composite_diagnostics.go:1074 | the joined list begins with the first entry |
| Composite.FormatServicePorts | pkg/tools/composite_diagnostics.go:1055-1075 | "<none>" iff the service has no ports, otherwise the port entries in order joined by ", " |
| Composite.PortEntryTexts | pkg/tools/composite_diagnostics.go:1060-1073 | the port loop builds exactly the entries, in port order |
| Composite.JoinedPortsShowArrow | pkg/tools/composite_diagnostics.go:1059-1074 | a service with ports never prints "<none>", because every entry shows an arrow |
| Composite.LabelOrEmpty | pkg/tools/composite_diagnostics.go:1083 | a Go map read: the value of a present key, "" for a missing one |
| Composite.MatchesSvcSelector | pkg/tools/composite_diagnostics.go:1078-1088 | true for an empty policy selector; otherwise true iff every policy label reads the same in the service labels, a missing key reading "" |
| Composite.SvcSelectorAgrees | pkg/tools/composite_diagnostics.go:1082-1087 | with non-empty policy values the test is ordinary selector matching |
| Composite.SelectorMatchesHolds | pkg/tools/composite_diagnostics.go:1082-1087 | labels matched in the ordinary sense always pass the test |
| Composite.SvcSelectorEmptyValue | pkg/tools/composite_diagnostics.go:1083 | a policy label with the empty value is met by a service that lacks the key, unlike ordinary matching |
| Composite.UsageBand | pkg/tools/composite_diagnostics.go:301-323 | with a positive limit, usage at or above 90% is critical and at or above 70% a warning; a zero limit never raises a finding |
| Composite.UsageBandMonotone | pkg/tools/composite_diagnostics.go:301-323 | more usage against the same limit never lowers the severity band |
| Composite.UniqueActions | pkg/tools/composite_diagnostics.go:343-354 | the printed actions are the suggested ones each once, in first-occurrence order, numbered from 1 |
| RequestPath.Then | pkg/tools/composite_diagnostics.go:60-61 | the report's findings and actions accumulate layer by layer in order |
| RequestPath.ThenAssoc | pkg/tools/composite_diagnostics.go:60-61 | accumulating layers is associative, so the grouping of the checks does not matter |
| RequestPath.DefaultPath | pkg/tools/composite_diagnostics.go:48-51 | the path looked up is "/" when none is given, else the given path |
| RequestPath.CheckTLS | pkg/tools/composite_diagnostics.go:98-106 | the loops find TLS iff some TLS entry lists exactly the queried host |
| RequestPath.NoLimitFindings | pkg/tools/composite_diagnostics.go:243-248 | at most one INFO finding per container, for one without any CPU or memory limit |
| RequestPath.ContainerChecks | pkg/tools/composite_diagnostics.go:243-260 | the limit loop and then the probe loop of one pod's containers |
| RequestPath.PodHeadChecks | pkg/tools/composite_diagnostics.go:229-240 | an unhealthy pod is critical with the advice to diagnose it; restarts above the threshold are a warning |
| RequestPath.PodChecks | pkg/tools/composite_diagnostics.go:229-261 | the checks of every backing pod, in pod order |
| RequestPath.UsageMapLast | pkg/tools/composite_diagnostics.go:270-277 | the metrics map keeps, for each pod name, the containers of its last metrics entry |
| RequestPath.UsageMapKeys | pkg/tools/composite_diagnostics.go:270-277 | the metrics map holds exactly the names of the metrics entries |
| RequestPath.BuildUsageMap | pkg/tools/composite_diagnostics.go:270-277 | the loop builds the pod-to-container usage map |
| RequestPath.ContainersUsageChecks | pkg/tools/composite_diagnostics.go:284-328 | each container with figures is checked, CPU then memory; a critical memory band adds the advice to raise the limit |
| RequestPath.UsageChecks | pkg/tools/composite_diagnostics.go:279-329 | the usage checks of every backing pod that has figures, in pod order |
| RequestPath.IngressChecks | pkg/tools/composite_diagnostics.go:98-127 | the TLS check, then a warning for warning events on the ingress |
| RequestPath.DownstreamChecks | pkg/tools/composite_diagnostics.go:165-330 | the service, endpoint, pod and usage checks, in that order |
| RequestPath.DiagnoseRequestPath | pkg/tools/composite_diagnostics.go:47-354 | the walk along the path produces exactly the layered report, stopping at the first layer that cannot continue |
| RequestPath.AfterIngress | pkg/tools/composite_diagnostics.go:75-354 | the layers after the ingress match: the backend exit, the service exit, then the full report |
| RequestPath.EarlyExits | pkg/tools/composite_diagnostics.go:64-162 | no ingress gives exactly one CRITICAL finding for the host and path, then the actions to create an ingress for that host and path and to list the ingresses; no backend name gives a CRITICAL and no actions; an unreadable service gives a CRITICAL and the advice to create it after the actions so far; no early exit reports the path healthy |
| RequestPath.BackendPortLabel | pkg/tools/composite_diagnostics.go:136-143 | the request path shows the port name when it is set, else the decimal number, possibly "0" |
| RequestPath.PortLabelPrecedence | pkg/tools/composite_diagnostics.go:136-143 | a backend with both a name and a number is shown by name here and by number in the ingress trace |
| RequestPath.NoLimitFindingsEmpty | pkg/tools/composite_diagnostics.go:243-248 | no limit finding iff every container has some limit |
| RequestPath.ProbeLayerEmpty | pkg/tools/composite_diagnostics.go:251-256 | no probe finding iff every container has a readiness probe |
| RequestPath.PodLayerQuiet | pkg/tools/composite_diagnostics.go:229-261 | one pod raises nothing iff it is healthy, within the restart threshold, and each container has a limit and a readiness probe |
| RequestPath.PodsLayerQuiet | pkg/tools/composite_diagnostics.go:229-261 | the pod checks raise nothing iff every pod is quiet |
| RequestPath.HealthyPath | pkg/tools/composite_diagnostics.go:336-339 | a path reported healthy has an ingress, a backend and a service, TLS for the host, no warning events, ready endpoints and only quiet pods |
| RequestPath.ActionsJustified | pkg/tools/composite_diagnostics.go:111-318 | every suggested action answers to a finding of the same report |
| RequestPath.ActionsShownOnce | pkg/tools/composite_diagnostics.go:343-354 | no action is printed twice, whichever layer the diagnosis stopped at |
| RequestPath.MissingTLSReported | pkg/tools/composite_diagnostics.go:107-112 | a host without TLS is always a WARNING, and its advice is shown unless the path has no backend |
| ClusterOverview.PressureFindings | pkg/tools/composite_diagnostics.go:693-698 | every memory, disk or PID pressure condition that is True raises a warning about the node named after the condition, every finding raised is such a warning for some condition under pressure, and there are exactly as many findings as conditions under pressure |
| ClusterOverview.PressureChecks | pkg/tools/composite_diagnostics.go:693-698 | the condition loop raises exactly the pressure warnings |
| ClusterOverview.NodeChecks | pkg/tools/composite_diagnostics.go:686-698 | a node that is not Ready is critical and is not counted ready; then its pressure warnings |
| ClusterOverview.CheckNodes | pkg/tools/composite_diagnostics.go:684-700 | the node loop raises every node's findings in order and counts the Ready nodes |
| ClusterOverview.PressureNotCritical | pkg/tools/composite_diagnostics.go:693-698 | pressure findings are never critical |
| ClusterOverview.NodeCriticals | pkg/tools/composite_diagnostics.go:684-700 | critical node findings plus ready nodes equals the number of nodes |
| ClusterOverview.Utilization | pkg/tools/composite_diagnostics.go:703-735 | with node metrics available and non-empty, a warning each when total CPU or memory use is above 85% of a positive capacity; nothing otherwise |
| ClusterOverview.Over85IsHigh | pkg/tools/composite_diagnostics.go:727-734 | usage above the cluster's 85% mark always falls in a per-container warning or critical band |
| ClusterOverview.AggregatePods | pkg/tools/composite_diagnostics.go:743-757 | the pod loop builds the per-namespace totals, unhealthy counts and high-restart counts |
| ClusterOverview.TallyNamespace | pkg/tools/composite_diagnostics.go:746-756 | one pod bumps its namespace's entry, starting from zero for a new namespace |
| ClusterOverview.NamespaceCountsMeaning | pkg/tools/composite_diagnostics.go:743-757 | a namespace has an entry iff some pod lives in it, and its entry is flagged iff one of its pods is unhealthy or over the restart threshold |
| ClusterOverview.NamespaceCountsExact | pkg/tools/composite_diagnostics.go:743-757 | each namespace's entry holds exactly the number of its pods, of its unhealthy pods and of its pods over the restart threshold; a namespace without an entry has no pods |
| ClusterOverview.SumUnhealthyRemove | pkg/tools/composite_diagnostics.go:772-774 | the unhealthy total does not depend on the order of map iteration |
| ClusterOverview.TotalUnhealthyCount | pkg/tools/composite_diagnostics.go:771-775 | the cluster-wide unhealthy total is the number of unhealthy pods |
| ClusterOverview.TotalUnhealthy | pkg/tools/composite_diagnostics.go:771-774 | the loop over namespaces, in any order, adds up every unhealthy count |
| ClusterOverview.FlaggedRows | pkg/tools/composite_diagnostics.go:761-765 | one row per namespace with unhealthy or high-restart pods, and no other |
| ClusterOverview.SortRows | pkg/tools/composite_diagnostics.go:767-768 | the rows are a permutation of the flagged rows ordered by unhealthy count, largest first (the intended order; see Findings) |
| ClusterOverview.TextOrderMisranks | pkg/tools/composite_diagnostics.go:768 | comparing the counts as decimal text forces a namespace with 9 unhealthy pods ahead of one with 10 |
| ClusterOverview.FlaggedRowsIff | pkg/tools/composite_diagnostics.go:761-779 | some row is shown iff some pod is unhealthy or over the restart threshold |
| ClusterOverview.ScanAgreesWithListing | pkg/tools/composite_diagnostics.go:790-809 | the scan skips ExternalName services, selector-less services and unreadable health; it calls a service dead exactly when the endpoint table says DEAD and degraded exactly when it says DEGRADED |
| ClusterOverview.ScanEndpoints | pkg/tools/composite_diagnostics.go:788-813 | the scan raises each service's finding in order; dead is the number of critical findings, and dead plus degraded the number of findings |
| ClusterOverview.ReasonCountsMeaning | pkg/tools/composite_diagnostics.go:824-833 | the reason map lists exactly the reasons that occur, each with its number of events |
| ClusterOverview.CountReasonAbsent | pkg/tools/composite_diagnostics.go:832 | a reason no event carries has count zero |
| ClusterOverview.CountRecentWarnings | pkg/tools/composite_diagnostics.go:822-834 | counts the warning events newer than an hour, using the effective time, and their numbers per reason |
| ClusterOverview.NamespaceSection | pkg/tools/composite_diagnostics.go:743-779 | the flagged rows in descending unhealthy order (the intended order; see Findings), the cluster-wide unhealthy total, and one warning iff some row is shown |
| ClusterOverview.ClusterHealthOverview | pkg/tools/composite_diagnostics.go:670-874 | a node listing error ends the overview; otherwise every section's findings in order, the ready node count, namespace rows sorted by unhealthy count (the intended order; see Findings), and "healthy" iff there is no finding; a section whose listing fails is skipped |
| ClusterOverview.HealthyCluster | pkg/tools/composite_diagnostics.go:870-871 | a cluster reported healthy has every node Ready and free of pressure, no flagged pod, no dead or degraded scanned service, no recent warning and a healthy kube-system |
| ClusterOverview.NodesQuiet | pkg/tools/composite_diagnostics.go:684-699 | no node finding means every node is Ready and free of pressure |
| ClusterOverview.ScanQuiet | pkg/tools/composite_diagnostics.go:790-810 | no scan finding means no scanned service is dead or degraded |
| Metrics.UnitSize | pkg/tools/metrics.go:193-197 | the binary units Ki, Mi and Gi are 1024, 1024² and 1024³ bytes |
| Metrics.FormatBytes | pkg/tools/metrics.go:192-208 | Gi iff b ≥ 2^30; Mi iff 2^20 ≤ b < 2^30; Ki iff 1024 ≤ b < 2^20; otherwise the exact decimal count followed by "B" |
| Metrics.ScaledInRange | pkg/tools/metrics.go:198-204 | a scaled count is at least one of its unit, and below 1024 of it except in Gi |
| Metrics.FormatBytesMonotone | pkg/tools/metrics.go:198-207 | a larger count is never shown in a smaller unit |
| Metrics.EffectiveLimit | pkg/tools/metrics.go:126-129 | a limit ≤ 0 is replaced by the default row count |
| Metrics.SumsAppend | pkg/tools/metrics.go:145-149 | the per-pod CPU and memory sums add up over any split of the containers |
| Metrics.SumsBound | pkg/tools/metrics.go:145-149 | with no negative readings, a pod's total is at least any one container's usage |
| Metrics.SumsNonNegative | pkg/tools/metrics.go:145-149 | with no negative readings, a pod's totals are not negative |
| Metrics.TotalUsage | pkg/tools/metrics.go:145-155 | the container loop sums CPU millis and memory bytes into the pod's usage |
| Metrics.UsagesAt | pkg/tools/metrics.go:144-156 | the k-th usage row is the usage of the k-th pod listed |
| Metrics.SortKey | pkg/tools/metrics.go:159-164 | "memory" or "mem", in any letter case, sorts by memory; anything else sorts by CPU |
| Metrics.SortKeyIgnoresCase | pkg/tools/metrics.go:159-163 | two spellings of the resource that agree once lower-cased choose the same sort key |
| Metrics.TopResourceConsumers | pkg/tools/metrics.go:124-187 | a metrics error is returned; otherwise min(#pods, limit) rows, descending by the chosen key, drawn from the pods' usages, all of them when they fit, and every pod left out using no more than every pod shown |
| Metrics.CollectUsages | pkg/tools/metrics.go:143-156 | the metrics loop builds one usage row per pod, in listing order |
| Metrics.TopRows | pkg/tools/metrics.go:158-168 | the sort and cut give a descending prefix of the usages of length min(#usages, n) |
| Metrics.Min | pkg/tools/metrics.go:166-168 | the cut keeps the smaller of the row count and the limit |
| Metrics.DroppedRankLower | pkg/tools/metrics.go:166-168 | what the cut leaves out of a descending list ranks no higher than anything kept |
| Sorting.MaxIndex | pkg/tools/metrics.go:161-163 | finds a position holding a largest key of the unsorted remainder |
| Sorting.SortDescending | pkg/tools/metrics.go:161-163 | sorts in place, largest key first, as a permutation of the input; ties may end in any order, as with sort.Slice |
| Sorting.SwapStep | pkg/k8s/events.go:24-34 | swapping a largest remaining key into place extends the sorted prefix and keeps the contents |
| Sorting.PrefixOfSorted | pkg/k8s/events.go:36-39 | a prefix of a sorted list is sorted, holds the largest keys, and is drawn from the list |
| MermaidCommon.SeverityStyle | pkg/mermaid/common.go:53-58 | exactly the four known severities have a style, and every style is a `fill:#` colour declaration |
| MermaidCommon.Sanitize | pkg/mermaid/common.go:61-65 | every character outside letters, digits and `_` becomes `_`, position by position, length kept |
| MermaidCommon.SafeID | pkg/mermaid/common.go:64-74 | the identifier is never empty, never starts with a digit, holds only identifier characters; empty input gives `_`, a leading digit gets one `_` in front, otherwise the length is kept |
| MermaidCommon.SafeIDFixesIdentifiers | pkg/mermaid/common.go:64-74 | a name that is already a valid identifier is returned unchanged |
| MermaidCommon.SafeIDIdempotent | pkg/mermaid/common.go:64-74 | applying SafeID twice gives the same identifier as applying it once |
| MermaidCommon.SafeIDCollides | pkg/mermaid/common.go:64-74 | distinct names such as `a-b` and `a.b` map to the same identifier (the sanitisation is not injective) |
| MermaidCommon.EscapeLabel | pkg/mermaid/common.go:125-128 | the escaped label holds no double quote, grows by five characters per quote, and is unchanged when there is no quote |
| MermaidCommon.EscapeLabelIdempotent | pkg/mermaid/common.go:125-128 | escaping an escaped label changes nothing |
| MermaidCommon.ShapeDelimiters | pkg/mermaid/common.go:82-101 | opening and closing delimiters are non-empty and of equal length; an unknown shape falls back to the rectangle `[` `]` |
| MermaidCommon.NodeShape | pkg/mermaid/common.go:82-101 | the node text is the identifier followed by the label enclosed exactly in the shape's delimiters; unknown shapes render as `id[text]` |
| MermaidCommon.ArrowOf | pkg/mermaid/common.go:104-122 | any style other than dotted or thick gives the solid arrow `-->` |
| MermaidCommon.EdgeArrow | pkg/mermaid/common.go:104-122 | the edge starts with the style's arrow; it is the bare arrow exactly when the label is empty, otherwise the label follows between pipes |
| MermaidCommon.WrapBlock | pkg/mermaid/common.go:77-79 | the block starts with the mermaid fence, ends with the closing fence, and holds the code unchanged between them |
| MermaidCommon.WrapBlockInjective | pkg/mermaid/common.go:77-79 | two different diagrams never produce the same fenced block |
| MermaidCommon.Indented | pkg/mermaid/flowchart.go:108-112 | each line is prefixed with the four-space indent, one output line per input line |
| MermaidCommon.IndentedAppend | pkg/mermaid/flowchart.go:108-112 | indenting distributes over concatenation of line lists |
| MermaidCommon.SubgraphBlock | pkg/mermaid/flowchart.go:33-42 | a subgraph is its `subgraph id["label"]` header with the label escaped, the indented body, and a closing `end` line |
| MermaidFlowchart.RenderLayout | pkg/mermaid/flowchart.go:65-75 | when no line holds a newline, splitting the rendered text on newlines gives back the header, the lines, then the styles, in that order |
| MermaidFlowchart.BuildSubgraphBlock | pkg/mermaid/flowchart.go:33-42 | the loop that indents the subgraph body builds exactly the subgraph block |
| MermaidFlowchart.Subgraph.constructor | pkg/mermaid/flowchart.go:34 | a new subgraph has no lines |
| MermaidFlowchart.Subgraph.AddNode | pkg/mermaid/flowchart.go:88-91 | appends exactly one indented node line |
| MermaidFlowchart.Subgraph.AddEdge | pkg/mermaid/flowchart.go:94-97 | appends exactly one indented edge line |
| MermaidFlowchart.Subgraph.AddRaw | pkg/mermaid/flowchart.go:100-103 | appends the raw line with the indent |
| MermaidFlowchart.Subgraph.AddNestedSubgraph | pkg/mermaid/flowchart.go:106-115 | appends the nested subgraph's block: header, its lines indented once more, `end` |
| MermaidFlowchart.Flowchart.constructor | pkg/mermaid/flowchart.go:16-18 | a new flowchart has the given direction and no lines or styles |
| MermaidFlowchart.Flowchart.AddNode | pkg/mermaid/flowchart.go:21-24 | appends one node line; styles and direction are unchanged |
| MermaidFlowchart.Flowchart.AddEdge | pkg/mermaid/flowchart.go:27-30 | appends one edge line; styles and direction are unchanged |
| MermaidFlowchart.Flowchart.AddSubgraph | pkg/mermaid/flowchart.go:33-42 | appends the subgraph's block, growing the lines by the body plus two |
| MermaidFlowchart.Flowchart.AddStyle | pkg/mermaid/flowchart.go:45-50 | a known severity appends one style line with its colour; an unknown severity leaves the chart unchanged |
| MermaidFlowchart.Flowchart.AddRawStyle | pkg/mermaid/flowchart.go:53-56 | appends one style line with the given style text |
| MermaidFlowchart.Flowchart.AddRaw | pkg/mermaid/flowchart.go:59-62 | appends the raw line with the indent |
| MermaidFlowchart.Flowchart.Render | pkg/mermaid/flowchart.go:65-75 | the rendered text is the header, every line, then every style, each newline-terminated (layout proved by RenderLayout) |
| MermaidFlowchart.Flowchart.RenderBlock | pkg/mermaid/flowchart.go:78-80 | the fenced block of the rendered text |
| MermaidSequence.ArrowStyle | pkg/mermaid/sequence.go:96-108 | unknown styles give the solid arrow `->>`; every arrow starts with `-` |
| MermaidSequence.ArrowStylesDistinct | pkg/mermaid/sequence.go:96-108 | two styles draw the same arrow only when they are equal or both fall back to the solid default, so dotted, solid_open, dotted_open and the default draw four different arrows |
| MermaidSequence.RenderLayout | pkg/mermaid/sequence.go:110-118 | when no line holds a newline, splitting the rendered text gives the header followed by the lines in order |
| MermaidSequence.Sequence.constructor | pkg/mermaid/sequence.go:33-35 | a new sequence diagram has no lines |
| MermaidSequence.Sequence.AddParticipant | pkg/mermaid/sequence.go:38-41 | appends one `participant id as label` line |
| MermaidSequence.Sequence.AddActor | pkg/mermaid/sequence.go:44-47 | appends one `actor id as label` line |
| MermaidSequence.Sequence.AddMessage | pkg/mermaid/sequence.go:50-54 | appends one message line using the style's arrow |
| MermaidSequence.Sequence.AddNote | pkg/mermaid/sequence.go:57-60 | appends one note line at the given position |
| MermaidSequence.Sequence.AddNoteSpanning | pkg/mermaid/sequence.go:63-66 | appends one `Note over from,to` line |
| MermaidSequence.Sequence.AddActivate | pkg/mermaid/sequence.go:69-72 | appends one `activate` line |
| MermaidSequence.Sequence.AddDeactivate | pkg/mermaid/sequence.go:75-78 | appends one `deactivate` line |
| MermaidSequence.Sequence.AddRect | pkg/mermaid/sequence.go:81-88 | appends the `rect colour` line, the inner diagram's lines unchanged, and `end` |
| MermaidSequence.Sequence.AddRaw | pkg/mermaid/sequence.go:91-94 | appends the raw line with the indent |
| MermaidSequence.Sequence.Render | pkg/mermaid/sequence.go:110-118 | the rendered text is the header then every line, newline-terminated |
| MermaidSequence.Sequence.RenderBlock | pkg/mermaid/sequence.go:120-122 | the fenced block of the rendered text |
| MermaidChart.Quoted | pkg/mermaid/chart.go:63-66 | each axis label is enclosed in double quotes, one per label |
| MermaidChart.ValueTexts | pkg/mermaid/chart.go:77-80 | one value text per data point |
| MermaidChart.DatasetLines | pkg/mermaid/chart.go:76-82 | one line per dataset |
| MermaidChart.ChartLines | pkg/mermaid/chart.go:55-86 | the chart is the init line, `xychart-beta`, the title, an x-axis line only when labels exist, a y-axis line only when a title is set, then one line per dataset |
| MermaidChart.QuoteLabels | pkg/mermaid/chart.go:63-66 | the quoting loop builds exactly the quoted labels |
| MermaidChart.QuotedSnoc | pkg/mermaid/chart.go:63-66 | quoting one more label appends its quoted form |
| MermaidChart.FormatValues | pkg/mermaid/chart.go:77-80 | the formatting loop builds exactly the value texts |
| MermaidChart.DatasetLinesSnoc | pkg/mermaid/chart.go:76-82 | one more dataset appends its line |
| MermaidChart.DatasetLinesStep | pkg/mermaid/chart.go:76-82 | each loop step appends that dataset's newline-terminated line to the text |
| MermaidChart.ValueTextsStep | pkg/mermaid/chart.go:77-80 | each loop step appends that value's text |
| MermaidChart.ValueTextsSnoc | pkg/mermaid/chart.go:77-80 | one more value appends its text |
| MermaidChart.RenderAxes | pkg/mermaid/chart.go:56-73 | writes the header, title and optional axis lines, newline-terminated |
| MermaidChart.RenderDatasets | pkg/mermaid/chart.go:76-82 | writes every dataset line, newline-terminated, in order |
| MermaidChart.XYChart.constructor | pkg/mermaid/chart.go:24-26 | a new chart has the title and no labels, y-axis title or datasets |
| MermaidChart.XYChart.SetXAxis | pkg/mermaid/chart.go:29-32 | replaces the x labels and nothing else |
| MermaidChart.XYChart.SetYAxis | pkg/mermaid/chart.go:35-40 | sets the y title and range and nothing else |
| MermaidChart.XYChart.AddBar | pkg/mermaid/chart.go:43-46 | appends one bar dataset and nothing else |
| MermaidChart.XYChart.AddLine | pkg/mermaid/chart.go:49-52 | appends one line dataset and nothing else |
| MermaidChart.XYChart.Render | pkg/mermaid/chart.go:55-86 | the output is the chart lines, each newline-terminated |
| MermaidChart.XYChart.RenderBlock | pkg/mermaid/chart.go:88-90 | the fenced block of the rendered chart |
| MermaidGantt.RenderLayout | pkg/mermaid/gantt.go:57-69 | when no piece holds a newline, splitting the text gives header, title, date format, axis format, a blank line, then the added lines |
| MermaidGantt.Gantt.constructor | pkg/mermaid/gantt.go:17-23 | a new chart has the title, date format `HH:mm`, axis format `%H:%M` and no lines |
| MermaidGantt.Gantt.SetDateFormat | pkg/mermaid/gantt.go:26-29 | replaces the date format and nothing else |
| MermaidGantt.Gantt.SetAxisFormat | pkg/mermaid/gantt.go:32-35 | replaces the axis format and nothing else |
| MermaidGantt.Gantt.AddSection | pkg/mermaid/gantt.go:38-41 | appends one `section` line |
| MermaidGantt.Gantt.AddTask | pkg/mermaid/gantt.go:45-48 | appends one task line with status, start and end |
| MermaidGantt.Gantt.AddMilestone | pkg/mermaid/gantt.go:51-54 | appends one milestone line of zero duration |
| MermaidGantt.Gantt.Render | pkg/mermaid/gantt.go:57-69 | the output is the preamble then every line, newline-terminated |
| MermaidGantt.Gantt.RenderBlock | pkg/mermaid/gantt.go:71-73 | the fenced block of the rendered chart |
| NetworkPolicies.EffectiveTypes | pkg/tools/resource_analysis.go:1029-1036 | the types of a policy are never empty: those it lists, or Ingress alone when it lists none |
| NetworkPolicies.PolicyDirections | pkg/tools/resource_analysis.go:1144-1156 | the policy restricts ingress (egress) exactly when Ingress (Egress) is among its effective types |
| NetworkPolicies.DefaultTypes | pkg/tools/resource_analysis.go:1104-1106 | a policy listing no types restricts ingress and not egress |
| NetworkPolicies.CoveringMeaning | pkg/tools/resource_analysis.go:1057-1066 | a policy name is recorded for a pod exactly when a policy of that name has a convertible selector that matches the pod's labels |
| NetworkPolicies.MatchPolicies | pkg/tools/resource_analysis.go:1057-1066 | the inner loop collects exactly the names of the policies selecting the pod, in policy order, skipping selectors that fail to convert |
| NetworkPolicies.CoverageSplit | pkg/tools/resource_analysis.go:1051-1070 | every active pod is counted either as covered or as uncovered: the two counts add up to the active pods |
| NetworkPolicies.CoverageKeys | pkg/tools/resource_analysis.go:1051-1070 | the coverage map has an entry for a name exactly when an active pod of that name is covered |
| NetworkPolicies.SelectsAllCovers | pkg/tools/resource_analysis.go:1058-1065 | a policy with an empty selector selects every pod |
| NetworkPolicies.SelectsAllLeavesNoneUncovered | pkg/tools/resource_analysis.go:1051-1070 | when some policy has an empty selector no active pod is left uncovered |
| NetworkPolicies.CoverPod | pkg/tools/resource_analysis.go:1052-1069 | one pass of the coverage loop: succeeded and failed pods are skipped; an active pod is added to the map under every selecting policy or else listed as uncovered |
| NetworkPolicies.AssessCoverage | pkg/tools/resource_analysis.go:1048-1070 | the loop builds exactly the coverage map and the uncovered list given by the specification functions |
| NetworkPolicies.CountActive | pkg/tools/resource_analysis.go:1076-1081 | counts the pods that are neither succeeded nor failed |
| NetworkPolicies.DefaultDeniesIngress | pkg/tools/resource_analysis.go:1154-1162 | a policy listing no types and no ingress rule is reported as denying all ingress |
| NetworkPolicies.WellConfigured | pkg/tools/resource_analysis.go:1132-1179 | the report has no findings exactly when no active pod is uncovered and no policy has a deny-all direction or selects every pod |
| NetworkPolicies.AllPolicyFindingsEmpty | pkg/tools/resource_analysis.go:1143-1175 | the per-policy findings are empty exactly when each policy's own findings are |
| NetworkPolicies.PolicyFindingsOf | pkg/tools/resource_analysis.go:1144-1174 | one policy yields a critical finding for each restricted direction without rules and an informational one when its selector is empty |
| NetworkPolicies.CollectPolicyFindings | pkg/tools/resource_analysis.go:1143-1175 | the loop gathers every policy's findings in policy order |
| NetworkPolicies.NoPolicyDiagram | pkg/tools/resource_analysis.go:1011-1018 | the no-policy diagram is the left-to-right flowchart from any source through all pods to any destination, both edges allowed |
| NetworkPolicies.AnalyzeNetworkPolicies | pkg/tools/resource_analysis.go:988-1022 | a policy listing error is returned before a pod listing error; no policies gives the warning, the count of all pods and the open diagram; otherwise the analysis of the policies |
| NetworkPolicies.AnalyzePolicies | pkg/tools/resource_analysis.go:1047-1179 | the analysis holds the active-pod count, the coverage map, the uncovered pods, and a warning for uncovered pods followed by every policy's findings |
| NodeCapacity.NodeUsageLookupMeaning | pkg/tools/resource_analysis.go:342-350 | a node's entry in the metrics lookup is the usage of the last metrics entry with its name |
| NodeCapacity.NodeUsageLookupKeys | pkg/tools/resource_analysis.go:342-350 | the metrics lookup knows exactly the nodes some metrics entry names |
| NodeCapacity.BuildNodeUsageLookup | pkg/tools/resource_analysis.go:344-349 | the loop builds exactly the metrics lookup |
| NodeCapacity.AddPodEntry | pkg/tools/resource_analysis.go:364-382 | one pod changes only its own node's request sums, and only when it is active and scheduled |
| NodeCapacity.RequestsByNodeMeaning | pkg/tools/resource_analysis.go:363-382 | a node has request sums exactly when some active scheduled pod runs on it, and then they are the total requests and the count of those pods |
| NodeCapacity.SumRequestsByNode | pkg/tools/resource_analysis.go:363-382 | the loop over all pods builds exactly the per-node request sums |
| NodeCapacity.CountPod | pkg/tools/resource_analysis.go:365-381 | one pass: succeeded, failed and unscheduled pods are skipped; otherwise the pod's container requests and one pod are added to its node |
| NodeCapacity.ConditionIssuesKnown | pkg/tools/resource_analysis.go:462-475 | every condition issue is NotReady, MemoryPressure, DiskPressure or PIDPressure |
| NodeCapacity.ConditionIssuesMeaning | pkg/tools/resource_analysis.go:463-465 | NotReady is reported exactly when some Ready condition is not True |
| NodeCapacity.CollectIssues | pkg/tools/resource_analysis.go:462-475 | the loop lists exactly the issues of the node's conditions, in condition order |
| NodeCapacity.Headroom | pkg/tools/resource_analysis.go:446-458 | headroom is allocatable minus requested when something is allocatable, zero otherwise |
| NodeCapacity.RequestFinding | pkg/tools/resource_analysis.go:540-557 | requests above 90% of allocatable are critical, above 80% a warning, otherwise nothing |
| NodeCapacity.IssueFindings | pkg/tools/resource_analysis.go:529-539 | one finding per condition issue |
| NodeCapacity.OvercommitIsCritical | pkg/tools/resource_analysis.go:540-577 | a node overcommitted on CPU or memory always has the critical requests finding for that resource |
| NodeCapacity.NotReadyIsCritical | pkg/tools/resource_analysis.go:530-533 | a NotReady node raises a critical finding |
| NodeCapacity.QuietNode | pkg/tools/resource_analysis.go:528-578 | a node raises nothing exactly when it has no condition issue, requests at or under 80% and measured usage at or under 90% of allocatable |
| NodeCapacity.AnalyzeNode | pkg/tools/resource_analysis.go:418-478 | the per-node step computes the node's analysis and exactly its findings |
| NodeCapacity.Analyses | pkg/tools/resource_analysis.go:416-478 | one analysis per node |
| NodeCapacity.AnalysesAt | pkg/tools/resource_analysis.go:418-478 | each node's analysis is its own, in listing order |
| NodeCapacity.NodeAnalysesStep | pkg/tools/resource_analysis.go:418-478 | each loop step appends that node's analysis |
| NodeCapacity.FindingsSnoc | pkg/tools/resource_analysis.go:528-578 | one more node appends its findings |
| NodeCapacity.AllQuiet | pkg/tools/resource_analysis.go:579-581 | the report lists no finding exactly when no node raises one |
| NodeCapacity.AnalyzeAllNodes | pkg/tools/resource_analysis.go:416-578 | the loop builds every node's analysis and all findings in node order |
| NodeCapacity.AnalyzeNodeCapacity | pkg/tools/resource_analysis.go:327-382 | a node listing error is returned before a pod listing error; metrics that fail or are empty only mark usage unavailable; otherwise every node is analysed against the metrics lookup and the request sums |
| ResourceUsage.Plus | pkg/tools/resource_analysis.go:119-128 | CPU and memory are added component-wise |
| ResourceUsage.RequestTotalsNonNegative | pkg/tools/resource_analysis.go:119-128 | summing non-negative container requests gives non-negative pod requests |
| ResourceUsage.SumContainers | pkg/tools/resource_analysis.go:119-128 | the container loop sums exactly the pod's requests and its limits, a container without requests or limits adding nothing |
| ResourceUsage.UsageLookupKeys | pkg/tools/resource_analysis.go:66-76 | the usage lookup knows exactly the pods some metrics entry names |
| ResourceUsage.UsageLookupLast | pkg/tools/resource_analysis.go:66-76 | a pod's usage is the container sum of the last metrics entry with its name |
| ResourceUsage.BuildUsageLookup | pkg/tools/resource_analysis.go:66-76 | the loop builds exactly the usage lookup |
| ResourceUsage.TruncateName | pkg/tools/resource_analysis.go:1600-1608 | a name within the bound is kept; a longer one is cut to exactly the bound, ending in `..` after its first bound-2 characters when the bound is at least 3, else plainly cut |
| ResourceUsage.TruncateNameIdempotent | pkg/tools/resource_analysis.go:1600-1608 | truncating twice is truncating once, and the result's length is the smaller of the name's length and the bound |
| ResourceUsage.CategoryMeaning | pkg/tools/resource_analysis.go:155-173 | critical exactly when not missing both a limit and a request and some measured usage is above 90% of its limit; warning exactly when, besides that, none is above 90% but some above 70%; healthy pods have all limits, no usage above 70% and are not overprovisioned |
| ResourceUsage.UnmeasuredCategory | pkg/tools/resource_analysis.go:155-173 | without metrics a pod is either missing limits or healthy |
| ResourceUsage.CriticalStaysCritical | pkg/tools/resource_analysis.go:159-161 | more usage against the same requests and limits keeps a critical pod critical |
| ResourceUsage.MissingLimitsLast | pkg/tools/resource_analysis.go:156-170 | a pod with both requests but a missing limit is reported as missing limits only when its usage is neither above 70% of a limit nor overprovisioned; above 90% it is critical |
| ResourceUsage.UseFindingsMeaning | pkg/tools/resource_analysis.go:233-266 | a pod raises a finding exactly when it is not healthy, a critical one exactly when it is critical, and never more than two |
| ResourceUsage.Analyses | pkg/tools/resource_analysis.go:111-183 | at most one analysis per pod |
| ResourceUsage.AnalyzePod | pkg/tools/resource_analysis.go:116-173 | one pod's analysis is its totals, its looked-up usage and its category, with exactly that category's findings |
| ResourceUsage.AnalysesStep | pkg/tools/resource_analysis.go:111-183 | each loop step appends the pod's analysis when it is active and nothing otherwise |
| ResourceUsage.TallyMeaning | pkg/tools/resource_analysis.go:107-180 | the running tally holds the per-category counts, the request, limit and usage totals, and the findings of the analyses |
| ResourceUsage.TallyPod | pkg/tools/resource_analysis.go:155-180 | one pod's analysis bumps its category counter and adds its figures to the totals |
| ResourceUsage.AnalyzeAll | pkg/tools/resource_analysis.go:111-183 | the loop builds the analyses of the active pods and their tally |
| ResourceUsage.AnalyzeResourceUsage | pkg/tools/resource_analysis.go:48-266 | a pod listing error is returned; metrics that fail or are empty leave every pod unmeasured; otherwise the report holds the analyses, the four counters, the totals and the findings, each as the specification functions define them |
| ResourceUsage.CountSnoc | pkg/tools/resource_analysis.go:155-173 | one more analysis bumps exactly its own category's counter |
| ResourceUsage.CategoriesPartition | pkg/tools/resource_analysis.go:155-173 | the four counters and the healthy pods add up to the analyses |
| ResourceUsage.AnalysesCount | pkg/tools/resource_analysis.go:111-114 | one analysis per active pod |
| ResourceUsage.QuietNamespace | pkg/tools/resource_analysis.go:268-270 | the report has no finding exactly when every analysed pod is healthy |
| ResourceUsage.AnalysesConsistent | pkg/tools/resource_analysis.go:155-182 | every listed analysis carries its own pod's category |
| ResourceEfficiency.Waste | pkg/tools/resource_analysis.go:723-730 | waste is requested minus used, floored at zero |
| ResourceEfficiency.CandidateWastes | pkg/tools/resource_analysis.go:858-877 | a right-sizing candidate wastes something, on each resource it uses under 30% of |
| ResourceEfficiency.Efficiencies | pkg/tools/resource_analysis.go:684-741 | at most one entry per pod |
| ResourceEfficiency.NoRequestsMeaning | pkg/tools/resource_analysis.go:708-713 | the no-requests list holds the namespace/name key of exactly the active pods requesting neither CPU nor memory, and is empty exactly when every pod requests something |
| ResourceEfficiency.NoLimitsMeaning | pkg/tools/resource_analysis.go:709-716 | the no-limits list holds the key of exactly the active pods limiting neither resource, and is empty exactly when every pod limits something |
| ResourceEfficiency.TotalWasteBound | pkg/tools/resource_analysis.go:723-753 | with every pod measured, the overall waste never exceeds the pods' wastes added up |
| ResourceEfficiency.EfficiencyFinding | pkg/tools/resource_analysis.go:919-942 | usage under 30% of a positive total request is a warning, under 50% information, otherwise nothing |
| ResourceEfficiency.HealthyEfficiency | pkg/tools/resource_analysis.go:900-946 | no finding exactly when every pod has requests and limits and, with metrics, both resources are used at 50% or more of their total request |
| ResourceEfficiency.RecommendationsMatchFindings | pkg/tools/resource_analysis.go:948-975 | there are as many recommendations as findings, and every reclaim recommendation names a positive amount |
| ResourceEfficiency.FiguresMeaning | pkg/tools/resource_analysis.go:663-741 | the running figures are the two lists and the request, limit and usage sums given by the specification functions |
| ResourceEfficiency.EfficienciesStep | pkg/tools/resource_analysis.go:684-741 | each loop step appends the pod's entry when it is active and nothing otherwise |
| ResourceEfficiency.Measure | pkg/tools/resource_analysis.go:689-731 | one pod's entry: its request and limit totals and the usage looked up under its namespace/name key |
| ResourceEfficiency.Count | pkg/tools/resource_analysis.go:711-738 | one entry adds its key to the lists it belongs to and its figures to the sums |
| ResourceEfficiency.Survey | pkg/tools/resource_analysis.go:684-741 | the loop builds every active pod's entry and the figures over them |
| ResourceEfficiency.CollectCandidates | pkg/tools/resource_analysis.go:857-877 | the loop keeps exactly the measured pods with requests using under 30% of a positive request, in order |
| ResourceEfficiency.AnalyzeResourceEfficiency | pkg/tools/resource_analysis.go:622-975 | a pod listing error is returned; otherwise the report holds the entries, lists, sums, floored overall wastes, candidates only with metrics, and the findings and recommendations given by the specification functions |
| DnsHealth.Discovered | pkg/tools/resource_analysis.go:1331-1358 | the pods labelled k8s-app=kube-dns, else those labelled app.kubernetes.io/name=coredns, else exactly the kube-system pods named `coredns-*`; errors of the two labelled listings are returned, an error of the last leaves no pods |
| DnsHealth.FindByPrefix | pkg/tools/resource_analysis.go:1352-1356 | the loop keeps exactly the pods whose names start with `coredns-`, in order |
| DnsHealth.DiscoverCoreDns | pkg/tools/resource_analysis.go:1331-1358 | the three-step search yields exactly the discovered pods or the listing error |
| DnsHealth.PhaseFindings | pkg/tools/resource_analysis.go:1407-1413 | a pod raises the critical not-running finding exactly when its phase is not Running |
| DnsHealth.RestartFindings | pkg/tools/resource_analysis.go:1416-1425 | at most one restart finding: none without restarts, a warning exactly when restarts exceed the threshold, otherwise a note |
| DnsHealth.ConditionFindingsMeaning | pkg/tools/resource_analysis.go:1428-1434 | no readiness finding exactly when no Ready condition is other than True; each one raised is the pod's critical not-ready finding |
| DnsHealth.StatusFindings | pkg/tools/resource_analysis.go:1437-1448 | every finding raised about a container is critical |
| DnsHealth.StatusFindingsMeaning | pkg/tools/resource_analysis.go:1437-1446 | a container is reported crash-looping iff it waits in CrashLoopBackOff, OOM-killed iff its last termination reason is OOMKilled, and nothing else is reported about it; each finding names the container inside its pod |
| DnsHealth.AllStatusFindingsMeaning | pkg/tools/resource_analysis.go:1437-1448 | the containers raise nothing exactly when each raises nothing, and everything raised is critical |
| DnsHealth.QuietPodMeaning | pkg/tools/resource_analysis.go:1403-1449 | a pod raises nothing exactly when it runs, has no restarts, is ready and no container is crash-looping or was OOM-killed |
| DnsHealth.InspectPod | pkg/tools/resource_analysis.go:1404-1449 | one pod's checks raise exactly its findings and report whether it runs |
| DnsHealth.CheckConditions | pkg/tools/resource_analysis.go:1428-1434 | the loop raises exactly the readiness findings |
| DnsHealth.CheckStatuses | pkg/tools/resource_analysis.go:1437-1448 | the loop raises exactly the container-state findings |
| DnsHealth.PodsFindingsSnoc | pkg/tools/resource_analysis.go:1403-1449 | one more pod appends its own findings |
| DnsHealth.InspectStep | pkg/tools/resource_analysis.go:1403-1449 | each loop step appends the pod's findings and counts it healthy exactly when it runs |
| DnsHealth.QuietPods | pkg/tools/resource_analysis.go:1403-1449 | the pods raise nothing exactly when each pod is quiet |
| DnsHealth.NoRunningPodIsCritical | pkg/tools/resource_analysis.go:1407-1410 | when no pod runs, the first pod's critical not-running finding is raised |
| DnsHealth.RedundancyFindings | pkg/tools/resource_analysis.go:1452-1456 | the redundancy warning is raised exactly when there are fewer than two pods |
| DnsHealth.InspectPods | pkg/tools/resource_analysis.go:1402-1449 | the loop raises every pod's findings in order and counts the running pods |
| DnsHealth.DnsNamedMeaning | pkg/tools/resource_analysis.go:1485 | a container name mentions coredns or dns exactly when it contains `dns` |
| DnsHealth.FirstDns | pkg/tools/resource_analysis.go:1484-1489 | the position of the first container whose name contains `dns`, or the count when there is none |
| DnsHealth.LogContainer | pkg/tools/resource_analysis.go:1483-1492 | the log container is the first dns-named one, else the first container, else none |
| DnsHealth.PickLogContainer | pkg/tools/resource_analysis.go:1483-1492 | the search loop with its early exit picks exactly the log container |
| DnsHealth.PatternIndex | pkg/tools/resource_analysis.go:1467-1476 | each of SERVFAIL, NXDOMAIN, `i/o timeout` and `connection refused` sits at exactly one known position in the pattern list |
| DnsHealth.CountLines | pkg/tools/resource_analysis.go:1510-1515 | a pattern never matches more lines than there are |
| DnsHealth.CountLinesZero | pkg/tools/resource_analysis.go:1510-1515 | the count is zero exactly when no line contains the pattern |
| DnsHealth.CountMatches | pkg/tools/resource_analysis.go:1510-1515 | the loop counts exactly the lines containing the pattern |
| DnsHealth.LineCounts | pkg/tools/resource_analysis.go:1509-1521 | one count per pattern |
| DnsHealth.PodCounts | pkg/tools/resource_analysis.go:1494-1521 | one count per pattern for a pod, zero when its logs cannot be fetched or are empty |
| DnsHealth.TotalCounts | pkg/tools/resource_analysis.go:1479-1527 | one total per pattern |
| DnsHealth.TotalCountsColumn | pkg/tools/resource_analysis.go:1516 | each pattern's total is the sum of its per-pod counts |
| DnsHealth.TotalCountsZero | pkg/tools/resource_analysis.go:1516 | a pattern's total is zero exactly when no pod's logs contain it |
| DnsHealth.SilentPodCountsNothing | pkg/tools/resource_analysis.go:1495-1503 | a pod whose logs cannot be fetched or are empty leaves every total unchanged |
| DnsHealth.ScanPod | pkg/tools/resource_analysis.go:1494-1523 | one pod's scan adds its counts to the totals and reports its error count |
| DnsHealth.CountPatterns | pkg/tools/resource_analysis.go:1506-1521 | the pattern loop adds each pattern's line count to its total and sums them as the pod's errors |
| DnsHealth.ScanLogs | pkg/tools/resource_analysis.go:1478-1527 | the scan over all pods yields exactly the per-pattern totals and their sum |
| DnsHealth.LogFindings | pkg/tools/resource_analysis.go:1530-1550 | at most four log findings, and none exactly when SERVFAIL stays at or under 10, NXDOMAIN at or under 100 and there is no timeout or refusal |
| DnsHealth.PatternFindingsStep | pkg/tools/resource_analysis.go:1530-1550 | each pattern raises only its own part of the log findings; the other patterns raise nothing |
| DnsHealth.ServfailExclusive | pkg/tools/resource_analysis.go:1531-1539 | SERVFAIL raises at most one finding: critical exactly above 50, a warning exactly from 11 to 50 |
| DnsHealth.RaiseLogFindings | pkg/tools/resource_analysis.go:1530-1550 | the loop over the patterns raises exactly the log findings |
| DnsHealth.Actions | pkg/tools/resource_analysis.go:1568-1593 | no action exactly when some pod runs, there are at least two pods, SERVFAIL stays at or under 10 and there is no timeout or refusal |
| DnsHealth.SuggestActions | pkg/tools/resource_analysis.go:1568-1590 | the two searches that stop at the first match suggest exactly the actions, each at most once |
| DnsHealth.HealthyMeaning | pkg/tools/resource_analysis.go:1556-1564 | DNS is assessed healthy exactly when every pod is quiet, there are at least two, and the log totals stay under every threshold |
| DnsHealth.HealthyNeedsNoAction | pkg/tools/resource_analysis.go:1557-1593 | a healthy assessment comes with no suggested action |
| DnsHealth.CheckPods | pkg/tools/resource_analysis.go:1368-1593 | the report for the discovered pods: service presence, pod and running counts, findings, log totals and their sum, the assessment and the actions |
| DnsHealth.CheckDnsHealth | pkg/tools/resource_analysis.go:1325-1596 | a discovery error is returned; no pods is the single critical no-CoreDNS finding; otherwise the full report of the discovered pods |

## Left out

- Kubernetes API access, timeouts and the MCP wiring. Every fetch is a `Result` parameter; a result that the source only formats into text is not modelled.
- Report rendering. Headers, tables, `FormatFinding` text, ages and the wording of messages are left out: a finding is a `(severity, reason, subject)` value, an action a datatype value.
- Floating point. Percentages are compared as integer cross-multiplication, so a value that rounds across a threshold in `float64` is not modelled. `%.1f`/`%.0f` texts are left out. `MermaidChart` takes integer values and renders them as `<n>.0`.
- int64 overflow in the request, limit, usage and waste sums. The model uses unbounded integers. The int32 restart sum is wrapped explicitly (`Pods.Wrap32`).
- StrUtil.ToLower: lower-cases only the ASCII letters A-Z, where Go's `strings.ToLower` folds every Unicode upper-case letter. This reaches `Metrics.SortKey` (the `resource` argument) and the env-variable target names in `K8sDependencies.ScanHost`; a name spelled with a non-ASCII capital is left unfolded. Whitespace trimming (`StrUtil.TrimSpace`, used by `NetworkTools.ExtractLogErrors`) does cover every character `unicode.IsSpace` accepts.
- Byte and character lengths. Strings are `seq<char>`, so `truncateName` and `SafeID` count characters where Go counts bytes. The two agree on ASCII names.
- Go map iteration order. Loops over maps pick any remaining key, and their properties hold for every order. Outputs whose order depends on a map (node roles, AGIC annotations, dependency edges, reason counts, namespace rows before sorting) are specified up to that order.
- Label-selector syntax checks. `Selectors` models conversion and matching with `MatchLabels` and the In, NotIn, Exists and DoesNotExist operators. A selector converts when each expression has a valid operator and the right number of values. The library's syntax checks on label keys and values are not modelled.
- The `util` constants (HighRestartThreshold, MaxEvents, DefaultTopLimit) are parameters, because their values are not part of the source shown. The log tail of 500 lines over the last hour is the log text passed in.
- Tools that only list or format API results: list_pods, get_pod_detail, get_pod_logs, list_nodes, get_node_detail, get_node_metrics, get_pod_metrics, and the listers outside the core files.
- diagnose_cluster (pkg/tools/diagnostics.go:353-501) repeats the node-condition and pod-health rules. Those rules are modelled for cluster_health_overview and diagnose_namespace. The handler itself is not modelled.
- check_resource_quotas (pkg/tools/diagnostics.go:550-614) compares quota usage as float percentages and is not modelled.
- diagnose_service (pkg/tools/composite_diagnostics.go:437-665): its helpers `formatServicePorts` and `matchesSvcSelector` are modelled, its handler is not.
- analyze_service_logs (pkg/tools/composite_diagnostics.go:913-1051) runs a user-supplied regular expression and is not modelled.
- map_service_topology and check_agic_health (pkg/tools/network_analysis.go:51-310, 1247-1461). Their topology diagrams and the AGIC ConfigMap check are not modelled, apart from the AGIC annotation filter (`K8sNetwork.ParseAGICAnnotations`).
- Diagrams that tools build from their results are not modelled. These include the request-path sequence diagram, the node-capacity and resource-usage xycharts, and the network-policy flow diagram (pkg/tools/resource_analysis.go:1181-1313). The builders they use are modelled, and so is the no-policy diagram (`NetworkPolicies.NoPolicyDiagram`).
- The allow/deny matrix of analyze_network_policies (pkg/tools/resource_analysis.go:1086-1128) and the rule descriptions `describeIngressRule`/`describeEgressRule` are text only and are not modelled.
- The bin-packing table of analyze_resource_efficiency (pkg/tools/resource_analysis.go:777-839) only prints per-node percentages and is not modelled.
- The pod-capacity column of analyze_node_capacity is not modelled.
- The Go `findings` counters are not modelled separately. The model's finding list is every CRITICAL, WARNING or INFO line a report prints among its findings. Two exceptions:
  - The missing-liveness-probe note of diagnose_request_path (pkg/tools/composite_diagnostics.go:257-259) is printed but not counted by the source, and is not modelled.
  - The no-backend exit (pkg/tools/composite_diagnostics.go:145-149) prints its CRITICAL without counting it, and returns before any count is shown. The model lists it as the path's last finding.
- The "metrics not available" and "service kube-dns not found" warnings are not counted by the source. The model reports them as the flags `metricsAvailable` and `serviceFound`.
- `FindIngressForHostPath` listing the ingresses a second time when the namespace is empty (pkg/k8s/network_analysis.go:232-243) is only a repeated API call, and the model searches the one list passed in.
- NodeCapacity.AnalyzeNodeCapacity: the node CPU chart at the end of the report (pkg/tools/resource_analysis.go:583-609) is not part of the report value.
- ResourceUsage.AnalyzeResourceUsage: the top-10 CPU chart (pkg/tools/resource_analysis.go:272-313) is not part of the report value.

## Findings

| source | as written | input that shows it | evidently intended | confidence | as-written member | corrected member |
|---|---|---|---|---|---|---|
| pkg/tools/composite_diagnostics.go:768 | namespace rows are sorted by comparing the unhealthy count's decimal text, so "9" sorts above "10" | two flagged namespaces with 9 and 10 unhealthy pods: the namespace with 9 is listed first | rows sorted by unhealthy count as a number, largest first | not executed | ClusterOverview.TextOrderMisranks | ClusterOverview.SortRows |
