/** The node-capacity analysis: per node, the requests of the active pods
    scheduled on it, its measured usage when node metrics are available,
    the share of allocatable CPU and memory both take, the scheduling
    headroom that remains, and the condition problems the node reports;
    then the findings those figures raise.

    Percentages of allocatable are compared by cross-multiplying, as in
    the resource-usage analysis. */
module NodeCapacity {
  import opened Wrappers
  import opened Resources
  import opened ResourceUsage

  // ---------------------------------------------------------------------------
  // Inputs
  // ---------------------------------------------------------------------------

  /** A node's measured CPU (millicores) and memory (bytes). */
  datatype NodeMetrics = NodeMetrics(name: string, usage: ResourceList)

  /** The node-metrics lookup: node name to usage, a later entry for the
      same node replacing an earlier one. */
  function NodeUsageLookup(nms: seq<NodeMetrics>): map<string, ResourceList> {
    if nms == [] then map[]
    else NodeUsageLookup(nms[..|nms| - 1])[nms[|nms| - 1].name := nms[|nms| - 1].usage]
  }

  /** The lookup knows a node exactly when some entry names it, and then
      holds the usage of the last such entry. */
  lemma {:induction false} NodeUsageLookupMeaning(nms: seq<NodeMetrics>, j: int)
    requires 0 <= j < |nms|
    requires forall j' :: j < j' < |nms| ==> nms[j'].name != nms[j].name
    ensures nms[j].name in NodeUsageLookup(nms)
    ensures NodeUsageLookup(nms)[nms[j].name] == nms[j].usage
  {
    if j < |nms| - 1 {
      NodeUsageLookupMeaning(nms[..|nms| - 1], j);
    }
  }

  lemma {:induction false} NodeUsageLookupKeys(nms: seq<NodeMetrics>, n: string)
    ensures n in NodeUsageLookup(nms) <==> exists j :: 0 <= j < |nms| && nms[j].name == n
  {
    if nms != [] {
      var init := nms[..|nms| - 1];
      NodeUsageLookupKeys(init, n);
      if nms[|nms| - 1].name != n && exists j :: 0 <= j < |nms| && nms[j].name == n {
        var j :| 0 <= j < |nms| && nms[j].name == n;
        assert init[j] == nms[j];
      }
    }
  }

  /** The lookup of usable node metrics: empty when they could not be
      fetched or are empty. */
  function NodeUsage(metrics: Result<seq<NodeMetrics>>): map<string, ResourceList> {
    if metrics.Ok? && |metrics.value| > 0 then NodeUsageLookup(metrics.value) else map[]
  }

  method BuildNodeUsageLookup(nms: seq<NodeMetrics>) returns (m: map<string, ResourceList>)
    ensures m == NodeUsageLookup(nms)
  {
    m := map[];
    for i := 0 to |nms|
      invariant m == NodeUsageLookup(nms[..i])
    {
      assert nms[..i + 1][..i] == nms[..i];
      m := m[nms[i].name := nms[i].usage];
    }
    assert nms[..|nms|] == nms;
  }

  // ---------------------------------------------------------------------------
  // Requests per node
  // ---------------------------------------------------------------------------

  /** The requests of the pods on one node and how many pods they are. */
  datatype NodeRequests = NodeRequests(requests: ResourceList, podCount: nat)

  /** An active pod that has been scheduled counts against its node. */
  predicate CountsOn(p: Pod, node: string) {
    Active(p) && p.nodeName != "" && p.nodeName == node
  }

  /** The per-node request sums, pod by pod. */
  function RequestsByNode(pods: seq<Pod>): map<string, NodeRequests> {
    if pods == [] then map[] else AddPod(RequestsByNode(pods[..|pods| - 1]), pods[|pods| - 1])
  }

  /** The sums after one more pod: an active, scheduled pod adds its
      requests and one to its node's entry, starting from zero. */
  function AddPod(m: map<string, NodeRequests>, p: Pod): map<string, NodeRequests> {
    if Active(p) && p.nodeName != "" then Bump(m, p.nodeName, RequestTotals(p.containers)) else m
  }

  /** A node's entry, zero while it has none. */
  function Entry(m: map<string, NodeRequests>, node: string): NodeRequests {
    if node in m then m[node] else NodeRequests(Zero, 0)
  }

  /** One more pod with these requests on the node. */
  function Bump(m: map<string, NodeRequests>, node: string, requests: ResourceList): map<string, NodeRequests> {
    m[node := NodeRequests(Plus(Entry(m, node).requests, requests), Entry(m, node).podCount + 1)]
  }

  /** Reference definitions for one node: how many pods count against it
      and what they request together. */
  function PodsOn(pods: seq<Pod>, node: string): nat {
    if pods == [] then 0
    else PodsOn(pods[..|pods| - 1], node) + (if CountsOn(pods[|pods| - 1], node) then 1 else 0)
  }

  function RequestsOn(pods: seq<Pod>, node: string): ResourceList {
    if pods == [] then Zero
    else
      var rest := RequestsOn(pods[..|pods| - 1], node);
      if CountsOn(pods[|pods| - 1], node) then Plus(rest, RequestTotals(pods[|pods| - 1].containers)) else rest
  }

  /** One pod changes only its own node's entry, and only when it counts. */
  lemma AddPodEntry(m: map<string, NodeRequests>, p: Pod, node: string)
    ensures node in AddPod(m, p) <==> node in m || CountsOn(p, node)
    ensures Entry(AddPod(m, p), node) ==
      if CountsOn(p, node)
      then NodeRequests(Plus(Entry(m, node).requests, RequestTotals(p.containers)), Entry(m, node).podCount + 1)
      else Entry(m, node)
  {
  }

  /** A node has an entry exactly when some pod counts against it, and its
      entry (zero without one) is that node's own count and request sum. */
  lemma {:induction false} RequestsByNodeMeaning(pods: seq<Pod>, node: string)
    ensures node in RequestsByNode(pods) <==> PodsOn(pods, node) > 0
    ensures Entry(RequestsByNode(pods), node) == NodeRequests(RequestsOn(pods, node), PodsOn(pods, node))
  {
    if pods != [] {
      var init, p := pods[..|pods| - 1], pods[|pods| - 1];
      RequestsByNodeMeaning(init, node);
      AddPodEntry(RequestsByNode(init), p, node);
    }
  }

  /** Sums the requests per node, one pod at a time. */
  method SumRequestsByNode(pods: seq<Pod>) returns (m: map<string, NodeRequests>)
    ensures m == RequestsByNode(pods)
  {
    m := map[];
    for i := 0 to |pods|
      invariant m == RequestsByNode(pods[..i])
    {
      assert pods[..i + 1][..i] == pods[..i];
      m := CountPod(m, pods[i]);
    }
    assert pods[..|pods|] == pods;
  }

  method CountPod(m: map<string, NodeRequests>, p: Pod) returns (next: map<string, NodeRequests>)
    ensures next == AddPod(m, p)
  {
    next := m;
    if Active(p) && p.nodeName != "" {
      var requests, _ := SumContainers(p.containers);
      next := Bump(m, p.nodeName, requests);
    }
  }

  // ---------------------------------------------------------------------------
  // Conditions
  // ---------------------------------------------------------------------------

  const NotReady: string := "NotReady"

  /** The problem a condition reports, if any: Ready other than "True", or
      one of the three pressures at "True". */
  function IssueOf(c: Condition): seq<string> {
    if c.kind == "Ready" && c.status != "True" then [NotReady]
    else if c.kind == "MemoryPressure" && c.status == "True" then ["MemoryPressure"]
    else if c.kind == "DiskPressure" && c.status == "True" then ["DiskPressure"]
    else if c.kind == "PIDPressure" && c.status == "True" then ["PIDPressure"]
    else []
  }

  function ConditionIssues(cs: seq<Condition>): seq<string> {
    if cs == [] then [] else ConditionIssues(cs[..|cs| - 1]) + IssueOf(cs[|cs| - 1])
  }

  /** Every issue named is one of the four. */
  lemma {:induction false} ConditionIssuesKnown(cs: seq<Condition>)
    ensures forall s :: s in ConditionIssues(cs) ==>
      s in {NotReady, "MemoryPressure", "DiskPressure", "PIDPressure"}
  {
    if cs != [] {
      ConditionIssuesKnown(cs[..|cs| - 1]);
    }
  }

  /** A node is reported NotReady exactly when one of its Ready conditions
      is not "True". */
  lemma {:induction false} ConditionIssuesMeaning(cs: seq<Condition>)
    ensures NotReady in ConditionIssues(cs) <==>
      exists i :: 0 <= i < |cs| && cs[i].kind == "Ready" && cs[i].status != "True"
  {
    if cs != [] {
      var init := cs[..|cs| - 1];
      ConditionIssuesMeaning(init);
      var last := cs[|cs| - 1];
      if exists i :: 0 <= i < |cs| && cs[i].kind == "Ready" && cs[i].status != "True" {
        var i :| 0 <= i < |cs| && cs[i].kind == "Ready" && cs[i].status != "True";
        if i < |cs| - 1 {
          assert init[i] == cs[i];
        }
      }
    }
  }

  method CollectIssues(cs: seq<Condition>) returns (issues: seq<string>)
    ensures issues == ConditionIssues(cs)
  {
    issues := [];
    for i := 0 to |cs|
      invariant issues == ConditionIssues(cs[..i])
    {
      assert cs[..i + 1][..i] == cs[..i];
      var c := cs[i];
      if c.kind == "Ready" && c.status != "True" {
        issues := issues + [NotReady];
      }
      if c.kind == "MemoryPressure" && c.status == "True" {
        issues := issues + ["MemoryPressure"];
      }
      if c.kind == "DiskPressure" && c.status == "True" {
        issues := issues + ["DiskPressure"];
      }
      if c.kind == "PIDPressure" && c.status == "True" {
        issues := issues + ["PIDPressure"];
      }
    }
    assert cs[..|cs|] == cs;
  }

  // ---------------------------------------------------------------------------
  // One node
  // ---------------------------------------------------------------------------

  /** What the analysis knows of a node. */
  datatype NodeAnalysis = NodeAnalysis(
    name: string,
    allocatable: ResourceList,
    requests: ResourceList,
    podCount: nat,
    usage: Option<ResourceList>,
    issues: seq<string>)

  function AnalyzeNodeOf(n: Node, usage: map<string, ResourceList>, requests: map<string, NodeRequests>): NodeAnalysis {
    var rs := if n.name in requests then requests[n.name] else NodeRequests(Zero, 0);
    NodeAnalysis(n.name, n.allocatable, rs.requests, rs.podCount,
      if n.name in usage then Some(usage[n.name]) else None,
      ConditionIssues(n.conditions))
  }

  /** Allocatable minus requested; zero when nothing is allocatable. */
  function Headroom(requested: int, allocatable: int): (h: int)
    ensures allocatable > 0 ==> h == allocatable - requested
    ensures allocatable <= 0 ==> h == 0
  {
    if allocatable > 0 then allocatable - requested else 0
  }

  function CpuHeadroom(na: NodeAnalysis): int { Headroom(na.requests.cpuMillis, na.allocatable.cpuMillis) }
  function MemHeadroom(na: NodeAnalysis): int { Headroom(na.requests.memBytes, na.allocatable.memBytes) }

  /** Requests above 90% of allocatable are critical, above 80% a warning. */
  function RequestFinding(requested: int, allocatable: int, crit: string, warn: string, node: string): (fs: seq<Finding>)
    ensures Above(requested, allocatable, 90) ==> fs == [Finding(Critical, crit, node)]
    ensures !Above(requested, allocatable, 90) && Above(requested, allocatable, 80) ==> fs == [Finding(Warning, warn, node)]
    ensures !Above(requested, allocatable, 80) ==> fs == []
  {
    if Above(requested, allocatable, 90) then [Finding(Critical, crit, node)]
    else if Above(requested, allocatable, 80) then [Finding(Warning, warn, node)]
    else []
  }

  function IssueFinding(issue: string, node: string): Finding {
    if issue == NotReady then Finding(Critical, "NodeNotReady", node) else Finding(Warning, issue, node)
  }

  function IssueFindings(issues: seq<string>, node: string): (fs: seq<Finding>)
    ensures |fs| == |issues|
  {
    if issues == [] then []
    else IssueFindings(issues[..|issues| - 1], node) + [IssueFinding(issues[|issues| - 1], node)]
  }

  predicate UsedAbove(na: NodeAnalysis, cpu: bool) {
    na.usage.Some? &&
    if cpu then Above(na.usage.value.cpuMillis, na.allocatable.cpuMillis, 90)
    else Above(na.usage.value.memBytes, na.allocatable.memBytes, 90)
  }

  /** The findings one node raises, in the order the report lists them. */
  function NodeFindings(na: NodeAnalysis): seq<Finding> {
    IssueFindings(na.issues, na.name) + RequestFindings(na) + UsageFindings(na) + OvercommitFindings(na)
  }

  /** The requested share of allocatable CPU, then of memory. */
  function RequestFindings(na: NodeAnalysis): seq<Finding> {
    RequestFinding(na.requests.cpuMillis, na.allocatable.cpuMillis, "CPURequestsCritical", "CPURequestsHigh", na.name)
    + RequestFinding(na.requests.memBytes, na.allocatable.memBytes, "MemoryRequestsCritical", "MemoryRequestsHigh", na.name)
  }

  /** Measured usage above 90% of allocatable, CPU then memory. */
  function UsageFindings(na: NodeAnalysis): seq<Finding> {
    (if UsedAbove(na, true) then [Finding(Critical, "CPUUtilizationCritical", na.name)] else [])
    + (if UsedAbove(na, false) then [Finding(Critical, "MemoryUtilizationCritical", na.name)] else [])
  }

  /** Negative headroom, CPU then memory. */
  function OvercommitFindings(na: NodeAnalysis): seq<Finding> {
    (if CpuHeadroom(na) < 0 then [Finding(Warning, "CPUOvercommitted", na.name)] else [])
    + (if MemHeadroom(na) < 0 then [Finding(Warning, "MemoryOvercommitted", na.name)] else [])
  }

  /** A node overcommitted on a resource has its requests over 90% of what
      is allocatable, so it always also raises the critical request finding. */
  lemma OvercommitIsCritical(na: NodeAnalysis)
    ensures CpuHeadroom(na) < 0 ==> Finding(Critical, "CPURequestsCritical", na.name) in NodeFindings(na)
    ensures MemHeadroom(na) < 0 ==> Finding(Critical, "MemoryRequestsCritical", na.name) in NodeFindings(na)
  {
    var issues := IssueFindings(na.issues, na.name);
    var cpu := RequestFinding(na.requests.cpuMillis, na.allocatable.cpuMillis, "CPURequestsCritical", "CPURequestsHigh", na.name);
    assert NodeFindings(na) == issues + (cpu + RequestFinding(na.requests.memBytes, na.allocatable.memBytes,
      "MemoryRequestsCritical", "MemoryRequestsHigh", na.name)) + UsageFindings(na) + OvercommitFindings(na);
    if CpuHeadroom(na) < 0 {
      assert NodeFindings(na)[|issues|] == cpu[0];
    }
    if MemHeadroom(na) < 0 {
      assert NodeFindings(na)[|issues| + |cpu|] == RequestFindings(na)[|cpu|];
    }
  }

  /** A NotReady node always raises a critical finding. */
  lemma {:induction false} NotReadyIsCritical(issues: seq<string>, node: string)
    requires NotReady in issues
    ensures Finding(Critical, "NodeNotReady", node) in IssueFindings(issues, node)
  {
    var init := issues[..|issues| - 1];
    if issues[|issues| - 1] != NotReady {
      assert NotReady in init by {
        var k :| 0 <= k < |issues| && issues[k] == NotReady;
        assert init[k] == issues[k];
      }
      NotReadyIsCritical(init, node);
    }
  }

  /** A node raises nothing exactly when it reports no condition problem,
      its requests stay at or under 80% of allocatable and its measured
      usage at or under 90%. */
  lemma QuietNode(na: NodeAnalysis)
    ensures NodeFindings(na) == [] <==>
      na.issues == [] &&
      !Above(na.requests.cpuMillis, na.allocatable.cpuMillis, 80) &&
      !Above(na.requests.memBytes, na.allocatable.memBytes, 80) &&
      !UsedAbove(na, true) && !UsedAbove(na, false)
  {
  }

  /** Analyses one node and lists its findings. */
  method AnalyzeNode(n: Node, usage: map<string, ResourceList>, requests: map<string, NodeRequests>)
    returns (na: NodeAnalysis, fs: seq<Finding>)
    ensures na == AnalyzeNodeOf(n, usage, requests)
    ensures fs == NodeFindings(na)
  {
    var rs := if n.name in requests then requests[n.name] else NodeRequests(Zero, 0);
    var issues := CollectIssues(n.conditions);
    na := NodeAnalysis(n.name, n.allocatable, rs.requests, rs.podCount,
      if n.name in usage then Some(usage[n.name]) else None, issues);
    fs := NodeFindings(na);
  }

  // ---------------------------------------------------------------------------
  // The report
  // ---------------------------------------------------------------------------

  function Analyses(nodes: seq<Node>, usage: map<string, ResourceList>, requests: map<string, NodeRequests>): (r: seq<NodeAnalysis>)
    ensures |r| == |nodes|
  {
    if nodes == [] then []
    else Analyses(nodes[..|nodes| - 1], usage, requests) + [AnalyzeNodeOf(nodes[|nodes| - 1], usage, requests)]
  }

  function AllFindings(nas: seq<NodeAnalysis>): seq<Finding> {
    if nas == [] then [] else AllFindings(nas[..|nas| - 1]) + NodeFindings(nas[|nas| - 1])
  }

  /** Every node's analysis is that node's own, in the order listed. */
  lemma {:induction false} AnalysesAt(nodes: seq<Node>, usage: map<string, ResourceList>, requests: map<string, NodeRequests>, k: int)
    requires 0 <= k < |nodes|
    ensures Analyses(nodes, usage, requests)[k] == AnalyzeNodeOf(nodes[k], usage, requests)
  {
    if k < |nodes| - 1 {
      AnalysesAt(nodes[..|nodes| - 1], usage, requests, k);
    }
  }

  lemma NodeAnalysesStep(nodes: seq<Node>, i: int, usage: map<string, ResourceList>, requests: map<string, NodeRequests>)
    requires 0 <= i < |nodes|
    ensures Analyses(nodes[..i + 1], usage, requests) ==
      Analyses(nodes[..i], usage, requests) + [AnalyzeNodeOf(nodes[i], usage, requests)]
  {
    assert nodes[..i + 1][..i] == nodes[..i];
  }

  lemma FindingsSnoc(nas: seq<NodeAnalysis>, na: NodeAnalysis)
    ensures AllFindings(nas + [na]) == AllFindings(nas) + NodeFindings(na)
  {
    assert (nas + [na])[..|nas|] == nas;
  }

  /** The report lists nothing exactly when no node raises anything. */
  lemma {:induction false} AllQuiet(nas: seq<NodeAnalysis>)
    ensures AllFindings(nas) == [] <==> forall k :: 0 <= k < |nas| ==> NodeFindings(nas[k]) == []
  {
    if nas != [] {
      var init := nas[..|nas| - 1];
      AllQuiet(init);
      assert forall k :: 0 <= k < |init| ==> init[k] == nas[k];
    }
  }

  /** The capacity report: whether node metrics were available, one
      analysis per node in listing order and the findings they raise. The
      report says metrics are unavailable when they are not. */
  datatype CapacityReport = CapacityReport(metricsAvailable: bool, nodes: seq<NodeAnalysis>, findings: seq<Finding>)

  method AnalyzeAllNodes(nodes: seq<Node>, usage: map<string, ResourceList>, requests: map<string, NodeRequests>)
    returns (nas: seq<NodeAnalysis>, fs: seq<Finding>)
    ensures nas == Analyses(nodes, usage, requests)
    ensures fs == AllFindings(nas)
  {
    nas := [];
    fs := [];
    for i := 0 to |nodes|
      invariant nas == Analyses(nodes[..i], usage, requests)
      invariant fs == AllFindings(nas)
    {
      NodeAnalysesStep(nodes, i, usage, requests);
      var na, nfs := AnalyzeNode(nodes[i], usage, requests);
      FindingsSnoc(nas, na);
      nas := nas + [na];
      fs := fs + nfs;
    }
    assert nodes[..|nodes|] == nodes;
  }

  /** The analyze_node_capacity report. A node listing error, then a pod
      listing error, is returned; metrics that cannot be fetched or are
      empty only leave every node unmeasured. */
  method AnalyzeNodeCapacity(nodes: Result<seq<Node>>, metrics: Result<seq<NodeMetrics>>, pods: Result<seq<Pod>>)
    returns (r: Result<CapacityReport>)
    ensures nodes.Err? ==> r == Err(nodes.error)
    ensures nodes.Ok? && pods.Err? ==> r == Err(pods.error)
    ensures nodes.Ok? && pods.Ok? ==> r.Ok?
    ensures nodes.Ok? && pods.Ok? ==> r.value.metricsAvailable == (metrics.Ok? && |metrics.value| > 0)
    ensures nodes.Ok? && pods.Ok? ==>
      r.value.nodes == Analyses(nodes.value, NodeUsage(metrics), RequestsByNode(pods.value))
    ensures nodes.Ok? && pods.Ok? ==> r.value.findings == AllFindings(r.value.nodes)
  {
    if nodes.Err? {
      return Err(nodes.error);
    }
    var available := metrics.Ok? && |metrics.value| > 0;
    var usage: map<string, ResourceList> := map[];
    if available {
      usage := BuildNodeUsageLookup(metrics.value);
    }
    if pods.Err? {
      return Err(pods.error);
    }
    var requests := SumRequestsByNode(pods.value);
    var nas, fs := AnalyzeAllNodes(nodes.value, usage, requests);
    return Ok(CapacityReport(available, nas, fs));
  }
}
