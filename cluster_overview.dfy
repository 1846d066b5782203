/** The cluster health overview: node readiness and pressure, cluster-wide
    utilization against capacity, unhealthy pods by namespace, services
    without ready endpoints, recent warning events and the kube-system
    namespace, each raising findings toward an overall verdict. */
module ClusterOverview {
  import opened Wrappers
  import opened StrUtil
  import opened Resources
  import opened Seqs
  import opened Sorting
  import opened Pods
  import opened Nodes
  import opened Diagnostics
  import opened K8sNetwork
  import opened NetworkTools
  import opened Composite

  predicate IsCritical(f: Finding) { f.severity == Critical }

  /** The number of critical findings. */
  function CriticalCount(fs: seq<Finding>): nat {
    |Filter(fs, IsCritical)|
  }

  // ---------------------------------------------------------------------------
  // 1. Nodes
  // ---------------------------------------------------------------------------

  const MemoryPressure: string := "MemoryPressure"
  const DiskPressure: string := "DiskPressure"
  const PIDPressure: string := "PIDPressure"

  /** A memory, disk or PID pressure condition that is True. */
  predicate UnderPressure(c: Condition) {
    (c.kind == MemoryPressure || c.kind == DiskPressure || c.kind == PIDPressure) && c.status == ConditionTrue
  }

  /** A warning per pressure condition, named after the condition: every
      condition under pressure raises one, and nothing else does. */
  function PressureFindings(name: string, conds: seq<Condition>): (r: seq<Finding>)
    ensures |r| == |Filter(conds, UnderPressure)|
    ensures forall c :: c in conds && UnderPressure(c) ==> Finding(Warning, c.kind, name) in r
    ensures forall f :: f in r ==> exists c :: c in conds && UnderPressure(c) && f == Finding(Warning, c.kind, name)
    ensures forall k :: 0 <= k < |r| ==>
      r[k].severity == Warning && r[k].subject == name
      && (r[k].check == MemoryPressure || r[k].check == DiskPressure || r[k].check == PIDPressure)
  {
    if conds == [] then []
    else
      var c := conds[|conds| - 1];
      assert conds == conds[..|conds| - 1] + [c];
      PressureFindings(name, conds[..|conds| - 1])
      + (if UnderPressure(c) then [Finding(Warning, c.kind, name)] else [])
  }

  predicate IsReadyNode(n: Node) { NodeStatus(n) == NodeReady }

  /** A node that is not Ready is critical; then its pressure warnings. */
  function NodeFindings(n: Node): seq<Finding> {
    (if !IsReadyNode(n) then [Finding(Critical, "NodeNotReady", n.name)] else [])
    + PressureFindings(n.name, n.conditions)
  }

  function AllNodeFindings(nodes: seq<Node>): seq<Finding> {
    if nodes == [] then []
    else AllNodeFindings(nodes[..|nodes| - 1]) + NodeFindings(nodes[|nodes| - 1])
  }

  method PressureChecks(name: string, conds: seq<Condition>) returns (fs: seq<Finding>)
    ensures fs == PressureFindings(name, conds)
  {
    fs := [];
    for i := 0 to |conds|
      invariant fs == PressureFindings(name, conds[..i])
    {
      assert conds[..i + 1][..i] == conds[..i];
      if UnderPressure(conds[i]) {
        fs := fs + [Finding(Warning, conds[i].kind, name)];
      }
    }
    assert conds[..|conds|] == conds;
  }

  /** The findings for one node and whether it is Ready. */
  method NodeChecks(n: Node) returns (fs: seq<Finding>, ready: bool)
    ensures fs == NodeFindings(n)
    ensures ready == IsReadyNode(n)
  {
    var raised: seq<Finding> := [];
    ready := NodeStatus(n) == NodeReady;
    if !ready {
      raised := [Finding(Critical, "NodeNotReady", n.name)];
    }
    var pressure := PressureChecks(n.name, n.conditions);
    fs := raised + pressure;
  }

  /** The node findings and the number of Ready nodes. */
  method CheckNodes(nodes: seq<Node>) returns (fs: seq<Finding>, ready: nat)
    ensures fs == AllNodeFindings(nodes)
    ensures ready == |Filter(nodes, IsReadyNode)|
  {
    fs := [];
    ready := 0;
    for i := 0 to |nodes|
      invariant fs == AllNodeFindings(nodes[..i])
      invariant ready == |Filter(nodes[..i], IsReadyNode)|
    {
      NodesStep(nodes, i);
      var nodeFs, isReady := NodeChecks(nodes[i]);
      if isReady {
        ready := ready + 1;
      }
      fs := fs + nodeFs;
    }
    assert nodes[..|nodes|] == nodes;
  }

  lemma NodesStep(nodes: seq<Node>, i: int)
    requires 0 <= i < |nodes|
    ensures AllNodeFindings(nodes[..i + 1]) == AllNodeFindings(nodes[..i]) + NodeFindings(nodes[i])
    ensures |Filter(nodes[..i + 1], IsReadyNode)| == |Filter(nodes[..i], IsReadyNode)| + (if IsReadyNode(nodes[i]) then 1 else 0)
  {
    assert nodes[..i + 1] == nodes[..i] + [nodes[i]];
    FilterSnoc(nodes[..i], nodes[i], IsReadyNode);
  }

  /** Pressure findings are never critical. */
  lemma {:induction false} PressureNotCritical(name: string, conds: seq<Condition>)
    ensures CriticalCount(PressureFindings(name, conds)) == 0
  {
    if conds != [] {
      var c := conds[|conds| - 1];
      PressureNotCritical(name, conds[..|conds| - 1]);
      var last := if UnderPressure(c) then [Finding(Warning, c.kind, name)] else [];
      FilterAppend(PressureFindings(name, conds[..|conds| - 1]), last, IsCritical);
    }
  }

  /** Exactly the nodes that are not Ready raise critical findings. */
  lemma {:induction false} NodeCriticals(nodes: seq<Node>)
    ensures CriticalCount(AllNodeFindings(nodes)) + |Filter(nodes, IsReadyNode)| == |nodes|
  {
    if nodes != [] {
      var n := nodes[|nodes| - 1];
      var init := nodes[..|nodes| - 1];
      NodeCriticals(init);
      PressureNotCritical(n.name, n.conditions);
      var ready := IsReadyNode(n);
      var head := if !ready then [Finding(Critical, "NodeNotReady", n.name)] else [];
      assert NodeFindings(n) == head + PressureFindings(n.name, n.conditions);
      assert AllNodeFindings(nodes) == AllNodeFindings(init) + NodeFindings(n);
      FilterAppend(head, PressureFindings(n.name, n.conditions), IsCritical);
      FilterAppend(AllNodeFindings(init), NodeFindings(n), IsCritical);
      assert |Filter(head, IsCritical)| == if ready then 0 else 1;
      assert Filter(nodes, IsReadyNode) == Filter(init, IsReadyNode) + (if ready then [n] else []);
    }
  }

  // ---------------------------------------------------------------------------
  // 2. Utilization
  // ---------------------------------------------------------------------------

  function CapacitySum(nodes: seq<Node>): ResourceList {
    if nodes == [] then ResourceList(0, 0)
    else
      var s := CapacitySum(nodes[..|nodes| - 1]);
      var c := nodes[|nodes| - 1].capacity;
      ResourceList(s.cpuMillis + c.cpuMillis, s.memBytes + c.memBytes)
  }

  function UsageSum(usage: seq<ResourceList>): ResourceList {
    if usage == [] then ResourceList(0, 0)
    else
      var s := UsageSum(usage[..|usage| - 1]);
      var u := usage[|usage| - 1];
      ResourceList(s.cpuMillis + u.cpuMillis, s.memBytes + u.memBytes)
  }

  /** Usage above 85% of a positive capacity. */
  predicate Over85(total: int, capacity: int) {
    capacity > 0 && 100 * total > 85 * capacity
  }

  /** With node metrics available and non-empty: a warning each when the
      summed CPU or memory usage is above 85% of the summed capacity. */
  function UtilizationFindings(nodes: seq<Node>, usage: Result<seq<ResourceList>>): seq<Finding> {
    if usage.Err? || usage.value == [] then []
    else
      var cap := CapacitySum(nodes);
      var used := UsageSum(usage.value);
      (if Over85(used.cpuMillis, cap.cpuMillis) then [Finding(Warning, "ClusterCPU", "cluster")] else [])
      + (if Over85(used.memBytes, cap.memBytes) then [Finding(Warning, "ClusterMemory", "cluster")] else [])
  }

  method Utilization(nodes: seq<Node>, usage: Result<seq<ResourceList>>) returns (fs: seq<Finding>)
    ensures fs == UtilizationFindings(nodes, usage)
  {
    if usage.Err? || |usage.value| == 0 {
      return [];
    }
    var capCPU, capMem := 0, 0;
    for i := 0 to |nodes|
      invariant ResourceList(capCPU, capMem) == CapacitySum(nodes[..i])
    {
      assert nodes[..i + 1][..i] == nodes[..i];
      capCPU := capCPU + nodes[i].capacity.cpuMillis;
      capMem := capMem + nodes[i].capacity.memBytes;
    }
    var us := usage.value;
    var totalCPU, totalMem := 0, 0;
    for i := 0 to |us|
      invariant ResourceList(totalCPU, totalMem) == UsageSum(us[..i])
    {
      assert us[..i + 1][..i] == us[..i];
      totalCPU := totalCPU + us[i].cpuMillis;
      totalMem := totalMem + us[i].memBytes;
    }
    assert nodes[..|nodes|] == nodes;
    assert us[..|us|] == us;
    fs := [];
    if capCPU > 0 && 100 * totalCPU > 85 * capCPU {
      fs := fs + [Finding(Warning, "ClusterCPU", "cluster")];
    }
    if capMem > 0 && 100 * totalMem > 85 * capMem {
      fs := fs + [Finding(Warning, "ClusterMemory", "cluster")];
    }
  }

  /** The cluster threshold lies inside the per-container bands: usage
      above 85% of capacity is at least high, and saturated from 90%. */
  lemma Over85IsHigh(total: int, capacity: int)
    requires Over85(total, capacity)
    ensures UsageBand(total, capacity) != Normal
    ensures UsageBand(total, capacity) == Saturated <==> 100 * total >= 90 * capacity
  {
  }

  // ---------------------------------------------------------------------------
  // 3. Pod health by namespace
  // ---------------------------------------------------------------------------

  datatype NsCounts = NsCounts(total: nat, unhealthy: nat, highRestart: nat)

  /** A pod that makes its namespace show up: unhealthy, or restarting
      more than the threshold. */
  predicate PodFlagged(p: Pod, threshold: int) {
    !IsPodHealthy(p) || RestartsOf(p) > threshold
  }

  /** Counts one more pod in its namespace. */
  function Bump(m: map<string, NsCounts>, p: Pod, threshold: int): map<string, NsCounts> {
    var e := if p.namespace in m then m[p.namespace] else NsCounts(0, 0, 0);
    m[p.namespace := NsCounts(
      e.total + 1,
      e.unhealthy + (if IsPodHealthy(p) then 0 else 1),
      e.highRestart + (if RestartsOf(p) > threshold then 1 else 0))]
  }

  /** Pods, unhealthy pods and high-restart pods per namespace. */
  function NamespaceCounts(pods: seq<Pod>, threshold: int): map<string, NsCounts> {
    if pods == [] then map[]
    else Bump(NamespaceCounts(pods[..|pods| - 1], threshold), pods[|pods| - 1], threshold)
  }

  method AggregatePods(pods: seq<Pod>, threshold: int) returns (m: map<string, NsCounts>)
    ensures m == NamespaceCounts(pods, threshold)
  {
    m := map[];
    for i := 0 to |pods|
      invariant m == NamespaceCounts(pods[..i], threshold)
    {
      NamespaceCountsStep(pods, i, threshold);
      m := TallyNamespace(m, pods[i], threshold);
    }
    assert pods[..|pods|] == pods;
  }

  lemma NamespaceCountsStep(pods: seq<Pod>, i: int, threshold: int)
    requires 0 <= i < |pods|
    ensures NamespaceCounts(pods[..i + 1], threshold) == Bump(NamespaceCounts(pods[..i], threshold), pods[i], threshold)
  {
    assert pods[..i + 1][..i] == pods[..i];
  }

  /** The loop body: one more pod in its namespace's entry. */
  method TallyNamespace(m: map<string, NsCounts>, p: Pod, threshold: int) returns (next: map<string, NsCounts>)
    ensures next == Bump(m, p, threshold)
  {
    var e := if p.namespace in m then m[p.namespace] else NsCounts(0, 0, 0);
    var unhealthy := e.unhealthy;
    if !IsPodHealthy(p) {
      unhealthy := unhealthy + 1;
    }
    var high := e.highRestart;
    if RestartsOf(p) > threshold {
      high := high + 1;
    }
    next := m[p.namespace := NsCounts(e.total + 1, unhealthy, high)];
  }

  /** A namespace is counted exactly when some pod lives in it, and it
      shows up exactly when one of its pods is flagged. */
  lemma {:induction false} NamespaceCountsMeaning(pods: seq<Pod>, threshold: int)
    ensures forall ns :: ns in NamespaceCounts(pods, threshold) <==> exists p :: p in pods && p.namespace == ns
    ensures forall ns :: ns in NamespaceCounts(pods, threshold) ==>
      (Flagged(NamespaceCounts(pods, threshold)[ns]) <==> exists p :: p in pods && p.namespace == ns && PodFlagged(p, threshold))
  {
    if pods != [] {
      var init := pods[..|pods| - 1];
      var p := pods[|pods| - 1];
      NamespaceCountsMeaning(init, threshold);
      assert pods == init + [p];
      assert forall q :: q in pods <==> q in init || q == p;
    }
  }

  /** The pods of namespace `ns`, in listing order. */
  function PodsIn(pods: seq<Pod>, ns: string): seq<Pod> {
    Filter(pods, (p: Pod) => p.namespace == ns)
  }

  /** The pods restarting more than the threshold. */
  function HighRestarts(pods: seq<Pod>, threshold: int): seq<Pod> {
    Filter(pods, (p: Pod) => RestartsOf(p) > threshold)
  }

  /** A namespace's counts taken straight from its pods. */
  function CountsFor(pods: seq<Pod>, ns: string, threshold: int): NsCounts {
    var own := PodsIn(pods, ns);
    NsCounts(|own|, |Unhealthy(own)|, |HighRestarts(own, threshold)|)
  }

  /** A namespace's entry, or zero counts when it has none. */
  function EntryOf(m: map<string, NsCounts>, ns: string): NsCounts {
    if ns in m then m[ns] else NsCounts(0, 0, 0)
  }

  /** One more pod changes only its own namespace's counts, by one pod. */
  lemma CountsForSnoc(init: seq<Pod>, p: Pod, ns: string, threshold: int)
    ensures CountsFor(init + [p], ns, threshold) == Bump(map[ns := CountsFor(init, ns, threshold)], p, threshold)[ns]
  {
    var own := PodsIn(init, ns);
    assert (init + [p])[..|init|] == init;
    if ns == p.namespace {
      assert PodsIn(init + [p], ns) == own + [p];
      assert (own + [p])[..|own|] == own;
      assert Unhealthy(own + [p]) == Unhealthy(own) + (if IsPodHealthy(p) then [] else [p]);
      assert HighRestarts(own + [p], threshold) == HighRestarts(own, threshold) + (if RestartsOf(p) > threshold then [p] else []);
    } else {
      assert PodsIn(init + [p], ns) == own;
    }
  }

  /** Each namespace's entry holds exactly the number of its pods, of its
      unhealthy pods and of its pods over the restart threshold; a
      namespace without an entry has no pods. */
  lemma {:induction false} NamespaceCountsExact(pods: seq<Pod>, threshold: int)
    ensures forall ns :: EntryOf(NamespaceCounts(pods, threshold), ns) == CountsFor(pods, ns, threshold)
    ensures forall ns :: ns in NamespaceCounts(pods, threshold) ==>
      NamespaceCounts(pods, threshold)[ns] == CountsFor(pods, ns, threshold)
    ensures forall ns :: ns !in NamespaceCounts(pods, threshold) ==> PodsIn(pods, ns) == []
  {
    if pods != [] {
      var init := pods[..|pods| - 1];
      var p := pods[|pods| - 1];
      assert pods == init + [p];
      NamespaceCountsExact(init, threshold);
      forall ns
        ensures EntryOf(NamespaceCounts(pods, threshold), ns) == CountsFor(pods, ns, threshold)
      {
        CountsForSnoc(init, p, ns, threshold);
      }
    }
    forall ns | ns !in NamespaceCounts(pods, threshold)
      ensures PodsIn(pods, ns) == []
    {
      assert EntryOf(NamespaceCounts(pods, threshold), ns) == NsCounts(0, 0, 0);
    }
  }

  /** The sum of the unhealthy counts of the namespaces in `keys`. */
  ghost function SumUnhealthy(m: map<string, NsCounts>, keys: set<string>): nat
    requires keys <= m.Keys
    decreases keys
  {
    if keys == {} then 0
    else
      var k :| k in keys;
      m[k].unhealthy + SumUnhealthy(m, keys - {k})
  }

  /** The sum does not depend on the order the namespaces are taken in. */
  lemma SumUnhealthyRemove(m: map<string, NsCounts>, keys: set<string>, k: string)
    requires keys <= m.Keys && k in keys
    ensures SumUnhealthy(m, keys) == m[k].unhealthy + SumUnhealthy(m, keys - {k})
    decreases keys
  {
    var j :| j in keys && SumUnhealthy(m, keys) == m[j].unhealthy + SumUnhealthy(m, keys - {j});
    if j != k {
      SumUnhealthyRemove(m, keys - {j}, k);
      SumUnhealthyRemove(m, keys - {k}, j);
      assert keys - {j} - {k} == keys - {k} - {j};
    }
  }

  /** Maps that agree on the unhealthy counts of `keys` agree on their sum. */
  lemma SumUnhealthyAgree(m1: map<string, NsCounts>, m2: map<string, NsCounts>, keys: set<string>)
    requires keys <= m1.Keys && keys <= m2.Keys
    requires forall k :: k in keys ==> m1[k].unhealthy == m2[k].unhealthy
    ensures SumUnhealthy(m1, keys) == SumUnhealthy(m2, keys)
    decreases keys
  {
    if keys != {} {
      var k :| k in keys;
      SumUnhealthyRemove(m1, keys, k);
      SumUnhealthyRemove(m2, keys, k);
      SumUnhealthyAgree(m1, m2, keys - {k});
    }
  }

  /** The cluster-wide total of the namespaces' unhealthy counts is the
      number of unhealthy pods. */
  lemma {:induction false} TotalUnhealthyCount(pods: seq<Pod>, threshold: int)
    ensures SumUnhealthy(NamespaceCounts(pods, threshold), NamespaceCounts(pods, threshold).Keys) == |Unhealthy(pods)|
  {
    if pods != [] {
      var init := pods[..|pods| - 1];
      var p := pods[|pods| - 1];
      TotalUnhealthyCount(init, threshold);
      var m := NamespaceCounts(init, threshold);
      var m' := Bump(m, p, threshold);
      var ns := p.namespace;
      assert Unhealthy(pods) == Unhealthy(init) + (if !IsPodHealthy(p) then [p] else []);
      var d := if IsPodHealthy(p) then 0 else 1;
      assert m'[ns].unhealthy == (if ns in m then m[ns].unhealthy else 0) + d;
      if ns in m {
        assert m'.Keys == m.Keys;
        SumUnhealthyRemove(m', m.Keys, ns);
        SumUnhealthyRemove(m, m.Keys, ns);
        SumUnhealthyAgree(m, m', m.Keys - {ns});
      } else {
        assert m'.Keys == m.Keys + {ns};
        SumUnhealthyRemove(m', m'.Keys, ns);
        assert m'.Keys - {ns} == m.Keys;
        SumUnhealthyAgree(m, m', m.Keys);
      }
    }
  }

  /** Adds up the unhealthy counts, one namespace at a time. */
  method TotalUnhealthy(m: map<string, NsCounts>) returns (total: nat)
    ensures total == SumUnhealthy(m, m.Keys)
  {
    total := 0;
    var remaining := m.Keys;
    while remaining != {}
      invariant remaining <= m.Keys
      invariant total + SumUnhealthy(m, remaining) == SumUnhealthy(m, m.Keys)
      decreases remaining
    {
      var ns :| ns in remaining;
      SumUnhealthyRemove(m, remaining, ns);
      total := total + m[ns].unhealthy;
      remaining := remaining - {ns};
    }
  }

  datatype NamespaceRow = NamespaceRow(namespace: string, total: nat, unhealthy: nat, highRestart: nat)

  predicate Flagged(e: NsCounts) { e.unhealthy > 0 || e.highRestart > 0 }

  ghost predicate IsFlaggedRow(m: map<string, NsCounts>, r: NamespaceRow) {
    r.namespace in m && Flagged(m[r.namespace])
    && r == NamespaceRow(r.namespace, m[r.namespace].total, m[r.namespace].unhealthy, m[r.namespace].highRestart)
  }

  /** One row per namespace that has unhealthy or high-restart pods. */
  method FlaggedRows(m: map<string, NsCounts>) returns (rows: seq<NamespaceRow>)
    ensures forall r :: r in rows <==> IsFlaggedRow(m, r)
    ensures forall i, j :: 0 <= i < j < |rows| ==> rows[i].namespace != rows[j].namespace
  {
    rows := [];
    var remaining := m.Keys;
    while remaining != {}
      invariant remaining <= m.Keys
      invariant forall r :: r in rows <==> IsFlaggedRow(m, r) && r.namespace !in remaining
      invariant forall i, j :: 0 <= i < j < |rows| ==> rows[i].namespace != rows[j].namespace
      decreases remaining
    {
      var ns :| ns in remaining;
      var e := m[ns];
      if e.unhealthy > 0 || e.highRestart > 0 {
        rows := rows + [NamespaceRow(ns, e.total, e.unhealthy, e.highRestart)];
      }
      remaining := remaining - {ns};
    }
  }

  function UnhealthyKey(r: NamespaceRow): int { r.unhealthy }

  /** Orders the rows by their unhealthy count, largest first. */
  method SortRows(rows: seq<NamespaceRow>) returns (sorted: seq<NamespaceRow>)
    ensures SortedDesc(sorted, UnhealthyKey)
    ensures multiset(sorted) == multiset(rows)
  {
    var a := new NamespaceRow[|rows|](i requires 0 <= i < |rows| => rows[i]);
    assert a[..] == rows;
    SortDescending(a, UnhealthyKey);
    sorted := a[..];
  }

  /** The unhealthy count as the table shows it. */
  function UnhealthyText(r: NamespaceRow): string {
    IntToString(r.unhealthy)
  }

  /** The order the table gets as written: the rows sorted by the text of
      the unhealthy count, so that no row is followed by one whose count
      text is greater. */
  ghost predicate TextSortedDesc(rows: seq<NamespaceRow>) {
    forall p, q :: 0 <= p < q < |rows| ==> !LexLess(UnhealthyText(rows[p]), UnhealthyText(rows[q]))
  }

  /** Comparing the counts as text puts a namespace with 9 unhealthy pods
      ahead of one with 10: the only order the text sort allows for the two
      rows is not descending by count. */
  lemma TextOrderMisranks()
    ensures var nine := NamespaceRow("a", 9, 9, 0);
      var ten := NamespaceRow("b", 10, 10, 0);
      TextSortedDesc([nine, ten]) && !TextSortedDesc([ten, nine])
      && !SortedDesc([nine, ten], UnhealthyKey) && SortedDesc([ten, nine], UnhealthyKey)
  {
    var nine := NamespaceRow("a", 9, 9, 0);
    var ten := NamespaceRow("b", 10, 10, 0);
    assert UnhealthyText(nine) == "9";
    assert UnhealthyText(ten) == "10";
    assert LexLess("10", "9");
    assert !LexLess("9", "10");
    assert [ten, nine][0] == ten && [ten, nine][1] == nine;
    assert [nine, ten][0] == nine && [nine, ten][1] == ten;
  }

  /** Some namespace is flagged exactly when some pod is flagged. */
  lemma FlaggedRowsIff(pods: seq<Pod>, threshold: int, rows: seq<NamespaceRow>)
    requires forall r :: r in rows <==> IsFlaggedRow(NamespaceCounts(pods, threshold), r)
    ensures rows != [] <==> exists p :: p in pods && PodFlagged(p, threshold)
  {
    var m := NamespaceCounts(pods, threshold);
    NamespaceCountsMeaning(pods, threshold);
    if rows != [] {
      assert IsFlaggedRow(m, rows[0]);
      var ns := rows[0].namespace;
      var p :| p in pods && p.namespace == ns && PodFlagged(p, threshold);
    }
    if p :| p in pods && PodFlagged(p, threshold) {
      var ns := p.namespace;
      var e := m[ns];
      assert IsFlaggedRow(m, NamespaceRow(ns, e.total, e.unhealthy, e.highRestart));
    }
  }

  /** A warning when some pod anywhere is unhealthy or restarting too much. */
  function NamespaceFinding(pods: Result<seq<Pod>>, threshold: int): seq<Finding> {
    if pods.Ok? && exists p :: p in pods.value && PodFlagged(p, threshold) then
      [Finding(Warning, "UnhealthyPods", "cluster")]
    else []
  }

  // ---------------------------------------------------------------------------
  // 4. Service endpoints
  // ---------------------------------------------------------------------------

  /** Services of type ExternalName and services without a selector are
      skipped, as are those whose endpoints cannot be read; a service
      without endpoints is dead, one with endpoints not ready degraded. */
  function ScanFinding(svc: Service, health: Result<EndpointHealth>): Option<Finding> {
    if svc.kind == ExternalName || svc.selector == map[] then None
    else match health
      case Err(_) => None
      case Ok(h) =>
        if h.totalEndpoints == 0 then Some(Finding(Critical, "DeadService", svc.namespace + "/" + svc.name))
        else if h.notReadyCount > 0 then Some(Finding(Warning, "DegradedService", svc.namespace + "/" + svc.name))
        else None
  }

  /** The scan agrees with the endpoint listing: it calls a service dead
      exactly when the listing does, and degraded exactly when the listing
      does and the service has a selector. */
  lemma ScanAgreesWithListing(svc: Service, health: Result<EndpointHealth>)
    ensures (ScanFinding(svc, health).Some? && ScanFinding(svc, health).value.severity == Critical)
      <==> ClassifyEndpoints(svc, health) == Dead
    ensures (ScanFinding(svc, health).Some? && ScanFinding(svc, health).value.severity == Warning)
      <==> (ClassifyEndpoints(svc, health) == Degraded && svc.selector != map[])
    ensures ScanFinding(svc, health).Some? ==> ScanFinding(svc, health).value.severity != Info
  {
  }

  function ScanFindings(services: seq<Service>, health: Service -> Result<EndpointHealth>): seq<Finding> {
    if services == [] then []
    else
      var s := services[|services| - 1];
      ScanFindings(services[..|services| - 1], health)
      + (if ScanFinding(s, health(s)).Some? then [ScanFinding(s, health(s)).value] else [])
  }

  /** The endpoint scan over every service, counting dead and degraded
      services. */
  method ScanEndpoints(services: seq<Service>, health: Service -> Result<EndpointHealth>)
    returns (fs: seq<Finding>, dead: nat, degraded: nat)
    ensures fs == ScanFindings(services, health)
    ensures dead == CriticalCount(fs) && dead + degraded == |fs|
  {
    fs := [];
    dead, degraded := 0, 0;
    for i := 0 to |services|
      invariant fs == ScanFindings(services[..i], health)
      invariant dead == CriticalCount(fs) && dead + degraded == |fs|
    {
      assert services[..i + 1][..i] == services[..i];
      var svc := services[i];
      var f := ScanFinding(svc, health(svc));
      if f.Some? {
        FilterSnoc(fs, f.value, IsCritical);
        if f.value.severity == Critical {
          dead := dead + 1;
        } else {
          degraded := degraded + 1;
        }
        fs := fs + [f.value];
      }
    }
    assert services[..|services|] == services;
  }

  // ---------------------------------------------------------------------------
  // 5. Recent warning events
  // ---------------------------------------------------------------------------

  function RecentWarnings(events: seq<Event>, now: int): seq<Event> {
    Filter(events, e => IsRecentWarning(e, now))
  }

  /** Events per reason; a reason is counted once per event. */
  function ReasonCounts(es: seq<Event>): map<string, nat> {
    if es == [] then map[]
    else
      var m := ReasonCounts(es[..|es| - 1]);
      var r := es[|es| - 1].reason;
      m[r := (if r in m then m[r] else 0) + 1]
  }

  function CountReason(es: seq<Event>, reason: string): nat {
    if es == [] then 0
    else CountReason(es[..|es| - 1], reason) + (if es[|es| - 1].reason == reason then 1 else 0)
  }

  /** The map lists exactly the reasons that occur, each with the number of
      events that give it. */
  lemma {:induction false} ReasonCountsMeaning(es: seq<Event>)
    ensures forall r :: r in ReasonCounts(es) <==> exists e :: e in es && e.reason == r
    ensures forall r :: r in ReasonCounts(es) ==> ReasonCounts(es)[r] == CountReason(es, r)
  {
    if es != [] {
      var init := es[..|es| - 1];
      ReasonCountsMeaning(init);
      assert es == init + [es[|es| - 1]];
      assert forall e :: e in es <==> e in init || e == es[|es| - 1];
      forall r | r !in ReasonCounts(init) ensures CountReason(init, r) == 0 {
        CountReasonAbsent(init, r);
      }
    }
  }

  lemma {:induction false} CountReasonAbsent(es: seq<Event>, r: string)
    requires forall e :: e in es ==> e.reason != r
    ensures CountReason(es, r) == 0
  {
    if es != [] {
      CountReasonAbsent(es[..|es| - 1], r);
    }
  }

  /** The recent warnings and their counts per reason. */
  method CountRecentWarnings(events: seq<Event>, now: int) returns (count: nat, reasons: map<string, nat>)
    ensures count == |RecentWarnings(events, now)|
    ensures reasons == ReasonCounts(RecentWarnings(events, now))
  {
    count := 0;
    reasons := map[];
    for i := 0 to |events|
      invariant count == |RecentWarnings(events[..i], now)|
      invariant reasons == ReasonCounts(RecentWarnings(events[..i], now))
    {
      RecentStep(events, i, now);
      ghost var recent := RecentWarnings(events[..i], now);
      if IsRecentWarning(events[i], now) {
        assert RecentWarnings(events[..i + 1], now) == recent + [events[i]];
        ReasonCountsSnoc(recent, events[i]);
        count := count + 1;
        var r := events[i].reason;
        reasons := reasons[r := (if r in reasons then reasons[r] else 0) + 1];
      } else {
        assert RecentWarnings(events[..i + 1], now) == recent;
      }
    }
    assert events[..|events|] == events;
  }

  lemma RecentStep(events: seq<Event>, i: int, now: int)
    requires 0 <= i < |events|
    ensures RecentWarnings(events[..i + 1], now)
      == RecentWarnings(events[..i], now) + (if IsRecentWarning(events[i], now) then [events[i]] else [])
  {
    assert events[..i + 1][..i] == events[..i];
  }

  lemma ReasonCountsSnoc(es: seq<Event>, e: Event)
    ensures ReasonCounts(es + [e])
      == ReasonCounts(es)[e.reason := (if e.reason in ReasonCounts(es) then ReasonCounts(es)[e.reason] else 0) + 1]
  {
    assert (es + [e])[..|es|] == es;
  }

  function EventFinding(events: Result<seq<Event>>, now: int): seq<Finding> {
    if events.Ok? && |RecentWarnings(events.value, now)| > 0 then [Finding(Warning, "RecentWarnings", "cluster")]
    else []
  }

  // ---------------------------------------------------------------------------
  // 6. kube-system
  // ---------------------------------------------------------------------------

  const KubeSystem: string := "kube-system"

  function KubeSystemFinding(ksPods: Result<seq<Pod>>): seq<Finding> {
    if ksPods.Ok? && |Unhealthy(ksPods.value)| > 0 then [Finding(Critical, "UnhealthySystemPods", KubeSystem)]
    else []
  }

  // ---------------------------------------------------------------------------
  // 7. Overall
  // ---------------------------------------------------------------------------

  /** Every finding of the overview, section by section. */
  function OverviewFindings(
    nodes: seq<Node>, usage: Result<seq<ResourceList>>, allPods: Result<seq<Pod>>,
    services: Result<seq<Service>>, health: Service -> Result<EndpointHealth>,
    events: Result<seq<Event>>, ksPods: Result<seq<Pod>>, now: int, threshold: int): seq<Finding>
  {
    AllNodeFindings(nodes) + UtilizationFindings(nodes, usage) + NamespaceFinding(allPods, threshold)
    + (if services.Ok? then ScanFindings(services.value, health) else [])
    + EventFinding(events, now) + KubeSystemFinding(ksPods)
  }

  datatype Overview = Overview(
    findings: seq<Finding>,
    readyNodes: nat,
    rows: seq<NamespaceRow>,
    totalUnhealthy: nat,
    recentWarnings: nat,
    reasons: map<string, nat>,
    healthy: bool)

  /** The namespace section: the flagged rows, sorted, and the cluster-wide
      unhealthy total. */
  method NamespaceSection(pods: seq<Pod>, threshold: int)
    returns (rows: seq<NamespaceRow>, total: nat, fs: seq<Finding>)
    ensures SortedDesc(rows, UnhealthyKey)
    ensures forall r :: r in rows <==> IsFlaggedRow(NamespaceCounts(pods, threshold), r)
    ensures total == |Unhealthy(pods)|
    ensures fs == NamespaceFinding(Ok(pods), threshold)
  {
    var m := AggregatePods(pods, threshold);
    var flagged := FlaggedRows(m);
    rows := SortRows(flagged);
    assert forall r :: r in rows <==> r in multiset(rows);
    assert forall r :: r in flagged <==> r in multiset(flagged);
    total := TotalUnhealthy(m);
    TotalUnhealthyCount(pods, threshold);
    FlaggedRowsIff(pods, threshold, rows);
    if |rows| > 0 {
      fs := [Finding(Warning, "UnhealthyPods", "cluster")];
    } else {
      fs := [];
    }
  }

  /** The overview; listing the nodes is the one step whose failure ends
      it. */
  method ClusterHealthOverview(
    nodes: Result<seq<Node>>, usage: Result<seq<ResourceList>>, allPods: Result<seq<Pod>>,
    services: Result<seq<Service>>, health: Service -> Result<EndpointHealth>,
    events: Result<seq<Event>>, ksPods: Result<seq<Pod>>, now: int, threshold: int)
    returns (r: Result<Overview>)
    ensures nodes.Err? ==> r == Err(nodes.error)
    ensures nodes.Ok? ==> r.Ok?
    ensures nodes.Ok? ==> r.value.findings == OverviewFindings(nodes.value, usage, allPods, services, health, events, ksPods, now, threshold)
    ensures nodes.Ok? ==> r.value.readyNodes == |Filter(nodes.value, IsReadyNode)|
    ensures nodes.Ok? ==> (r.value.healthy <==> r.value.findings == [])
    ensures nodes.Ok? ==> SortedDesc(r.value.rows, UnhealthyKey)
    ensures nodes.Ok? && allPods.Ok? ==>
      (forall x :: x in r.value.rows <==> IsFlaggedRow(NamespaceCounts(allPods.value, threshold), x))
      && r.value.totalUnhealthy == |Unhealthy(allPods.value)|
    ensures nodes.Ok? && allPods.Err? ==> r.value.rows == [] && r.value.totalUnhealthy == 0
    ensures nodes.Ok? && events.Ok? ==>
      r.value.recentWarnings == |RecentWarnings(events.value, now)|
      && r.value.reasons == ReasonCounts(RecentWarnings(events.value, now))
  {
    if nodes.Err? {
      return Err(nodes.error);
    }
    var nodeFs, ready := CheckNodes(nodes.value);
    var utilFs := Utilization(nodes.value, usage);

    var rows: seq<NamespaceRow> := [];
    var total := 0;
    var nsFs: seq<Finding> := [];
    if allPods.Ok? {
      rows, total, nsFs := NamespaceSection(allPods.value, threshold);
    }

    var scanFs: seq<Finding> := [];
    if services.Ok? {
      var dead, degraded;
      scanFs, dead, degraded := ScanEndpoints(services.value, health);
    }

    var warnings := 0;
    var reasons: map<string, nat> := map[];
    var eventFs: seq<Finding> := [];
    if events.Ok? {
      warnings, reasons := CountRecentWarnings(events.value, now);
      if warnings > 0 {
        eventFs := [Finding(Warning, "RecentWarnings", "cluster")];
      }
    }

    var ksFs: seq<Finding> := [];
    if ksPods.Ok? {
      var ksUnhealthy := CountMatching(ksPods.value, p => !IsPodHealthy(p));
      assert ksUnhealthy == |Unhealthy(ksPods.value)|;
      if ksUnhealthy > 0 {
        ksFs := [Finding(Critical, "UnhealthySystemPods", KubeSystem)];
      }
    }

    var findings := nodeFs + utilFs + nsFs + scanFs + eventFs + ksFs;
    r := Ok(Overview(findings, ready, rows, total, warnings, reasons, |findings| == 0));
  }

  /** A cluster reported healthy has every node Ready and free of pressure,
      and, where the listings succeeded, no flagged pod, no dead or
      degraded service, no recent warning and no unhealthy kube-system
      pod. */
  lemma HealthyCluster(
    nodes: seq<Node>, usage: Result<seq<ResourceList>>, allPods: Result<seq<Pod>>,
    services: Result<seq<Service>>, health: Service -> Result<EndpointHealth>,
    events: Result<seq<Event>>, ksPods: Result<seq<Pod>>, now: int, threshold: int)
    requires OverviewFindings(nodes, usage, allPods, services, health, events, ksPods, now, threshold) == []
    ensures forall n :: n in nodes ==> IsReadyNode(n) && forall c :: c in n.conditions ==> !UnderPressure(c)
    ensures allPods.Ok? ==> forall p :: p in allPods.value ==> !PodFlagged(p, threshold)
    ensures services.Ok? ==> forall s :: s in services.value ==> ScanFinding(s, health(s)).None?
    ensures events.Ok? ==> RecentWarnings(events.value, now) == []
    ensures ksPods.Ok? ==> forall p :: p in ksPods.value ==> IsPodHealthy(p)
  {
    NodesQuiet(nodes);
    if services.Ok? {
      ScanQuiet(services.value, health);
    }
    if ksPods.Ok? {
      FilterMembers(ksPods.value, p => !IsPodHealthy(p));
    }
  }

  /** A Ready node without pressure conditions. */
  predicate NodeQuiet(n: Node) {
    IsReadyNode(n) && forall c :: c in n.conditions ==> !UnderPressure(c)
  }

  lemma NodeQuietOf(n: Node)
    requires NodeFindings(n) == []
    ensures NodeQuiet(n)
  {
    assert PressureFindings(n.name, n.conditions) == [];
  }

  lemma {:induction false} NodesQuiet(nodes: seq<Node>)
    requires AllNodeFindings(nodes) == []
    ensures forall n :: n in nodes ==> NodeQuiet(n)
  {
    AllNodeFindingsFlat(nodes);
    FlatMapEmpty(nodes, NodeFindings);
    forall n | n in nodes
      ensures NodeQuiet(n)
    {
      var i :| 0 <= i < |nodes| && nodes[i] == n;
      NodeQuietOf(n);
    }
  }

  lemma {:induction false} AllNodeFindingsFlat(nodes: seq<Node>)
    ensures AllNodeFindings(nodes) == FlatMap(nodes, NodeFindings)
  {
    if nodes != [] {
      AllNodeFindingsFlat(nodes[..|nodes| - 1]);
    }
  }

  lemma {:induction false} ScanQuiet(services: seq<Service>, health: Service -> Result<EndpointHealth>)
    requires ScanFindings(services, health) == []
    ensures forall s :: s in services ==> ScanFinding(s, health(s)).None?
  {
    if services != [] {
      ScanQuiet(services[..|services| - 1], health);
      assert services == services[..|services| - 1] + [services[|services| - 1]];
    }
  }
}
