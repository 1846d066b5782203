/** The CoreDNS health check: which kube-system pods are CoreDNS, what is
    wrong with each of them, whether there is more than one, what their
    recent logs say about failing lookups, and which actions follow.

    The three pod listings, the service lookup and the log fetch are
    parameters: each listing is the result that listing would return, and
    `logs(pod, container)` is the text (or error) the log fetch would
    return for that pod and container. */
module DnsHealth {
  import opened Wrappers
  import opened Resources
  import opened Seqs
  import opened StrUtil
  import opened Pods
  import Diagnostics

  const DnsNamespace: string := "kube-system"
  const CoreDnsPrefix: string := "coredns-"

  // ---------------------------------------------------------------------------
  // Finding the CoreDNS pods
  // ---------------------------------------------------------------------------

  /** A pod that the last-resort search recognises by its name. */
  predicate NamedCoreDns(p: Pod) {
    HasPrefix(p.name, CoreDnsPrefix)
  }

  /** The CoreDNS pods: those labelled k8s-app=kube-dns, or failing that
      those labelled app.kubernetes.io/name=coredns, or failing that the
      kube-system pods named coredns-*. Errors of the first two listings
      end the check; an error of the third leaves no pods. */
  function Discovered(byApp: Result<seq<Pod>>, byName: Result<seq<Pod>>, all: Result<seq<Pod>>): (r: Result<seq<Pod>>)
    ensures byApp.Err? ==> r == Err(byApp.error)
    ensures byApp.Ok? && byApp.value != [] ==> r == byApp
    ensures byApp == Ok([]) && byName.Err? ==> r == Err(byName.error)
    ensures byApp == Ok([]) && byName.Ok? && byName.value != [] ==> r == byName
    ensures byApp == Ok([]) && byName == Ok([]) ==>
      r.Ok? && forall p :: p in r.value <==> all.Ok? && p in all.value && NamedCoreDns(p)
  {
    match byApp
    case Err(e) => Err(e)
    case Ok(ps) =>
      if ps != [] then byApp
      else
        match byName
        case Err(e) => Err(e)
        case Ok(qs) =>
          if qs != [] then byName
          else if all.Ok? then
            FilterMembers(all.value, NamedCoreDns);
            Ok(Filter(all.value, NamedCoreDns))
          else Ok([])
  }

  /** The name-prefix search over all kube-system pods. */
  method FindByPrefix(all: seq<Pod>) returns (found: seq<Pod>)
    ensures found == Filter(all, NamedCoreDns)
  {
    found := [];
    for i := 0 to |all|
      invariant found == Filter(all[..i], NamedCoreDns)
    {
      FilterSnoc(all[..i], all[i], NamedCoreDns);
      assert all[..i + 1] == all[..i] + [all[i]];
      if HasPrefix(all[i].name, CoreDnsPrefix) {
        found := found + [all[i]];
      }
    }
    assert all[..|all|] == all;
  }

  /** The three listings tried in turn. */
  method DiscoverCoreDns(byApp: Result<seq<Pod>>, byName: Result<seq<Pod>>, all: Result<seq<Pod>>)
    returns (r: Result<seq<Pod>>)
    ensures r == Discovered(byApp, byName, all)
  {
    if byApp.Err? {
      return Err(byApp.error);
    }
    var pods := byApp.value;
    if |pods| == 0 {
      if byName.Err? {
        return Err(byName.error);
      }
      pods := byName.value;
    }
    if |pods| == 0 && all.Ok? {
      pods := FindByPrefix(all.value);
    }
    return Ok(pods);
  }

  // ---------------------------------------------------------------------------
  // Findings about one pod
  // ---------------------------------------------------------------------------

  predicate PhaseRunning(p: Pod) {
    p.phase == Running
  }

  /** A pod that is not Running is critical. */
  function PhaseFindings(p: Pod): (r: seq<Finding>)
    ensures r == [] <==> PhaseRunning(p)
  {
    if p.phase != Running then [Finding(Critical, "CoreDNSNotRunning", p.name)] else []
  }

  /** Restarts above the threshold are a warning, fewer restarts still a
      note. The count is the int32 sum over the container statuses. */
  function RestartFindings(p: Pod, threshold: int): (r: seq<Finding>)
    ensures |r| <= 1
    ensures r == [] <==> Diagnostics.RestartsOf(p) <= 0 && Diagnostics.RestartsOf(p) <= threshold
    ensures r != [] ==> (r[0].severity == Warning <==> Diagnostics.RestartsOf(p) > threshold)
  {
    var restarts := Diagnostics.RestartsOf(p);
    if restarts > threshold then [Finding(Warning, "CoreDNSHighRestarts", p.name)]
    else if restarts > 0 then [Finding(Info, "CoreDNSRestarts", p.name)]
    else []
  }

  /** A Ready condition whose status is anything but True. */
  predicate NotReady(c: Condition) {
    c.kind == "Ready" && c.status != "True"
  }

  /** One critical finding per Ready condition that is not True. */
  function ConditionFindings(conds: seq<Condition>, pod: string): seq<Finding> {
    if conds == [] then []
    else
      ConditionFindings(conds[..|conds| - 1], pod)
      + (if NotReady(conds[|conds| - 1]) then [Finding(Critical, "CoreDNSNotReady", pod)] else [])
  }

  /** Only Ready conditions that are not True raise findings, all the same. */
  lemma {:induction false} ConditionFindingsMeaning(conds: seq<Condition>, pod: string)
    ensures ConditionFindings(conds, pod) == [] <==> forall i :: 0 <= i < |conds| ==> !NotReady(conds[i])
    ensures forall f :: f in ConditionFindings(conds, pod) ==> f == Finding(Critical, "CoreDNSNotReady", pod)
  {
    if conds != [] {
      var init := conds[..|conds| - 1];
      ConditionFindingsMeaning(init, pod);
      assert forall i :: 0 <= i < |init| ==> init[i] == conds[i];
    }
  }

  /** The subject of a container finding: the container inside its pod. */
  function ContainerSubject(pod: string, container: string): string {
    pod + "/" + container
  }

  /** A container of pod `pod` crash-looping now, or killed for memory
      last time. */
  function StatusFindings(pod: string, cs: ContainerStatus): (r: seq<Finding>)
    ensures forall f :: f in r ==> f.severity == Critical
  {
    var subject := ContainerSubject(pod, cs.name);
    (if cs.state.waiting == Some(Diagnostics.CrashLoopBackOff) then [Finding(Critical, "CoreDNSCrashLoop", subject)] else [])
    + (if cs.lastTerminated.Some? && cs.lastTerminated.value.reason == Diagnostics.OOMKilled
       then [Finding(Critical, "CoreDNSOOMKilled", subject)] else [])
  }

  /** A container is reported crash-looping exactly when it waits in
      CrashLoopBackOff, and OOM-killed exactly when its last termination
      was for memory; nothing else is reported about it. */
  lemma StatusFindingsMeaning(pod: string, cs: ContainerStatus)
    ensures var r := StatusFindings(pod, cs);
      && (Finding(Critical, "CoreDNSCrashLoop", ContainerSubject(pod, cs.name)) in r
          <==> cs.state.waiting == Some(Diagnostics.CrashLoopBackOff))
      && (Finding(Critical, "CoreDNSOOMKilled", ContainerSubject(pod, cs.name)) in r
          <==> cs.lastTerminated.Some? && cs.lastTerminated.value.reason == Diagnostics.OOMKilled)
      && (forall f :: f in r ==> f.check in {"CoreDNSCrashLoop", "CoreDNSOOMKilled"}
                                 && f.subject == ContainerSubject(pod, cs.name))
  {
  }

  function AllStatusFindings(pod: string, statuses: seq<ContainerStatus>): seq<Finding> {
    if statuses == [] then []
    else AllStatusFindings(pod, statuses[..|statuses| - 1]) + StatusFindings(pod, statuses[|statuses| - 1])
  }

  /** The container checks raise nothing exactly when no container does,
      and whatever they raise is critical. */
  lemma {:induction false} AllStatusFindingsMeaning(pod: string, statuses: seq<ContainerStatus>)
    ensures AllStatusFindings(pod, statuses) == [] <==> forall i :: 0 <= i < |statuses| ==> StatusFindings(pod, statuses[i]) == []
    ensures forall f :: f in AllStatusFindings(pod, statuses) ==> f.severity == Critical
  {
    if statuses != [] {
      var init, last := statuses[..|statuses| - 1], statuses[|statuses| - 1];
      AllStatusFindingsMeaning(pod, init);
      var before, now := AllStatusFindings(pod, init), StatusFindings(pod, last);
      assert AllStatusFindings(pod, statuses) == before + now;
      assert forall i :: 0 <= i < |init| ==> init[i] == statuses[i];
      assert forall f :: f in before + now ==> f in before || f in now;
    }
  }

  /** Everything the check says about one CoreDNS pod, in its order. */
  function PodFindings(p: Pod, threshold: int): seq<Finding> {
    PhaseFindings(p) + RestartFindings(p, threshold)
    + ConditionFindings(p.conditions, p.name) + AllStatusFindings(p.name, p.statuses)
  }

  /** A pod the check has nothing to say about. */
  predicate QuietPod(p: Pod, threshold: int) {
    && p.phase == Running
    && Diagnostics.RestartsOf(p) <= 0 && Diagnostics.RestartsOf(p) <= threshold
    && (forall i :: 0 <= i < |p.conditions| ==> !NotReady(p.conditions[i]))
    && (forall i :: 0 <= i < |p.statuses| ==> StatusFindings(p.name, p.statuses[i]) == [])
  }

  /** A pod raises no finding exactly when it is quiet. */
  lemma QuietPodMeaning(p: Pod, threshold: int)
    ensures PodFindings(p, threshold) == [] <==> QuietPod(p, threshold)
  {
    ConditionFindingsMeaning(p.conditions, p.name);
    AllStatusFindingsMeaning(p.name, p.statuses);
  }

  /** The checks of one pod, one after the other. */
  method InspectPod(p: Pod, threshold: int) returns (raised: seq<Finding>, running: bool)
    ensures raised == PodFindings(p, threshold)
    ensures running <==> PhaseRunning(p)
  {
    raised := [];
    running := false;
    if p.phase != Running {
      raised := raised + [Finding(Critical, "CoreDNSNotRunning", p.name)];
    } else {
      running := true;
    }
    var summary := PodContainerSummary(p);
    if summary.restarts > threshold {
      raised := raised + [Finding(Warning, "CoreDNSHighRestarts", p.name)];
    } else if summary.restarts > 0 {
      raised := raised + [Finding(Info, "CoreDNSRestarts", p.name)];
    }
    assert raised == PhaseFindings(p) + RestartFindings(p, threshold);
    var notReady := CheckConditions(p.conditions, p.name);
    var failing := CheckStatuses(p.name, p.statuses);
    raised := raised + notReady + failing;
  }

  /** The loop over the pod's conditions. */
  method CheckConditions(conds: seq<Condition>, pod: string) returns (raised: seq<Finding>)
    ensures raised == ConditionFindings(conds, pod)
  {
    raised := [];
    for i := 0 to |conds|
      invariant raised == ConditionFindings(conds[..i], pod)
    {
      assert conds[..i + 1][..i] == conds[..i];
      if conds[i].kind == "Ready" && conds[i].status != "True" {
        raised := raised + [Finding(Critical, "CoreDNSNotReady", pod)];
      }
    }
    assert conds[..|conds|] == conds;
  }

  /** The loop over the pod's container statuses. */
  method CheckStatuses(pod: string, statuses: seq<ContainerStatus>) returns (raised: seq<Finding>)
    ensures raised == AllStatusFindings(pod, statuses)
  {
    raised := [];
    for i := 0 to |statuses|
      invariant raised == AllStatusFindings(pod, statuses[..i])
    {
      assert statuses[..i + 1][..i] == statuses[..i];
      raised := raised + StatusFindings(pod, statuses[i]);
    }
    assert statuses[..|statuses|] == statuses;
  }

  // ---------------------------------------------------------------------------
  // Findings about all pods
  // ---------------------------------------------------------------------------

  function PodsFindings(pods: seq<Pod>, threshold: int): seq<Finding> {
    FlatMap(pods, p => PodFindings(p, threshold))
  }

  lemma PodsFindingsSnoc(pods: seq<Pod>, p: Pod, threshold: int)
    ensures PodsFindings(pods + [p], threshold) == PodsFindings(pods, threshold) + PodFindings(p, threshold)
  {
    assert (pods + [p])[..|pods|] == pods;
  }

  /** One more pod adds its findings and, when running, one to the count. */
  lemma InspectStep(pods: seq<Pod>, i: int, threshold: int)
    requires 0 <= i < |pods|
    ensures PodsFindings(pods[..i + 1], threshold) == PodsFindings(pods[..i], threshold) + PodFindings(pods[i], threshold)
    ensures Filter(pods[..i + 1], PhaseRunning) == Filter(pods[..i], PhaseRunning) + (if PhaseRunning(pods[i]) then [pods[i]] else [])
  {
    assert pods[..i + 1] == pods[..i] + [pods[i]];
    PodsFindingsSnoc(pods[..i], pods[i], threshold);
    FilterSnoc(pods[..i], pods[i], PhaseRunning);
  }

  /** The pods raise nothing exactly when every one of them is quiet. */
  lemma QuietPods(pods: seq<Pod>, threshold: int)
    ensures PodsFindings(pods, threshold) == [] <==> forall i :: 0 <= i < |pods| ==> QuietPod(pods[i], threshold)
  {
    FlatMapEmpty(pods, p => PodFindings(p, threshold));
    forall i | 0 <= i < |pods|
      ensures PodFindings(pods[i], threshold) == [] <==> QuietPod(pods[i], threshold)
    {
      QuietPodMeaning(pods[i], threshold);
    }
  }

  /** When no CoreDNS pod is running, the first one is reported critical. */
  lemma NoRunningPodIsCritical(pods: seq<Pod>, threshold: int)
    requires pods != [] && |Filter(pods, PhaseRunning)| == 0
    ensures Finding(Critical, "CoreDNSNotRunning", pods[0].name) in PodsFindings(pods, threshold)
  {
    FilterMembers(pods, PhaseRunning);
    assert pods[0] !in Filter(pods, PhaseRunning);
    FlatMapContains(pods, p => PodFindings(p, threshold), 0);
  }

  /** A single CoreDNS pod gives no redundancy. */
  function RedundancyFindings(podCount: nat): (r: seq<Finding>)
    ensures r != [] <==> podCount < 2
  {
    if podCount < 2 then [Finding(Warning, "CoreDNSNoRedundancy", DnsNamespace)] else []
  }

  /** The pod checks over every pod, counting the running ones. */
  method InspectPods(pods: seq<Pod>, threshold: int) returns (findings: seq<Finding>, healthy: nat)
    ensures findings == PodsFindings(pods, threshold)
    ensures healthy == |Filter(pods, PhaseRunning)|
  {
    findings := [];
    healthy := 0;
    for i := 0 to |pods|
      invariant findings == PodsFindings(pods[..i], threshold)
      invariant healthy == |Filter(pods[..i], PhaseRunning)|
    {
      var raised, running := InspectPod(pods[i], threshold);
      InspectStep(pods, i, threshold);
      findings := findings + raised;
      if running {
        healthy := healthy + 1;
      }
    }
    assert pods[..|pods|] == pods;
  }

  // ---------------------------------------------------------------------------
  // Which container's logs are read
  // ---------------------------------------------------------------------------

  /** A container whose name mentions coredns or dns. */
  predicate DnsNamed(c: Container) {
    Contains(c.name, "coredns") || Contains(c.name, "dns")
  }

  /** "coredns" contains "dns", so the first half of the test adds nothing. */
  lemma DnsNamedMeaning(c: Container)
    ensures DnsNamed(c) <==> Contains(c.name, "dns")
  {
    if Contains(c.name, "coredns") {
      var i :| OccursAt(c.name, "coredns", i);
      assert c.name[i + 4..i + 7] == c.name[i..i + 7][4..7] == "dns";
      assert OccursAt(c.name, "dns", i + 4);
    }
  }

  /** The index of the first dns-named container, or the length. */
  function FirstDns(cs: seq<Container>): (k: nat)
    ensures k <= |cs|
    ensures forall j :: 0 <= j < k ==> !DnsNamed(cs[j])
    ensures k < |cs| ==> DnsNamed(cs[k])
  {
    if cs == [] then 0
    else if DnsNamed(cs[0]) then 0
    else 1 + FirstDns(cs[1..])
  }

  /** The container whose logs are read: the first dns-named one, else the
      first container, else none (the empty name). */
  function LogContainer(cs: seq<Container>): (r: string)
    ensures cs == [] ==> r == ""
    ensures FirstDns(cs) < |cs| ==> r == cs[FirstDns(cs)].name && Contains(r, "dns")
    ensures FirstDns(cs) == |cs| && cs != [] ==> r == cs[0].name
  {
    var k := FirstDns(cs);
    var chosen := if k < |cs| then (DnsNamedMeaning(cs[k]); cs[k].name) else "";
    if chosen == "" && |cs| > 0 then cs[0].name else chosen
  }

  /** The search loop that stops at the first dns-named container. */
  method PickLogContainer(p: Pod) returns (name: string)
    ensures name == LogContainer(p.containers)
  {
    var cs := p.containers;
    name := "";
    var i := 0;
    while i < |cs|
      invariant 0 <= i <= |cs|
      invariant forall j :: 0 <= j < i ==> !DnsNamed(cs[j])
      invariant name == ""
    {
      if Contains(cs[i].name, "coredns") || Contains(cs[i].name, "dns") {
        name := cs[i].name;
        assert FirstDns(cs) == i;
        break;
      }
      i := i + 1;
    }
    if name == "" && |cs| > 0 {
      name := cs[0].name;
    }
  }

  // ---------------------------------------------------------------------------
  // Counting error patterns in the logs
  // ---------------------------------------------------------------------------

  /** The patterns searched for, in the order they are reported. */
  const Patterns: seq<string> := ["SERVFAIL", "NXDOMAIN", "REFUSED", "i/o timeout",
                                  "connection refused", "no such host", "plugin/errors", "ERROR"]

  const ServfailAt: nat := 0
  const NxdomainAt: nat := 1
  const TimeoutAt: nat := 3
  const RefusedAt: nat := 4

  /** The positions of the patterns the findings and actions look at. */
  lemma PatternIndex(k: int)
    requires 0 <= k < |Patterns|
    ensures Patterns[k] == "SERVFAIL" <==> k == ServfailAt
    ensures Patterns[k] == "NXDOMAIN" <==> k == NxdomainAt
    ensures Patterns[k] == "i/o timeout" <==> k == TimeoutAt
    ensures Patterns[k] == "connection refused" <==> k == RefusedAt
  {
    assert Patterns[1][0] != "SERVFAIL"[0];
    assert Patterns[2][0] != "SERVFAIL"[0];
    assert Patterns[0][0] != "NXDOMAIN"[0];
    assert Patterns[7][0] != "SERVFAIL"[0];
  }

  /** The number of lines that contain the pattern. */
  function CountLines(lines: seq<string>, pattern: string): (n: nat)
    ensures n <= |lines|
  {
    if lines == [] then 0
    else CountLines(lines[..|lines| - 1], pattern) + (if Contains(lines[|lines| - 1], pattern) then 1 else 0)
  }

  /** A pattern counts nothing exactly when no line contains it. */
  lemma {:induction false} CountLinesZero(lines: seq<string>, pattern: string)
    ensures CountLines(lines, pattern) == 0 <==> forall i :: 0 <= i < |lines| ==> !Contains(lines[i], pattern)
  {
    if lines != [] {
      var init := lines[..|lines| - 1];
      CountLinesZero(init, pattern);
      assert forall i :: 0 <= i < |init| ==> init[i] == lines[i];
    }
  }

  /** The inner loop over the log lines. */
  method CountMatches(lines: seq<string>, pattern: string) returns (n: nat)
    ensures n == CountLines(lines, pattern)
  {
    n := 0;
    for i := 0 to |lines|
      invariant n == CountLines(lines[..i], pattern)
    {
      assert lines[..i + 1][..i] == lines[..i];
      if Contains(lines[i], pattern) {
        n := n + 1;
      }
    }
    assert lines[..|lines|] == lines;
  }

  /** No occurrences of any pattern. */
  function NoCounts(): (r: seq<nat>)
    ensures |r| == |Patterns|
  {
    seq(|Patterns|, _ => 0)
  }

  /** The per-pattern counts over some log lines. */
  function LineCounts(lines: seq<string>): (r: seq<nat>)
    ensures |r| == |Patterns|
  {
    seq(|Patterns|, k requires 0 <= k < |Patterns| => CountLines(lines, Patterns[k]))
  }

  /** What one pod's logs add: nothing when they cannot be fetched or are
      empty, otherwise the counts over their lines. */
  function PodCounts(p: Pod, logs: (string, string) -> Result<string>): (r: seq<nat>)
    ensures |r| == |Patterns|
  {
    match logs(p.name, LogContainer(p.containers))
    case Err(_) => NoCounts()
    case Ok(text) => if text == "" then NoCounts() else LineCounts(Split(text, '\n'))
  }

  function AddCounts(a: seq<nat>, b: seq<nat>): (r: seq<nat>)
    requires |a| == |b|
    ensures |r| == |a|
  {
    seq(|a|, k requires 0 <= k < |a| => a[k] + b[k])
  }

  /** The counts summed over all pods. */
  function TotalCounts(pods: seq<Pod>, logs: (string, string) -> Result<string>): (r: seq<nat>)
    ensures |r| == |Patterns|
  {
    if pods == [] then NoCounts()
    else AddCounts(TotalCounts(pods[..|pods| - 1], logs), PodCounts(pods[|pods| - 1], logs))
  }

  function Sum(s: seq<nat>): nat {
    if s == [] then 0 else Sum(s[..|s| - 1]) + s[|s| - 1]
  }

  lemma {:induction false} SumZero(s: seq<nat>)
    requires forall k :: 0 <= k < |s| ==> s[k] == 0
    ensures Sum(s) == 0
  {
    if s != [] {
      SumZero(s[..|s| - 1]);
    }
  }

  /** Summing the pattern counts commutes with adding them up per pod. */
  lemma {:induction false} SumAdd(a: seq<nat>, b: seq<nat>)
    requires |a| == |b|
    ensures Sum(AddCounts(a, b)) == Sum(a) + Sum(b)
  {
    if a != [] {
      var n := |a| - 1;
      SumAdd(a[..n], b[..n]);
      assert AddCounts(a, b)[..n] == AddCounts(a[..n], b[..n]);
    }
  }

  /** The sum of `f` over `s`. */
  function SumOver<T>(s: seq<T>, f: T -> nat): nat {
    if s == [] then 0 else SumOver(s[..|s| - 1], f) + f(s[|s| - 1])
  }

  lemma {:induction false} SumOverZero<T>(s: seq<T>, f: T -> nat)
    ensures SumOver(s, f) == 0 <==> forall i :: 0 <= i < |s| ==> f(s[i]) == 0
  {
    if s != [] {
      var init := s[..|s| - 1];
      SumOverZero(init, f);
      assert forall i :: 0 <= i < |init| ==> init[i] == s[i];
    }
  }

  /** Each pattern's total is the sum of that pattern's count over the pods. */
  lemma {:induction false} TotalCountsColumn(pods: seq<Pod>, logs: (string, string) -> Result<string>, k: int)
    requires 0 <= k < |Patterns|
    ensures TotalCounts(pods, logs)[k] == SumOver(pods, p => PodCounts(p, logs)[k])
  {
    if pods != [] {
      TotalCountsColumn(pods[..|pods| - 1], logs, k);
    }
  }

  /** A pattern appears nowhere in total exactly when no pod's logs show it. */
  lemma TotalCountsZero(pods: seq<Pod>, logs: (string, string) -> Result<string>, k: int)
    requires 0 <= k < |Patterns|
    ensures TotalCounts(pods, logs)[k] == 0 <==> forall i :: 0 <= i < |pods| ==> PodCounts(pods[i], logs)[k] == 0
  {
    TotalCountsColumn(pods, logs, k);
    SumOverZero(pods, p => PodCounts(p, logs)[k]);
  }

  /** A pod whose logs cannot be read, or are empty, changes no count. */
  lemma SilentPodCountsNothing(pods: seq<Pod>, p: Pod, logs: (string, string) -> Result<string>)
    requires logs(p.name, LogContainer(p.containers)).Err? || logs(p.name, LogContainer(p.containers)) == Ok("")
    ensures TotalCounts(pods + [p], logs) == TotalCounts(pods, logs)
  {
    assert (pods + [p])[..|pods|] == pods;
  }

  /** One pod's log scan, adding its counts to the running totals. */
  method ScanPod(p: Pod, logs: (string, string) -> Result<string>, counts: seq<nat>)
    returns (next: seq<nat>, podErrors: nat)
    requires |counts| == |Patterns|
    ensures next == AddCounts(counts, PodCounts(p, logs))
    ensures podErrors == Sum(PodCounts(p, logs))
  {
    var container := PickLogContainer(p);
    var fetched := logs(p.name, container);
    if fetched.Err? || fetched.value == "" {
      SumZero(NoCounts());
      return counts, 0;
    }
    next, podErrors := CountPatterns(Split(fetched.value, '\n'), counts);
  }

  /** The loop over the patterns for one pod's log lines. */
  method CountPatterns(lines: seq<string>, counts: seq<nat>) returns (next: seq<nat>, podErrors: nat)
    requires |counts| == |Patterns|
    ensures next == AddCounts(counts, LineCounts(lines))
    ensures podErrors == Sum(LineCounts(lines))
  {
    ghost var found := LineCounts(lines);
    next := counts;
    podErrors := 0;
    for k := 0 to |Patterns|
      invariant |next| == |Patterns|
      invariant forall j :: 0 <= j < k ==> next[j] == counts[j] + found[j]
      invariant forall j :: k <= j < |Patterns| ==> next[j] == counts[j]
      invariant podErrors == Sum(found[..k])
    {
      assert found[..k + 1][..k] == found[..k];
      var c := CountMatches(lines, Patterns[k]);
      next := next[k := next[k] + c];
      if c > 0 {
        podErrors := podErrors + c;
      }
    }
    assert found[..|Patterns|] == found;
  }

  /** The log scan over all pods: the per-pattern totals and the total of
      all occurrences. */
  method ScanLogs(pods: seq<Pod>, logs: (string, string) -> Result<string>)
    returns (counts: seq<nat>, totalErrors: nat)
    ensures counts == TotalCounts(pods, logs)
    ensures totalErrors == Sum(counts)
  {
    counts := NoCounts();
    totalErrors := 0;
    SumZero(counts);
    for i := 0 to |pods|
      invariant counts == TotalCounts(pods[..i], logs)
      invariant totalErrors == Sum(counts)
    {
      assert pods[..i + 1][..i] == pods[..i];
      var podErrors;
      SumAdd(counts, PodCounts(pods[i], logs));
      counts, podErrors := ScanPod(pods[i], logs, counts);
      totalErrors := totalErrors + podErrors;
    }
    assert pods[..|pods|] == pods;
  }

  // ---------------------------------------------------------------------------
  // Findings from the logs
  // ---------------------------------------------------------------------------

  /** What one pattern's total raises: SERVFAIL above 50 is critical and
      above 10 a warning, NXDOMAIN above 100 a note, and any upstream
      timeout or refusal a warning. */
  function PatternFindings(pattern: string, count: nat): seq<Finding> {
    (if count > 50 && pattern == "SERVFAIL" then [Finding(Critical, "HighServfailRate", pattern)]
     else if count > 10 && pattern == "SERVFAIL" then [Finding(Warning, "ElevatedServfail", pattern)]
     else [])
    + (if count > 100 && pattern == "NXDOMAIN" then [Finding(Info, "HighNxdomain", pattern)] else [])
    + (if count > 0 && (pattern == "i/o timeout" || pattern == "connection refused")
       then [Finding(Warning, "UpstreamDnsErrors", pattern)] else [])
  }

  function ServfailFindings(count: nat): seq<Finding> {
    if count > 50 then [Finding(Critical, "HighServfailRate", "SERVFAIL")]
    else if count > 10 then [Finding(Warning, "ElevatedServfail", "SERVFAIL")]
    else []
  }

  function NxdomainFindings(count: nat): seq<Finding> {
    if count > 100 then [Finding(Info, "HighNxdomain", "NXDOMAIN")] else []
  }

  function UpstreamFindings(pattern: string, count: nat): seq<Finding> {
    if count > 0 then [Finding(Warning, "UpstreamDnsErrors", pattern)] else []
  }

  /** The log findings stated directly on the four patterns that matter. */
  function LogFindings(counts: seq<nat>): (r: seq<Finding>)
    requires |counts| == |Patterns|
    ensures |r| <= 4
    ensures r == [] <==> counts[ServfailAt] <= 10 && counts[NxdomainAt] <= 100 && counts[TimeoutAt] == 0 && counts[RefusedAt] == 0
  {
    ServfailFindings(counts[ServfailAt]) + NxdomainFindings(counts[NxdomainAt])
    + UpstreamFindings("i/o timeout", counts[TimeoutAt]) + UpstreamFindings("connection refused", counts[RefusedAt])
  }

  /** The log findings of the patterns before position `k`. */
  function LogFindingsBefore(counts: seq<nat>, k: int): seq<Finding>
    requires |counts| == |Patterns|
  {
    (if k > ServfailAt then ServfailFindings(counts[ServfailAt]) else [])
    + (if k > NxdomainAt then NxdomainFindings(counts[NxdomainAt]) else [])
    + (if k > TimeoutAt then UpstreamFindings("i/o timeout", counts[TimeoutAt]) else [])
    + (if k > RefusedAt then UpstreamFindings("connection refused", counts[RefusedAt]) else [])
  }

  /** The rules for one pattern raise only that pattern's part of the log
      findings: every pattern but the four named ones raises nothing. */
  lemma PatternFindingsStep(counts: seq<nat>, k: int)
    requires |counts| == |Patterns| && 0 <= k < |Patterns|
    ensures LogFindingsBefore(counts, k + 1) == LogFindingsBefore(counts, k) + PatternFindings(Patterns[k], counts[k])
  {
    PatternIndex(k);
  }

  /** A SERVFAIL total raises at most one finding: critical or warning. */
  lemma ServfailExclusive(counts: seq<nat>)
    requires |counts| == |Patterns|
    ensures !(Finding(Critical, "HighServfailRate", "SERVFAIL") in LogFindings(counts)
              && Finding(Warning, "ElevatedServfail", "SERVFAIL") in LogFindings(counts))
    ensures Finding(Critical, "HighServfailRate", "SERVFAIL") in LogFindings(counts) <==> counts[ServfailAt] > 50
    ensures Finding(Warning, "ElevatedServfail", "SERVFAIL") in LogFindings(counts) <==> 10 < counts[ServfailAt] <= 50
  {
  }

  /** The loop over the pattern totals. */
  method RaiseLogFindings(counts: seq<nat>) returns (fs: seq<Finding>)
    requires |counts| == |Patterns|
    ensures fs == LogFindings(counts)
  {
    fs := [];
    for k := 0 to |Patterns|
      invariant fs == LogFindingsBefore(counts, k)
    {
      var pattern, count := Patterns[k], counts[k];
      var raised := [];
      if count > 50 && pattern == "SERVFAIL" {
        raised := raised + [Finding(Critical, "HighServfailRate", pattern)];
      } else if count > 10 && pattern == "SERVFAIL" {
        raised := raised + [Finding(Warning, "ElevatedServfail", pattern)];
      }
      if count > 100 && pattern == "NXDOMAIN" {
        raised := raised + [Finding(Info, "HighNxdomain", pattern)];
      }
      if count > 0 && (pattern == "i/o timeout" || pattern == "connection refused") {
        raised := raised + [Finding(Warning, "UpstreamDnsErrors", pattern)];
      }
      assert raised == PatternFindings(pattern, count);
      PatternFindingsStep(counts, k);
      fs := fs + raised;
    }
  }

  // ---------------------------------------------------------------------------
  // Suggested actions
  // ---------------------------------------------------------------------------

  datatype DnsAction = RestoreCoreDns | ScaleCoreDns | InvestigateServfail | CheckUpstream

  /** The actions, in order: no running pod, fewer than two pods, more
      than 10 SERVFAILs, any upstream timeout or refusal. */
  function Actions(healthy: nat, podCount: nat, counts: seq<nat>): (r: seq<DnsAction>)
    requires |counts| == |Patterns|
    ensures r == [] <==> healthy > 0 && podCount >= 2 && counts[ServfailAt] <= 10 && counts[TimeoutAt] == 0 && counts[RefusedAt] == 0
  {
    (if healthy == 0 then [RestoreCoreDns] else [])
    + (if podCount < 2 then [ScaleCoreDns] else [])
    + (if counts[ServfailAt] > 10 then [InvestigateServfail] else [])
    + (if counts[TimeoutAt] > 0 || counts[RefusedAt] > 0 then [CheckUpstream] else [])
  }

  /** The two searches over the pattern totals stop at the first match. */
  method SuggestActions(healthy: nat, podCount: nat, counts: seq<nat>) returns (actions: seq<DnsAction>)
    requires |counts| == |Patterns|
    ensures actions == Actions(healthy, podCount, counts)
  {
    actions := [];
    if healthy == 0 {
      actions := actions + [RestoreCoreDns];
    }
    if podCount < 2 {
      actions := actions + [ScaleCoreDns];
    }
    var head := actions;
    var k := 0;
    while k < |Patterns|
      invariant 0 <= k <= |Patterns|
      invariant forall j :: 0 <= j < k ==> !(counts[j] > 10 && Patterns[j] == "SERVFAIL")
      invariant actions == head
    {
      if counts[k] > 10 && Patterns[k] == "SERVFAIL" {
        PatternIndex(k);
        actions := actions + [InvestigateServfail];
        break;
      }
      k := k + 1;
    }
    assert actions == head + (if counts[ServfailAt] > 10 then [InvestigateServfail] else []);
    head := actions;
    k := 0;
    while k < |Patterns|
      invariant 0 <= k <= |Patterns|
      invariant forall j :: 0 <= j < k ==> !(counts[j] > 0 && (Patterns[j] == "i/o timeout" || Patterns[j] == "connection refused"))
      invariant actions == head
    {
      if counts[k] > 0 && (Patterns[k] == "i/o timeout" || Patterns[k] == "connection refused") {
        PatternIndex(k);
        actions := actions + [CheckUpstream];
        break;
      }
      k := k + 1;
    }
  }

  // ---------------------------------------------------------------------------
  // The check
  // ---------------------------------------------------------------------------

  /** Everything counted as an issue, in report order. */
  function DnsFindings(pods: seq<Pod>, threshold: int, logs: (string, string) -> Result<string>): seq<Finding> {
    PodsFindings(pods, threshold) + RedundancyFindings(|pods|) + LogFindings(TotalCounts(pods, logs))
  }

  datatype DnsReport =
    | NoCoreDns(findings: seq<Finding>)
    | Checked(serviceFound: bool, podCount: nat, healthyPods: nat, findings: seq<Finding>,
              counts: seq<nat>, totalErrors: nat, healthy: bool, actions: seq<DnsAction>)

  /** DNS is assessed healthy exactly when every pod is quiet, there are at
      least two, and the logs stay under every threshold. */
  lemma HealthyMeaning(pods: seq<Pod>, threshold: int, logs: (string, string) -> Result<string>)
    ensures DnsFindings(pods, threshold, logs) == [] <==>
      && (forall i :: 0 <= i < |pods| ==> QuietPod(pods[i], threshold))
      && |pods| >= 2
      && TotalCounts(pods, logs)[ServfailAt] <= 10 && TotalCounts(pods, logs)[NxdomainAt] <= 100
      && TotalCounts(pods, logs)[TimeoutAt] == 0 && TotalCounts(pods, logs)[RefusedAt] == 0
  {
    QuietPods(pods, threshold);
  }

  /** A healthy assessment comes with no suggested action. */
  lemma HealthyNeedsNoAction(pods: seq<Pod>, threshold: int, logs: (string, string) -> Result<string>)
    requires DnsFindings(pods, threshold, logs) == []
    ensures Actions(|Filter(pods, PhaseRunning)|, |pods|, TotalCounts(pods, logs)) == []
  {
    HealthyMeaning(pods, threshold, logs);
    FilterAll(pods, PhaseRunning);
    assert Filter(pods, PhaseRunning) == pods;
  }

  /** The checks over a non-empty set of CoreDNS pods. */
  method CheckPods(pods: seq<Pod>, serviceFound: bool, logs: (string, string) -> Result<string>, threshold: int)
    returns (report: DnsReport)
    ensures report == Checked(serviceFound, |pods|, |Filter(pods, PhaseRunning)|, DnsFindings(pods, threshold, logs),
      TotalCounts(pods, logs), Sum(TotalCounts(pods, logs)), DnsFindings(pods, threshold, logs) == [],
      Actions(|Filter(pods, PhaseRunning)|, |pods|, TotalCounts(pods, logs)))
  {
    var findings, healthyPods := InspectPods(pods, threshold);
    findings := findings + RedundancyFindings(|pods|);
    var counts, totalErrors := ScanLogs(pods, logs);
    var logFindings := RaiseLogFindings(counts);
    findings := findings + logFindings;
    var actions := SuggestActions(healthyPods, |pods|, counts);
    report := Checked(serviceFound, |pods|, healthyPods, findings, counts, totalErrors, |findings| == 0, actions);
  }

  /** check_dns_health: a listing error ends it, no CoreDNS pod is a
      single critical finding, and otherwise the full report. */
  method CheckDnsHealth(byApp: Result<seq<Pod>>, byName: Result<seq<Pod>>, all: Result<seq<Pod>>,
                        serviceFound: bool, logs: (string, string) -> Result<string>, threshold: int)
    returns (r: Result<DnsReport>)
    ensures Discovered(byApp, byName, all).Err? ==> r == Err(Discovered(byApp, byName, all).error)
    ensures Discovered(byApp, byName, all) == Ok([]) ==>
      r == Ok(NoCoreDns([Finding(Critical, "NoCoreDNS", DnsNamespace)]))
    ensures Discovered(byApp, byName, all).Ok? && Discovered(byApp, byName, all).value != [] ==>
      var pods := Discovered(byApp, byName, all).value;
      r == Ok(Checked(serviceFound, |pods|, |Filter(pods, PhaseRunning)|, DnsFindings(pods, threshold, logs),
        TotalCounts(pods, logs), Sum(TotalCounts(pods, logs)), DnsFindings(pods, threshold, logs) == [],
        Actions(|Filter(pods, PhaseRunning)|, |pods|, TotalCounts(pods, logs))))
  {
    var found := DiscoverCoreDns(byApp, byName, all);
    if found.Err? {
      return Err(found.error);
    }
    if |found.value| == 0 {
      return Ok(NoCoreDns([Finding(Critical, "NoCoreDNS", DnsNamespace)]));
    }
    var report := CheckPods(found.value, serviceFound, logs, threshold);
    return Ok(report);
  }
}
