/** The classification rules of the pod, namespace and unhealthy-pod
    diagnoses. Each diagnosis takes the fetched records (and, where the tool
    tolerates a failed fetch, the fetch result) and yields findings and
    counts; the report text around them is not modelled. */
module Diagnostics {
  import opened Wrappers
  import opened Resources
  import opened Seqs
  import opened Pods
  import opened K8sEvents

  // ---------------------------------------------------------------------------
  // Pod health
  // ---------------------------------------------------------------------------

  /** Every container status is ready and none is waiting. */
  function StatusesUp(statuses: seq<ContainerStatus>): (r: bool)
    ensures r <==> forall i :: 0 <= i < |statuses| ==> statuses[i].ready && statuses[i].state.waiting.None?
  {
    if statuses == [] then true
    else
      var init := statuses[..|statuses| - 1];
      var last := statuses[|statuses| - 1];
      assert forall i :: 0 <= i < |init| ==> init[i] == statuses[i];
      StatusesUp(init) && last.ready && last.state.waiting.None?
  }

  /** A pod is healthy when it has completed, or is running with every
      container status ready and not waiting (vacuously so with no
      statuses). */
  function IsPodHealthy(p: Pod): (r: bool)
    ensures r <==> (p.phase == Succeeded
      || (p.phase == Running && forall i :: 0 <= i < |p.statuses| ==> p.statuses[i].ready && p.statuses[i].state.waiting.None?))
  {
    if p.phase == Running then StatusesUp(p.statuses)
    else p.phase == Succeeded
  }

  function Unhealthy(pods: seq<Pod>): seq<Pod> {
    Filter(pods, p => !IsPodHealthy(p))
  }

  /** The restart total a report shows for a pod. */
  function RestartsOf(p: Pod): int {
    Wrap32(SumRestarts(p.statuses))
  }

  // ---------------------------------------------------------------------------
  // find_unhealthy_pods
  // ---------------------------------------------------------------------------

  datatype UnhealthyRow = UnhealthyRow(name: string, namespace: string, status: string, restarts: int)

  function RowOf(p: Pod): UnhealthyRow {
    UnhealthyRow(p.name, p.namespace, PodPhaseReason(p), RestartsOf(p))
  }

  /** One row per unhealthy pod, in listing order, and no row for a healthy
      pod. */
  method FindUnhealthyPods(pods: seq<Pod>) returns (rows: seq<UnhealthyRow>)
    ensures |rows| == |Unhealthy(pods)| <= |pods|
    ensures forall k :: 0 <= k < |rows| ==> rows[k] == RowOf(Unhealthy(pods)[k])
    ensures forall p :: p in Unhealthy(pods) <==> p in pods && !IsPodHealthy(p)
  {
    rows := [];
    for i := 0 to |pods|
      invariant |rows| == |Unhealthy(pods[..i])|
      invariant forall k :: 0 <= k < |rows| ==> rows[k] == RowOf(Unhealthy(pods[..i])[k])
    {
      FilterSnoc(pods[..i], pods[i], p => !IsPodHealthy(p));
      assert pods[..i + 1] == pods[..i] + [pods[i]];
      var p := pods[i];
      if IsPodHealthy(p) {
        continue;
      }
      var summary := PodContainerSummary(p);
      rows := rows + [UnhealthyRow(p.name, p.namespace, PodPhaseReason(p), summary.restarts)];
    }
    assert pods[..|pods|] == pods;
    FilterMembers(pods, p => !IsPodHealthy(p));
  }

  // ---------------------------------------------------------------------------
  // diagnose_pod
  // ---------------------------------------------------------------------------

  const CrashLoopBackOff: string := "CrashLoopBackOff"
  const ImagePullBackOff: string := "ImagePullBackOff"
  const ErrImagePull: string := "ErrImagePull"
  const OOMKilled: string := "OOMKilled"

  predicate IsPullFailure(reason: string) {
    reason == ImagePullBackOff || reason == ErrImagePull
  }

  /** The finding a waiting container raises: CrashLoopBackOff and image pull
      failures are critical, any other waiting reason a warning. */
  function WaitingFindings(cs: ContainerStatus): (r: seq<Finding>)
    ensures cs.state.waiting.None? ==> r == []
    ensures cs.state.waiting.Some? ==> |r| == 1 && r[0].subject == cs.name
    ensures cs.state.waiting.Some? ==>
      (r[0].severity == Critical <==> cs.state.waiting.value == CrashLoopBackOff || IsPullFailure(cs.state.waiting.value))
    ensures cs.state.waiting.Some? ==> (r[0].severity == Warning <==> r[0].check == "Waiting")
  {
    match cs.state.waiting
    case None => []
    case Some(reason) =>
      if reason == CrashLoopBackOff then [Finding(Critical, CrashLoopBackOff, cs.name)]
      else if IsPullFailure(reason) then [Finding(Critical, "ImagePull", cs.name)]
      else [Finding(Warning, "Waiting", cs.name)]
  }

  /** The findings of one container status: its waiting state, a non-zero
      exit code, and a restart count above the threshold. */
  function StatusFindings(cs: ContainerStatus, threshold: int): seq<Finding> {
    WaitingFindings(cs)
    + (if cs.state.terminated.Some? && cs.state.terminated.value.exitCode != 0
       then [Finding(Warning, "ExitCode", cs.name)] else [])
    + (if cs.restartCount > threshold then [Finding(Warning, "HighRestarts", cs.name)] else [])
  }

  /** A pod condition that is False raises a finding when it is
      PodScheduled (critical) or Ready (warning). */
  function ConditionFindings(cond: Condition, podName: string): seq<Finding> {
    (if cond.status == "False" && cond.kind == "PodScheduled"
     then [Finding(Critical, "NotScheduled", podName)] else [])
    + (if cond.status == "False" && cond.kind == "Ready"
       then [Finding(Warning, "NotReady", podName)] else [])
  }

  predicate NoCPULimit(c: Container) { c.limits.None? || c.limits.value.cpuMillis == 0 }
  predicate NoMemoryLimit(c: Container) { c.limits.None? || c.limits.value.memBytes == 0 }

  /** A missing CPU limit and a missing memory limit each raise their own
      informational finding; a container without limits raises both. */
  function LimitFindings(c: Container): (r: seq<Finding>)
    ensures |r| == (if NoCPULimit(c) then 1 else 0) + (if NoMemoryLimit(c) then 1 else 0)
    ensures forall f :: f in r ==> f.severity == Info && f.subject == c.name
    ensures c.limits.None? ==> r == [Finding(Info, "NoCPULimit", c.name), Finding(Info, "NoMemoryLimit", c.name)]
  {
    (if NoCPULimit(c) then [Finding(Info, "NoCPULimit", c.name)] else [])
    + (if NoMemoryLimit(c) then [Finding(Info, "NoMemoryLimit", c.name)] else [])
  }

  function AllStatusFindings(statuses: seq<ContainerStatus>, threshold: int): seq<Finding> {
    if statuses == [] then []
    else AllStatusFindings(statuses[..|statuses| - 1], threshold) + StatusFindings(statuses[|statuses| - 1], threshold)
  }

  function AllConditionFindings(conds: seq<Condition>, podName: string): seq<Finding> {
    if conds == [] then []
    else AllConditionFindings(conds[..|conds| - 1], podName) + ConditionFindings(conds[|conds| - 1], podName)
  }

  function AllLimitFindings(cs: seq<Container>): seq<Finding> {
    if cs == [] then [] else AllLimitFindings(cs[..|cs| - 1]) + LimitFindings(cs[|cs| - 1])
  }

  /** Every finding of a pod: container statuses first, then conditions,
      then limits. */
  function PodFindings(p: Pod, threshold: int): seq<Finding> {
    AllStatusFindings(p.statuses, threshold) + AllConditionFindings(p.conditions, p.name)
    + AllLimitFindings(p.containers)
  }

  /** A container status raises no finding exactly when it is not
      waiting, did not terminate with a non-zero exit code and has not
      restarted more often than the threshold. */
  predicate QuietStatus(cs: ContainerStatus, threshold: int) {
    cs.state.waiting.None?
    && (cs.state.terminated.None? || cs.state.terminated.value.exitCode == 0)
    && cs.restartCount <= threshold
  }

  /** A condition raises no finding unless it is a False PodScheduled or
      Ready condition. */
  predicate QuietCondition(cond: Condition) {
    !(cond.status == "False" && (cond.kind == "PodScheduled" || cond.kind == "Ready"))
  }

  /** A container raises no finding exactly when it has a non-zero CPU and
      a non-zero memory limit. */
  predicate QuietContainer(c: Container) {
    !NoCPULimit(c) && !NoMemoryLimit(c)
  }

  lemma {:induction false} StatusFindingsEmpty(statuses: seq<ContainerStatus>, threshold: int)
    ensures AllStatusFindings(statuses, threshold) == [] <==>
      forall i :: 0 <= i < |statuses| ==> QuietStatus(statuses[i], threshold)
  {
    if statuses != [] {
      var init := statuses[..|statuses| - 1];
      StatusFindingsEmpty(init, threshold);
      assert forall i :: 0 <= i < |init| ==> init[i] == statuses[i];
    }
  }

  lemma {:induction false} ConditionFindingsEmpty(conds: seq<Condition>, podName: string)
    ensures AllConditionFindings(conds, podName) == [] <==>
      forall i :: 0 <= i < |conds| ==> QuietCondition(conds[i])
  {
    if conds != [] {
      var init := conds[..|conds| - 1];
      ConditionFindingsEmpty(init, podName);
      assert forall i :: 0 <= i < |init| ==> init[i] == conds[i];
    }
  }

  lemma {:induction false} LimitFindingsEmpty(cs: seq<Container>)
    ensures AllLimitFindings(cs) == [] <==> forall i :: 0 <= i < |cs| ==> QuietContainer(cs[i])
  {
    if cs != [] {
      var init := cs[..|cs| - 1];
      LimitFindingsEmpty(init);
      assert forall i :: 0 <= i < |init| ==> init[i] == cs[i];
    }
  }

  /** A pod has no issues exactly when every container status, every
      condition and every container is quiet. */
  lemma NoIssues(p: Pod, threshold: int)
    ensures PodFindings(p, threshold) == [] <==>
      (forall i :: 0 <= i < |p.statuses| ==> QuietStatus(p.statuses[i], threshold))
      && (forall i :: 0 <= i < |p.conditions| ==> QuietCondition(p.conditions[i]))
      && (forall i :: 0 <= i < |p.containers| ==> QuietContainer(p.containers[i]))
  {
    StatusFindingsEmpty(p.statuses, threshold);
    ConditionFindingsEmpty(p.conditions, p.name);
    LimitFindingsEmpty(p.containers);
  }

  datatype Action = IncreaseMemory(container: string) | CheckImage(container: string)
                  | CheckLogs(container: string) | CheckCapacity

  datatype NumberedAction = NumberedAction(num: nat, action: Action)

  /** One memory action per spec container with limits that has the name of
      a container last killed for running out of memory. */
  function MemoryActions(cs: ContainerStatus, containers: seq<Container>): seq<Action> {
    if cs.lastTerminated.Some? && cs.lastTerminated.value.reason == OOMKilled then
      MatchingWithLimits(containers, cs.name)
    else []
  }

  function MatchingWithLimits(containers: seq<Container>, name: string): (r: seq<Action>)
    ensures forall a :: a in r ==> a == IncreaseMemory(name)
  {
    if containers == [] then []
    else MatchingWithLimits(containers[..|containers| - 1], name)
         + (var c := containers[|containers| - 1];
            if c.name == name && c.limits.Some? then [IncreaseMemory(c.name)] else [])
  }

  function WaitingActions(cs: ContainerStatus): seq<Action> {
    match cs.state.waiting
    case None => []
    case Some(reason) =>
      if IsPullFailure(reason) then [CheckImage(cs.name)]
      else if reason == CrashLoopBackOff then [CheckLogs(cs.name)]
      else []
  }

  function StatusActions(statuses: seq<ContainerStatus>, containers: seq<Container>): seq<Action> {
    if statuses == [] then []
    else
      var last := statuses[|statuses| - 1];
      StatusActions(statuses[..|statuses| - 1], containers) + MemoryActions(last, containers) + WaitingActions(last)
  }

  /** The suggested actions for a pod, in the order they are printed. */
  function PodActions(p: Pod): seq<Action> {
    StatusActions(p.statuses, p.containers) + (if p.phase == Pending then [CheckCapacity] else [])
  }

  /** Statuses that are not waiting only ever suggest more memory. */
  lemma {:induction false} StatusActionsMemoryOnly(statuses: seq<ContainerStatus>, containers: seq<Container>)
    requires forall i :: 0 <= i < |statuses| ==> statuses[i].state.waiting.None?
    ensures forall a :: a in StatusActions(statuses, containers) ==> a.IncreaseMemory?
  {
    if statuses != [] {
      var init := statuses[..|statuses| - 1];
      assert forall i :: 0 <= i < |init| ==> init[i] == statuses[i];
      StatusActionsMemoryOnly(init, containers);
    }
  }

  /** A running pod that counts as healthy is never told to check its
      image, its logs or the cluster's capacity; at most it is told to
      raise a memory limit. */
  lemma HealthyPodActions(p: Pod)
    requires p.phase == Running && IsPodHealthy(p)
    ensures forall a :: a in PodActions(p) ==> a.IncreaseMemory?
  {
    StatusActionsMemoryOnly(p.statuses, p.containers);
  }

  datatype PodReport = PodReport(
    status: string,
    restarts: int,
    findings: seq<Finding>,
    noIssues: bool,
    warningEvents: Option<nat>,
    actions: seq<NumberedAction>,
    noActions: bool)

  predicate IsWarning(e: Event) { e.kind == "Warning" }

  /** The loop that raises the findings of the container statuses. */
  method CheckStatuses(statuses: seq<ContainerStatus>, threshold: int) returns (fs: seq<Finding>)
    ensures fs == AllStatusFindings(statuses, threshold)
  {
    fs := [];
    for i := 0 to |statuses|
      invariant fs == AllStatusFindings(statuses[..i], threshold)
    {
      assert statuses[..i + 1][..i] == statuses[..i];
      var cs := statuses[i];
      var raised: seq<Finding> := [];
      if cs.state.waiting.Some? {
        var reason := cs.state.waiting.value;
        if reason == CrashLoopBackOff {
          raised := [Finding(Critical, CrashLoopBackOff, cs.name)];
        } else if reason == ImagePullBackOff || reason == ErrImagePull {
          raised := [Finding(Critical, "ImagePull", cs.name)];
        } else {
          raised := [Finding(Warning, "Waiting", cs.name)];
        }
      }
      if cs.state.terminated.Some? && cs.state.terminated.value.exitCode != 0 {
        raised := raised + [Finding(Warning, "ExitCode", cs.name)];
      }
      if cs.restartCount > threshold {
        raised := raised + [Finding(Warning, "HighRestarts", cs.name)];
      }
      assert raised == StatusFindings(cs, threshold);
      fs := fs + raised;
    }
    assert statuses[..|statuses|] == statuses;
  }

  /** The loops that raise the findings of the conditions and the limits. */
  method CheckConditionsAndLimits(p: Pod) returns (fs: seq<Finding>)
    ensures fs == AllConditionFindings(p.conditions, p.name) + AllLimitFindings(p.containers)
  {
    var condFs := CheckPodConditions(p);
    var limitFs := CheckContainerLimits(p.containers);
    fs := condFs + limitFs;
  }

  /** The loop over the pod's conditions. */
  method CheckPodConditions(p: Pod) returns (fs: seq<Finding>)
    ensures fs == AllConditionFindings(p.conditions, p.name)
  {
    fs := [];
    for i := 0 to |p.conditions|
      invariant fs == AllConditionFindings(p.conditions[..i], p.name)
    {
      assert p.conditions[..i + 1][..i] == p.conditions[..i];
      var cond := p.conditions[i];
      var raised: seq<Finding> := [];
      if cond.status == "False" && cond.kind == "PodScheduled" {
        raised := [Finding(Critical, "NotScheduled", p.name)];
      }
      if cond.status == "False" && cond.kind == "Ready" {
        raised := raised + [Finding(Warning, "NotReady", p.name)];
      }
      assert raised == ConditionFindings(cond, p.name);
      fs := fs + raised;
    }
    assert p.conditions[..|p.conditions|] == p.conditions;
  }

  /** The loop over the containers' limits. */
  method CheckContainerLimits(containers: seq<Container>) returns (fs: seq<Finding>)
    ensures fs == AllLimitFindings(containers)
  {
    fs := [];
    for i := 0 to |containers|
      invariant fs == AllLimitFindings(containers[..i])
    {
      assert containers[..i + 1][..i] == containers[..i];
      var c := containers[i];
      var raised: seq<Finding> := [];
      if c.limits.None? || c.limits.value.cpuMillis == 0 {
        raised := [Finding(Info, "NoCPULimit", c.name)];
      }
      if c.limits.None? || c.limits.value.memBytes == 0 {
        raised := raised + [Finding(Info, "NoMemoryLimit", c.name)];
      }
      assert raised == LimitFindings(c);
      fs := fs + raised;
    }
    assert containers[..|containers|] == containers;
  }

  /** The inner loop that suggests more memory for an out-of-memory kill. */
  method SuggestMemory(cs: ContainerStatus, containers: seq<Container>) returns (suggested: seq<Action>)
    ensures suggested == MemoryActions(cs, containers)
  {
    suggested := [];
    if cs.lastTerminated.Some? && cs.lastTerminated.value.reason == OOMKilled {
      for j := 0 to |containers|
        invariant suggested == MatchingWithLimits(containers[..j], cs.name)
      {
        assert containers[..j + 1][..j] == containers[..j];
        var c := containers[j];
        if c.name == cs.name && c.limits.Some? {
          suggested := suggested + [IncreaseMemory(c.name)];
        }
      }
      assert containers[..|containers|] == containers;
    }
  }

  /** The loops that collect the suggested actions. */
  method CollectActions(p: Pod) returns (actions: seq<Action>)
    ensures actions == PodActions(p)
  {
    actions := [];
    for i := 0 to |p.statuses|
      invariant actions == StatusActions(p.statuses[..i], p.containers)
    {
      assert p.statuses[..i + 1][..i] == p.statuses[..i];
      var cs := p.statuses[i];
      var suggested := SuggestMemory(cs, p.containers);
      if cs.state.waiting.Some? {
        var reason := cs.state.waiting.value;
        if reason == ImagePullBackOff || reason == ErrImagePull {
          suggested := suggested + [CheckImage(cs.name)];
        } else if reason == CrashLoopBackOff {
          suggested := suggested + [CheckLogs(cs.name)];
        }
      }
      assert suggested == MemoryActions(cs, p.containers) + WaitingActions(cs);
      actions := actions + suggested;
    }
    assert p.statuses[..|p.statuses|] == p.statuses;
    if p.phase == Pending {
      actions := actions + [CheckCapacity];
    }
  }

  /** Numbers the actions consecutively from 1, as they are printed. */
  method NumberActions(actions: seq<Action>) returns (numbered: seq<NumberedAction>, next: nat)
    ensures |numbered| == |actions|
    ensures forall k :: 0 <= k < |numbered| ==> numbered[k] == NumberedAction(k + 1, actions[k])
    ensures next == |actions| + 1
  {
    numbered := [];
    next := 1;
    for i := 0 to |actions|
      invariant next == i + 1 && |numbered| == i
      invariant forall k :: 0 <= k < i ==> numbered[k] == NumberedAction(k + 1, actions[k])
    {
      numbered := numbered + [NumberedAction(next, actions[i])];
      next := next + 1;
    }
  }

  /** The diagnosis of one pod: its status word and restarts, its findings
      in check order, the "no issues" note exactly when there are none, the
      number of warning events among the object's events (absent when they
      could not be listed; they raise no finding), and the suggested
      actions numbered from 1 with the "no actions" note exactly when there
      are none. */
  method DiagnosePod(p: Pod, threshold: int, events: Result<seq<Event>>) returns (r: PodReport)
    ensures r.status == PodPhaseReason(p) && r.restarts == RestartsOf(p)
    ensures r.findings == PodFindings(p, threshold)
    ensures r.noIssues <==> r.findings == []
    ensures events.Err? ==> r.warningEvents.None?
    ensures events.Ok? ==> r.warningEvents == Some(|Filter(events.value, IsWarning)|)
    ensures |r.actions| == |PodActions(p)|
    ensures forall k :: 0 <= k < |r.actions| ==> r.actions[k] == NumberedAction(k + 1, PodActions(p)[k])
    ensures r.noActions <==> r.actions == []
  {
    var summary := PodContainerSummary(p);
    var statusFs := CheckStatuses(p.statuses, threshold);
    var otherFs := CheckConditionsAndLimits(p);
    var findings := statusFs + otherFs;
    var warningEvents := CountFetched(events, IsWarning);
    var actions := CollectActions(p);
    var numbered, actionNum := NumberActions(actions);
    r := PodReport(PodPhaseReason(p), summary.restarts, findings, |findings| == 0, warningEvents,
                   numbered, actionNum == 1);
  }

  // ---------------------------------------------------------------------------
  // diagnose_namespace
  // ---------------------------------------------------------------------------

  const OneHour: int := 3600

  /** A deployment is failing when fewer replicas are available than
      desired; an unset desired count is 0. */
  predicate IsFailing(d: Deployment) {
    d.availableReplicas < (match d.replicas case Some(n) => n case None => 0)
  }

  /** A warning event that happened strictly after an hour before `now`
      (timestamps in seconds). */
  predicate IsRecentWarning(e: Event, now: int) {
    e.kind == "Warning" && EffectiveTime(e) > now - OneHour
  }

  predicate IsPending(pvc: PersistentVolumeClaim) { pvc.phase != "Bound" }

  datatype NamespaceReport = NamespaceReport(
    total: nat,
    unhealthy: nat,
    highRestarts: nat,
    failingDeployments: Option<nat>,
    recentWarnings: Option<nat>,
    pendingPVCs: Option<nat>,
    findings: seq<Finding>)

  /** The findings of a namespace: one per kind of problem that occurs,
      in the order the checks run. */
  function NamespaceFindings(ns: string, unhealthy: nat, highRestarts: nat, failing: Option<nat>,
                             warnings: Option<nat>, pending: Option<nat>): (r: seq<Finding>)
    ensures |r| == (if unhealthy > 0 then 1 else 0) + (if highRestarts > 0 then 1 else 0)
      + (if failing.Some? && failing.value > 0 then 1 else 0)
      + (if warnings.Some? && warnings.value > 0 then 1 else 0)
      + (if pending.Some? && pending.value > 0 then 1 else 0)
    ensures r == [] <==> (unhealthy == 0 && highRestarts == 0 && (failing.None? || failing.value == 0)
      && (warnings.None? || warnings.value == 0) && (pending.None? || pending.value == 0))
  {
    (if unhealthy > 0 then [Finding(Critical, "UnhealthyPods", ns)] else [])
    + (if highRestarts > 0 then [Finding(Warning, "HighRestarts", ns)] else [])
    + (if failing.Some? && failing.value > 0 then [Finding(Warning, "FailingDeployments", ns)] else [])
    + (if warnings.Some? && warnings.value > 0 then [Finding(Warning, "WarningEvents", ns)] else [])
    + (if pending.Some? && pending.value > 0 then [Finding(Warning, "PendingPVCs", ns)] else [])
  }

  /** Counts the elements of `s` that satisfy `f`. */
  method CountMatching<T(!new)>(s: seq<T>, f: T -> bool) returns (n: nat)
    ensures n == |Filter(s, f)|
  {
    n := 0;
    for i := 0 to |s|
      invariant n == |Filter(s[..i], f)|
    {
      FilterSnoc(s[..i], s[i], f);
      assert s[..i + 1] == s[..i] + [s[i]];
      if f(s[i]) {
        n := n + 1;
      }
    }
    assert s[..|s|] == s;
  }

  /** Counts a fetched list, or nothing when the fetch failed (the check is
      then skipped). */
  method CountFetched<T(!new)>(fetched: Result<seq<T>>, f: T -> bool) returns (n: Option<nat>)
    ensures fetched.Err? ==> n.None?
    ensures fetched.Ok? ==> n == Some(|Filter(fetched.value, f)|)
  {
    if fetched.Err? {
      return None;
    }
    var count := CountMatching(fetched.value, f);
    n := Some(count);
  }

  /** The diagnosis of a namespace. Failing to list pods is an error; a
      failed deployment, event or claim listing skips that check. */
  method DiagnoseNamespace(ns: string, pods: Result<seq<Pod>>, deployments: Result<seq<Deployment>>,
                           events: Result<seq<Event>>, pvcs: Result<seq<PersistentVolumeClaim>>,
                           now: int, threshold: int)
    returns (r: Result<NamespaceReport>)
    ensures pods.Err? ==> r == Err(pods.error)
    ensures pods.Ok? ==> r.Ok?
    ensures pods.Ok? ==> r.value.total == |pods.value|
    ensures pods.Ok? ==> r.value.unhealthy == |Unhealthy(pods.value)|
    ensures pods.Ok? ==> r.value.highRestarts == |Filter(pods.value, p => RestartsOf(p) > threshold)|
    ensures pods.Ok? ==> r.value.failingDeployments == (if deployments.Err? then None else Some(|Filter(deployments.value, IsFailing)|))
    ensures pods.Ok? ==> r.value.recentWarnings == (if events.Err? then None else Some(|Filter(events.value, e => IsRecentWarning(e, now))|))
    ensures pods.Ok? ==> r.value.pendingPVCs == (if pvcs.Err? then None else Some(|Filter(pvcs.value, IsPending)|))
    ensures pods.Ok? ==> r.value.findings == NamespaceFindings(ns, r.value.unhealthy, r.value.highRestarts,
      r.value.failingDeployments, r.value.recentWarnings, r.value.pendingPVCs)
  {
    if pods.Err? {
      return Err(pods.error);
    }
    var ps := pods.value;
    var unhealthy := 0;
    var highRestarts := 0;
    for i := 0 to |ps|
      invariant unhealthy == |Unhealthy(ps[..i])|
      invariant highRestarts == |Filter(ps[..i], p => RestartsOf(p) > threshold)|
    {
      FilterSnoc(ps[..i], ps[i], p => !IsPodHealthy(p));
      FilterSnoc(ps[..i], ps[i], p => RestartsOf(p) > threshold);
      assert ps[..i + 1] == ps[..i] + [ps[i]];
      if !IsPodHealthy(ps[i]) {
        unhealthy := unhealthy + 1;
      }
      var summary := PodContainerSummary(ps[i]);
      if summary.restarts > threshold {
        highRestarts := highRestarts + 1;
      }
    }
    assert ps[..|ps|] == ps;
    var failing := CountFetched(deployments, IsFailing);
    var warnings := CountFetched(events, e => IsRecentWarning(e, now));
    var pending := CountFetched(pvcs, IsPending);
    var findings := NamespaceFindings(ns, unhealthy, highRestarts, failing, warnings, pending);
    r := Ok(NamespaceReport(|ps|, unhealthy, highRestarts, failing, warnings, pending, findings));
  }
}
