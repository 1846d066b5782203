/** The resource-efficiency analysis: for every active pod its summed
    requests and limits and, with metrics, its measured usage and the part
    of each request it leaves unused (its waste); the pods declaring no
    requests or no limits at all; the totals and the overall waste; the
    right-sizing candidates; and the findings and numbered recommendations
    the totals lead to.

    Metrics are looked up by "namespace/name". Percentages are compared by
    cross-multiplying. */
module ResourceEfficiency {
  import opened Wrappers
  import opened Resources
  import opened Seqs
  import opened ResourceUsage

  // ---------------------------------------------------------------------------
  // One pod
  // ---------------------------------------------------------------------------

  /** The part of a request left unused, never below zero. */
  function Waste(request: int, usage: int): (w: int)
    ensures w >= 0 && w >= request - usage
    ensures w == 0 || w == request - usage
  {
    if request - usage < 0 then 0 else request - usage
  }

  /** The metrics key of a pod. */
  function PodKey(namespace: string, name: string): string {
    namespace + "/" + name
  }

  function MetricsKey(pm: PodMetrics): string { PodKey(pm.namespace, pm.name) }

  /** A pod's requests, limits and, when measured, its usage. */
  datatype PodEfficiency = PodEfficiency(
    name: string,
    namespace: string,
    requests: ResourceList,
    limits: ResourceList,
    usage: Option<ResourceList>)

  function EfficiencyOf(p: Pod, lookup: map<string, ResourceList>): PodEfficiency {
    var key := PodKey(p.namespace, p.name);
    PodEfficiency(p.name, p.namespace, RequestTotals(p.containers), LimitTotals(p.containers),
      if key in lookup then Some(lookup[key]) else None)
  }

  /** A pod has requests when its CPU or its memory requests are positive;
      likewise limits. */
  predicate HasRequests(e: PodEfficiency) { e.requests.cpuMillis > 0 || e.requests.memBytes > 0 }
  predicate HasLimits(e: PodEfficiency) { e.limits.cpuMillis > 0 || e.limits.memBytes > 0 }

  /** The measured usage, zero without metrics. */
  function UsedOf(e: PodEfficiency): ResourceList {
    if e.usage.Some? then e.usage.value else Zero
  }

  /** The per-pod waste, set only for a measured pod. */
  function CpuWaste(e: PodEfficiency): int {
    if e.usage.Some? then Waste(e.requests.cpuMillis, e.usage.value.cpuMillis) else 0
  }

  function MemWaste(e: PodEfficiency): int {
    if e.usage.Some? then Waste(e.requests.memBytes, e.usage.value.memBytes) else 0
  }

  /** Usage under `pct` percent of a positive request. */
  predicate Below(usage: int, request: int, pct: int) {
    request > 0 && 100 * usage < pct * request
  }

  /** A right-sizing candidate: measured, with requests, and using under
      30% of its CPU or of its memory request. */
  predicate Candidate(e: PodEfficiency) {
    e.usage.Some? && HasRequests(e) &&
    (Below(e.usage.value.cpuMillis, e.requests.cpuMillis, 30) || Below(e.usage.value.memBytes, e.requests.memBytes, 30))
  }

  /** A candidate wastes part of the request it under-uses. */
  lemma CandidateWastes(e: PodEfficiency)
    requires Candidate(e)
    ensures CpuWaste(e) > 0 || MemWaste(e) > 0
    ensures Below(UsedOf(e).cpuMillis, e.requests.cpuMillis, 30) ==> CpuWaste(e) > 0
    ensures Below(UsedOf(e).memBytes, e.requests.memBytes, 30) ==> MemWaste(e) > 0
  {
  }

  // ---------------------------------------------------------------------------
  // All pods
  // ---------------------------------------------------------------------------

  /** One record per active pod, in listing order. */
  function Efficiencies(pods: seq<Pod>, lookup: map<string, ResourceList>): (r: seq<PodEfficiency>)
    ensures |r| <= |pods|
  {
    if pods == [] then []
    else
      var p := pods[|pods| - 1];
      Efficiencies(pods[..|pods| - 1], lookup) + (if Active(p) then [EfficiencyOf(p, lookup)] else [])
  }

  function KeyOf(e: PodEfficiency): string { PodKey(e.namespace, e.name) }

  /** The "namespace/name" of every pod without requests, in order. */
  function NoRequests(es: seq<PodEfficiency>): seq<string> {
    if es == [] then []
    else NoRequests(es[..|es| - 1]) + (if HasRequests(es[|es| - 1]) then [] else [KeyOf(es[|es| - 1])])
  }

  function NoLimits(es: seq<PodEfficiency>): seq<string> {
    if es == [] then []
    else NoLimits(es[..|es| - 1]) + (if HasLimits(es[|es| - 1]) then [] else [KeyOf(es[|es| - 1])])
  }

  /** The no-requests list names every pod without requests and nothing
      else, and is empty exactly when every pod has requests. */
  lemma {:induction false} NoRequestsMeaning(es: seq<PodEfficiency>)
    ensures forall i :: 0 <= i < |es| && !HasRequests(es[i]) ==> KeyOf(es[i]) in NoRequests(es)
    ensures forall k :: k in NoRequests(es) ==> exists i :: 0 <= i < |es| && !HasRequests(es[i]) && KeyOf(es[i]) == k
    ensures NoRequests(es) == [] <==> forall i :: 0 <= i < |es| ==> HasRequests(es[i])
  {
    if es != [] {
      var init := es[..|es| - 1];
      NoRequestsMeaning(init);
      assert forall i :: 0 <= i < |init| ==> init[i] == es[i];
    }
  }

  lemma {:induction false} NoLimitsMeaning(es: seq<PodEfficiency>)
    ensures forall i :: 0 <= i < |es| && !HasLimits(es[i]) ==> KeyOf(es[i]) in NoLimits(es)
    ensures forall k :: k in NoLimits(es) ==> exists i :: 0 <= i < |es| && !HasLimits(es[i]) && KeyOf(es[i]) == k
    ensures NoLimits(es) == [] <==> forall i :: 0 <= i < |es| ==> HasLimits(es[i])
  {
    if es != [] {
      var init := es[..|es| - 1];
      NoLimitsMeaning(init);
      assert forall i :: 0 <= i < |init| ==> init[i] == es[i];
    }
  }

  function RequestSum(es: seq<PodEfficiency>): ResourceList {
    if es == [] then Zero else Plus(RequestSum(es[..|es| - 1]), es[|es| - 1].requests)
  }

  function LimitSum(es: seq<PodEfficiency>): ResourceList {
    if es == [] then Zero else Plus(LimitSum(es[..|es| - 1]), es[|es| - 1].limits)
  }

  function UsageSum(es: seq<PodEfficiency>): ResourceList {
    if es == [] then Zero else Plus(UsageSum(es[..|es| - 1]), UsedOf(es[|es| - 1]))
  }

  function CpuWasteSum(es: seq<PodEfficiency>): int {
    if es == [] then 0 else CpuWasteSum(es[..|es| - 1]) + CpuWaste(es[|es| - 1])
  }

  function MemWasteSum(es: seq<PodEfficiency>): int {
    if es == [] then 0 else MemWasteSum(es[..|es| - 1]) + MemWaste(es[|es| - 1])
  }

  /** When every pod is measured, the overall waste is at most the pods'
      wastes added up: the overall figure nets pods using more than they
      request against the others, the per-pod figures never go below zero. */
  lemma {:induction false} TotalWasteBound(es: seq<PodEfficiency>)
    requires forall i :: 0 <= i < |es| ==> es[i].usage.Some?
    ensures Waste(RequestSum(es).cpuMillis, UsageSum(es).cpuMillis) <= CpuWasteSum(es)
    ensures Waste(RequestSum(es).memBytes, UsageSum(es).memBytes) <= MemWasteSum(es)
  {
    if es != [] {
      var init := es[..|es| - 1];
      assert forall i :: 0 <= i < |init| ==> init[i] == es[i];
      TotalWasteBound(init);
    }
  }

  // ---------------------------------------------------------------------------
  // Findings and recommendations
  // ---------------------------------------------------------------------------

  /** The efficiency finding for one resource: a warning under 30% of the
      total request, information under 50%, nothing for a zero request. */
  function EfficiencyFinding(usage: int, request: int, low: string, moderate: string): (fs: seq<Finding>)
    ensures Below(usage, request, 30) ==> fs == [Finding(Warning, low, "")]
    ensures !Below(usage, request, 30) && Below(usage, request, 50) ==> fs == [Finding(Info, moderate, "")]
    ensures !Below(usage, request, 50) ==> fs == []
  {
    if Below(usage, request, 30) then [Finding(Warning, low, "")]
    else if Below(usage, request, 50) then [Finding(Info, moderate, "")]
    else []
  }

  /** The report's findings: one for the pods without requests, one for
      those without limits, then with metrics the CPU and memory
      efficiency findings. */
  function EfficiencyFindings(available: bool, noRequests: seq<string>, noLimits: seq<string>,
                              requests: ResourceList, usage: ResourceList): seq<Finding> {
    (if noRequests != [] then [Finding(Warning, "NoRequests", "")] else [])
    + (if noLimits != [] then [Finding(Warning, "NoLimits", "")] else [])
    + (if available then EfficiencyFinding(usage.cpuMillis, requests.cpuMillis, "CPUEfficiencyLow", "CPUEfficiencyModerate") else [])
    + (if available then EfficiencyFinding(usage.memBytes, requests.memBytes, "MemoryEfficiencyLow", "MemoryEfficiencyModerate") else [])
  }

  /** Efficiency is reported as healthy exactly when every pod has requests
      and limits and, with metrics, both resources are used at 50% or more
      of a positive total request. */
  lemma HealthyEfficiency(available: bool, noRequests: seq<string>, noLimits: seq<string>, requests: ResourceList, usage: ResourceList)
    ensures EfficiencyFindings(available, noRequests, noLimits, requests, usage) == [] <==>
      noRequests == [] && noLimits == [] &&
      (available ==> !Below(usage.cpuMillis, requests.cpuMillis, 50) && !Below(usage.memBytes, requests.memBytes, 50))
  {
  }

  /** A recommendation, as numbered in the report from 1. */
  datatype Recommendation =
    | SetRequests(pods: nat)
    | SetLimits(pods: nat)
    | ReclaimCpu(millis: int)
    | ReclaimMemory(bytes: int)

  function Recommendations(available: bool, noRequests: seq<string>, noLimits: seq<string>,
                           requests: ResourceList, usage: ResourceList): seq<Recommendation> {
    (if noRequests != [] then [SetRequests(|noRequests|)] else [])
    + (if noLimits != [] then [SetLimits(|noLimits|)] else [])
    + (if available && Below(usage.cpuMillis, requests.cpuMillis, 50) then [ReclaimCpu(requests.cpuMillis - usage.cpuMillis)] else [])
    + (if available && Below(usage.memBytes, requests.memBytes, 50) then [ReclaimMemory(requests.memBytes - usage.memBytes)] else [])
  }

  /** Every efficiency finding comes with a recommendation to reclaim a
      positive amount, every list finding with one to set the missing
      values, and there is no recommendation exactly when there is no
      finding. */
  lemma RecommendationsMatchFindings(available: bool, noRequests: seq<string>, noLimits: seq<string>,
                                     requests: ResourceList, usage: ResourceList)
    ensures |Recommendations(available, noRequests, noLimits, requests, usage)| ==
      |EfficiencyFindings(available, noRequests, noLimits, requests, usage)|
    ensures forall r :: r in Recommendations(available, noRequests, noLimits, requests, usage) && r.ReclaimCpu? ==> r.millis > 0
    ensures forall r :: r in Recommendations(available, noRequests, noLimits, requests, usage) && r.ReclaimMemory? ==> r.bytes > 0
  {
  }

  // ---------------------------------------------------------------------------
  // The report
  // ---------------------------------------------------------------------------

  /** The analyze_resource_efficiency report. The overall waste is only
      meaningful, and only shown, when metrics are available. */
  datatype EfficiencyReport = EfficiencyReport(
    metricsAvailable: bool,
    pods: seq<PodEfficiency>,
    noRequests: seq<string>,
    noLimits: seq<string>,
    requests: ResourceList,
    limits: ResourceList,
    usage: ResourceList,
    cpuWaste: int,
    memWaste: int,
    candidates: seq<PodEfficiency>,
    findings: seq<Finding>,
    recommendations: seq<Recommendation>)

  /** The running figures of the pod loop. */
  datatype Figures = Figures(noRequests: seq<string>, noLimits: seq<string>, requests: ResourceList, limits: ResourceList, usage: ResourceList)

  function Counted(t: Figures, e: PodEfficiency): Figures {
    Figures(
      t.noRequests + (if HasRequests(e) then [] else [KeyOf(e)]),
      t.noLimits + (if HasLimits(e) then [] else [KeyOf(e)]),
      Plus(t.requests, e.requests), Plus(t.limits, e.limits), Plus(t.usage, UsedOf(e)))
  }

  function FiguresOf(es: seq<PodEfficiency>): Figures {
    if es == [] then Figures([], [], Zero, Zero, Zero) else Counted(FiguresOf(es[..|es| - 1]), es[|es| - 1])
  }

  lemma {:induction false} FiguresMeaning(es: seq<PodEfficiency>)
    ensures FiguresOf(es) == Figures(NoRequests(es), NoLimits(es), RequestSum(es), LimitSum(es), UsageSum(es))
  {
    if es != [] {
      FiguresMeaning(es[..|es| - 1]);
    }
  }

  lemma EfficienciesStep(pods: seq<Pod>, i: int, lookup: map<string, ResourceList>)
    requires 0 <= i < |pods|
    ensures Efficiencies(pods[..i + 1], lookup) ==
      Efficiencies(pods[..i], lookup) + (if Active(pods[i]) then [EfficiencyOf(pods[i], lookup)] else [])
  {
    assert pods[..i + 1][..i] == pods[..i];
  }

  /** One pod's record: its container sums and the metrics entry under its
      key. */
  method Measure(p: Pod, lookup: map<string, ResourceList>) returns (e: PodEfficiency)
    ensures e == EfficiencyOf(p, lookup)
  {
    var requests, limits := SumContainers(p.containers);
    var key := p.namespace + "/" + p.name;
    e := PodEfficiency(p.name, p.namespace, requests, limits, if key in lookup then Some(lookup[key]) else None);
  }

  /** Counts one pod into the running figures. */
  method Count(t: Figures, e: PodEfficiency) returns (next: Figures)
    ensures next == Counted(t, e)
  {
    var noRequests, noLimits := t.noRequests, t.noLimits;
    if !HasRequests(e) {
      noRequests := noRequests + [e.namespace + "/" + e.name];
    }
    if !HasLimits(e) {
      noLimits := noLimits + [e.namespace + "/" + e.name];
    }
    next := Figures(noRequests, noLimits, Plus(t.requests, e.requests), Plus(t.limits, e.limits), Plus(t.usage, UsedOf(e)));
  }

  /** The pod loop: a record per active pod and the running figures. */
  method Survey(pods: seq<Pod>, lookup: map<string, ResourceList>) returns (es: seq<PodEfficiency>, t: Figures)
    ensures es == Efficiencies(pods, lookup)
    ensures t == FiguresOf(es)
  {
    es := [];
    t := Figures([], [], Zero, Zero, Zero);
    for i := 0 to |pods|
      invariant es == Efficiencies(pods[..i], lookup)
      invariant t == FiguresOf(es)
    {
      EfficienciesStep(pods, i, lookup);
      if Active(pods[i]) {
        var e := Measure(pods[i], lookup);
        t := Count(t, e);
        assert (es + [e])[..|es|] == es;
        es := es + [e];
      }
    }
    assert pods[..|pods|] == pods;
  }

  /** The right-sizing candidates, in order. */
  method CollectCandidates(es: seq<PodEfficiency>) returns (cs: seq<PodEfficiency>)
    ensures cs == Filter(es, Candidate)
  {
    cs := [];
    for i := 0 to |es|
      invariant cs == Filter(es[..i], Candidate)
    {
      assert es[..i + 1] == es[..i] + [es[i]];
      FilterSnoc(es[..i], es[i], Candidate);
      if Candidate(es[i]) {
        cs := cs + [es[i]];
      }
    }
    assert es[..|es|] == es;
  }

  /** The analyze_resource_efficiency report. A pod listing error is
      returned; metrics that cannot be fetched or are empty leave every pod
      unmeasured and the report without waste, candidates or efficiency
      findings. */
  method AnalyzeResourceEfficiency(pods: Result<seq<Pod>>, metrics: Result<seq<PodMetrics>>)
    returns (r: Result<EfficiencyReport>)
    ensures pods.Err? ==> r == Err(pods.error)
    ensures pods.Ok? ==> r.Ok?
    ensures pods.Ok? ==> r.value.metricsAvailable == MetricsAvailable(metrics)
    ensures pods.Ok? ==>
      r.value.pods == Efficiencies(pods.value, if MetricsAvailable(metrics) then UsageLookup(metrics.value, MetricsKey) else map[])
    ensures pods.Ok? ==> r.value.noRequests == NoRequests(r.value.pods) && r.value.noLimits == NoLimits(r.value.pods)
    ensures pods.Ok? ==> r.value.requests == RequestSum(r.value.pods) && r.value.limits == LimitSum(r.value.pods)
    ensures pods.Ok? ==> r.value.usage == UsageSum(r.value.pods)
    ensures pods.Ok? ==> r.value.cpuWaste == Waste(r.value.requests.cpuMillis, r.value.usage.cpuMillis)
    ensures pods.Ok? ==> r.value.memWaste == Waste(r.value.requests.memBytes, r.value.usage.memBytes)
    ensures pods.Ok? ==> r.value.candidates == if r.value.metricsAvailable then Filter(r.value.pods, Candidate) else []
    ensures pods.Ok? ==> r.value.findings == EfficiencyFindings(r.value.metricsAvailable,
      r.value.noRequests, r.value.noLimits, r.value.requests, r.value.usage)
    ensures pods.Ok? ==> r.value.recommendations == Recommendations(r.value.metricsAvailable,
      r.value.noRequests, r.value.noLimits, r.value.requests, r.value.usage)
  {
    if pods.Err? {
      return Err(pods.error);
    }
    var available := metrics.Ok? && |metrics.value| > 0;
    var lookup: map<string, ResourceList> := map[];
    if available {
      lookup := BuildUsageLookup(metrics.value, MetricsKey);
    }
    var es, t := Survey(pods.value, lookup);
    FiguresMeaning(es);
    var candidates: seq<PodEfficiency> := [];
    if available {
      candidates := CollectCandidates(es);
    }
    r := Ok(EfficiencyReport(available, es, t.noRequests, t.noLimits, t.requests, t.limits, t.usage,
      Waste(t.requests.cpuMillis, t.usage.cpuMillis), Waste(t.requests.memBytes, t.usage.memBytes), candidates,
      EfficiencyFindings(available, t.noRequests, t.noLimits, t.requests, t.usage),
      Recommendations(available, t.noRequests, t.noLimits, t.requests, t.usage)));
  }
}
