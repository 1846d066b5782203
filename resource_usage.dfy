/** The resource-usage analysis of a namespace: every active pod's summed
    requests and limits set against its measured usage, one category per
    pod, counters per category, namespace totals and the findings each
    category raises. Also the helpers the other resource analyses share:
    the active-pod test, per-pod request and limit sums, the usage lookup
    built from pod metrics, and name truncation for table cells.

    Percentages of a limit or a request are compared by cross-multiplying
    (`100 * usage > 90 * limit` for "above 90% of the limit"). */
module ResourceUsage {
  import opened Wrappers
  import opened Resources
  import opened Metrics
  import opened Seqs

  // ---------------------------------------------------------------------------
  // Shared helpers
  // ---------------------------------------------------------------------------

  /** Pods that have completed, successfully or not, are not analysed. */
  predicate Active(p: Pod) {
    p.phase != Succeeded && p.phase != Failed
  }

  const Zero: ResourceList := ResourceList(0, 0)

  function Plus(a: ResourceList, b: ResourceList): (r: ResourceList)
    ensures r.cpuMillis == a.cpuMillis + b.cpuMillis && r.memBytes == a.memBytes + b.memBytes
  {
    ResourceList(a.cpuMillis + b.cpuMillis, a.memBytes + b.memBytes)
  }

  /** A container's requests, zero when it declares none. */
  function RequestsOf(c: Container): ResourceList {
    if c.requests.Some? then c.requests.value else Zero
  }

  function LimitsOf(c: Container): ResourceList {
    if c.limits.Some? then c.limits.value else Zero
  }

  /** The requests of all containers of a pod, added up. */
  function RequestTotals(cs: seq<Container>): ResourceList {
    if cs == [] then Zero else Plus(RequestTotals(cs[..|cs| - 1]), RequestsOf(cs[|cs| - 1]))
  }

  function LimitTotals(cs: seq<Container>): ResourceList {
    if cs == [] then Zero else Plus(LimitTotals(cs[..|cs| - 1]), LimitsOf(cs[|cs| - 1]))
  }

  /** Containers without requests add nothing, so a pod's requests are the
      sum over the containers that declare them. */
  lemma {:induction false} RequestTotalsNonNegative(cs: seq<Container>)
    requires forall i :: 0 <= i < |cs| ==> RequestsOf(cs[i]).cpuMillis >= 0 && RequestsOf(cs[i]).memBytes >= 0
    ensures RequestTotals(cs).cpuMillis >= 0 && RequestTotals(cs).memBytes >= 0
  {
    if cs != [] {
      RequestTotalsNonNegative(cs[..|cs| - 1]);
    }
  }

  /** The summed requests and limits of a pod, one container at a time. */
  method SumContainers(cs: seq<Container>) returns (requests: ResourceList, limits: ResourceList)
    ensures requests == RequestTotals(cs)
    ensures limits == LimitTotals(cs)
  {
    var cpuReq, memReq, cpuLim, memLim := 0, 0, 0, 0;
    for i := 0 to |cs|
      invariant ResourceList(cpuReq, memReq) == RequestTotals(cs[..i])
      invariant ResourceList(cpuLim, memLim) == LimitTotals(cs[..i])
    {
      assert cs[..i + 1][..i] == cs[..i];
      if cs[i].requests.Some? {
        cpuReq := cpuReq + cs[i].requests.value.cpuMillis;
        memReq := memReq + cs[i].requests.value.memBytes;
      }
      if cs[i].limits.Some? {
        cpuLim := cpuLim + cs[i].limits.value.cpuMillis;
        memLim := memLim + cs[i].limits.value.memBytes;
      }
    }
    assert cs[..|cs|] == cs;
    requests := ResourceList(cpuReq, memReq);
    limits := ResourceList(cpuLim, memLim);
  }

  /** A pod's measured usage: its containers' CPU and memory added up. */
  function MeasuredOf(pm: PodMetrics): ResourceList {
    ResourceList(CpuSum(pm.containers), MemSum(pm.containers))
  }

  /** The usage lookup: each metrics entry's key to its measured usage, a
      later entry for the same key replacing an earlier one. */
  function UsageLookup(pms: seq<PodMetrics>, key: PodMetrics -> string): map<string, ResourceList> {
    if pms == [] then map[]
    else UsageLookup(pms[..|pms| - 1], key)[key(pms[|pms| - 1]) := MeasuredOf(pms[|pms| - 1])]
  }

  /** The lookup has a key exactly when some entry has it. */
  lemma {:induction false} UsageLookupKeys(pms: seq<PodMetrics>, key: PodMetrics -> string, k: string)
    ensures k in UsageLookup(pms, key) <==> exists j :: 0 <= j < |pms| && key(pms[j]) == k
  {
    if pms != [] {
      var init := pms[..|pms| - 1];
      UsageLookupKeys(init, key, k);
      if key(pms[|pms| - 1]) != k && exists j :: 0 <= j < |pms| && key(pms[j]) == k {
        var j :| 0 <= j < |pms| && key(pms[j]) == k;
        assert init[j] == pms[j];
      }
    }
  }

  /** For a key, the lookup holds the usage of the last entry with it. */
  lemma {:induction false} UsageLookupLast(pms: seq<PodMetrics>, key: PodMetrics -> string, j: int)
    requires 0 <= j < |pms|
    requires forall j' :: j < j' < |pms| ==> key(pms[j']) != key(pms[j])
    ensures key(pms[j]) in UsageLookup(pms, key)
    ensures UsageLookup(pms, key)[key(pms[j])] == MeasuredOf(pms[j])
  {
    if j < |pms| - 1 {
      UsageLookupLast(pms[..|pms| - 1], key, j);
    }
  }

  /** Builds the usage lookup entry by entry. */
  method BuildUsageLookup(pms: seq<PodMetrics>, key: PodMetrics -> string) returns (m: map<string, ResourceList>)
    ensures m == UsageLookup(pms, key)
  {
    m := map[];
    for i := 0 to |pms|
      invariant m == UsageLookup(pms[..i], key)
    {
      assert pms[..i + 1][..i] == pms[..i];
      var u := TotalUsage(pms[i]);
      m := m[key(pms[i]) := ResourceList(u.cpu, u.memory)];
    }
    assert pms[..|pms|] == pms;
  }

  /** Metrics are used only when they could be fetched and are not empty. */
  predicate MetricsAvailable(metrics: Result<seq<PodMetrics>>) {
    metrics.Ok? && |metrics.value| > 0
  }

  function PodName(pm: PodMetrics): string { pm.name }

  /** A name cut to `maxLen` characters; a cut name ends in ".." unless the
      width is under three, when it is the plain prefix. */
  function TruncateName(name: string, maxLen: nat): (r: string)
    ensures |name| <= maxLen ==> r == name
    ensures |name| > maxLen ==> |r| == maxLen
    ensures |name| > maxLen && maxLen >= 3 ==> r[|r| - 2..] == ".." && r[..maxLen - 2] == name[..maxLen - 2]
    ensures |name| > maxLen && maxLen < 3 ==> r == name[..maxLen]
  {
    if |name| <= maxLen then name
    else if maxLen < 3 then name[..maxLen]
    else name[..maxLen - 2] + ".."
  }

  /** Cutting a cut name again changes nothing, and the result is never
      longer than the width or the name. */
  lemma TruncateNameIdempotent(name: string, maxLen: nat)
    ensures TruncateName(TruncateName(name, maxLen), maxLen) == TruncateName(name, maxLen)
    ensures |TruncateName(name, maxLen)| == if |name| <= maxLen then |name| else maxLen
  {
  }

  // ---------------------------------------------------------------------------
  // One pod
  // ---------------------------------------------------------------------------

  /** A pod's summed requests and limits, and its measured usage when the
      metrics have an entry for its name. */
  datatype PodUse = PodUse(name: string, requests: ResourceList, limits: ResourceList, usage: Option<ResourceList>)

  function UseOf(p: Pod, lookup: map<string, ResourceList>): PodUse {
    PodUse(p.name, RequestTotals(p.containers), LimitTotals(p.containers),
      if p.name in lookup then Some(lookup[p.name]) else None)
  }

  /** A CPU or memory limit that sums to zero counts as missing. */
  predicate MissingLimits(a: PodUse) { a.limits.cpuMillis == 0 || a.limits.memBytes == 0 }
  predicate MissingRequests(a: PodUse) { a.requests.cpuMillis == 0 || a.requests.memBytes == 0 }

  /** Usage above `pct` percent of a positive limit. */
  predicate Above(usage: int, limit: int, pct: int) { limit > 0 && 100 * usage > pct * limit }

  /** Usage under 30 percent of a request. */
  predicate UnderThirty(usage: int, request: int) { 100 * usage < 30 * request }

  predicate CpuAbove(a: PodUse, pct: int) {
    a.usage.Some? && Above(a.usage.value.cpuMillis, a.limits.cpuMillis, pct)
  }

  predicate MemAbove(a: PodUse, pct: int) {
    a.usage.Some? && Above(a.usage.value.memBytes, a.limits.memBytes, pct)
  }

  /** Measured, both requests set, and both usages under 30% of them. */
  predicate Overprovisioned(a: PodUse) {
    a.usage.Some? && a.requests.cpuMillis > 0 && a.requests.memBytes > 0
    && UnderThirty(a.usage.value.cpuMillis, a.requests.cpuMillis)
    && UnderThirty(a.usage.value.memBytes, a.requests.memBytes)
  }

  datatype Category = CriticalUse | WarningUse | OverprovisionedUse | MissingLimitsUse | Healthy

  /** The first category that applies, in this order: missing both a limit
      and a request; above 90% of a limit; above 70% of a limit;
      overprovisioned; missing a limit; otherwise healthy. */
  function Categorize(a: PodUse): Category {
    if MissingLimits(a) && MissingRequests(a) then MissingLimitsUse
    else if CpuAbove(a, 90) || MemAbove(a, 90) then CriticalUse
    else if CpuAbove(a, 70) || MemAbove(a, 70) then WarningUse
    else if Overprovisioned(a) then OverprovisionedUse
    else if MissingLimits(a) then MissingLimitsUse
    else Healthy
  }

  /** What each category means, stated per category. */
  lemma CategoryMeaning(a: PodUse)
    ensures Categorize(a) == CriticalUse <==>
      !(MissingLimits(a) && MissingRequests(a)) && (CpuAbove(a, 90) || MemAbove(a, 90))
    ensures Categorize(a) == WarningUse <==>
      !(MissingLimits(a) && MissingRequests(a)) && !CpuAbove(a, 90) && !MemAbove(a, 90)
      && (CpuAbove(a, 70) || MemAbove(a, 70))
    ensures Categorize(a) == MissingLimitsUse ==> MissingLimits(a)
    ensures Categorize(a) == Healthy ==> !MissingLimits(a) && !CpuAbove(a, 70) && !MemAbove(a, 70) && !Overprovisioned(a)
    ensures Categorize(a) == OverprovisionedUse ==> Overprovisioned(a) && !CpuAbove(a, 70) && !MemAbove(a, 70)
  {
  }

  /** Without metrics only the missing-limits test can flag a pod. */
  lemma UnmeasuredCategory(a: PodUse)
    requires a.usage.None?
    ensures Categorize(a) == (if MissingLimits(a) then MissingLimitsUse else Healthy)
  {
  }

  /** More usage against the same requests and limits never takes a pod
      out of the critical category. */
  lemma CriticalStaysCritical(a: PodUse, more: ResourceList)
    requires a.usage.Some? && Categorize(a) == CriticalUse
    requires more.cpuMillis >= a.usage.value.cpuMillis && more.memBytes >= a.usage.value.memBytes
    ensures Categorize(a.(usage := Some(more))) == CriticalUse
  {
  }

  /** The usage tests come before the missing-limits test: a pod that has
      both requests but lacks a limit is reported as missing limits only
      when its usage is neither above 70% of a limit nor overprovisioned. */
  lemma MissingLimitsLast(a: PodUse)
    requires MissingLimits(a) && !MissingRequests(a)
    ensures Categorize(a) == MissingLimitsUse <==> !CpuAbove(a, 70) && !MemAbove(a, 70) && !Overprovisioned(a)
    ensures CpuAbove(a, 90) || MemAbove(a, 90) ==> Categorize(a) == CriticalUse
  {
  }

  /** The findings a pod's category raises: one per resource above the
      threshold for the two usage categories, one otherwise, none for a
      healthy pod. */
  function UseFindings(a: PodUse): (r: seq<Finding>) {
    match Categorize(a)
    case CriticalUse =>
      (if CpuAbove(a, 90) then [Finding(Critical, "CPUNearLimit", a.name)] else [])
      + (if MemAbove(a, 90) then [Finding(Critical, "MemoryNearLimit", a.name)] else [])
    case WarningUse =>
      (if CpuAbove(a, 70) then [Finding(Warning, "CPUHighUsage", a.name)] else [])
      + (if MemAbove(a, 70) then [Finding(Warning, "MemoryHighUsage", a.name)] else [])
    case OverprovisionedUse => [Finding(Info, "Overprovisioned", a.name)]
    case MissingLimitsUse => [Finding(Warning, "MissingLimits", a.name)]
    case Healthy => []
  }

  /** A pod raises a finding exactly when it is not healthy, and a critical
      finding exactly when it is critical. */
  lemma UseFindingsMeaning(a: PodUse)
    ensures UseFindings(a) == [] <==> Categorize(a) == Healthy
    ensures (exists f :: f in UseFindings(a) && f.severity == Critical) <==> Categorize(a) == CriticalUse
    ensures |UseFindings(a)| <= 2
  {
    if Categorize(a) == CriticalUse {
      assert UseFindings(a)[0].severity == Critical;
    }
  }

  // ---------------------------------------------------------------------------
  // The namespace
  // ---------------------------------------------------------------------------

  datatype Analysis = Analysis(use: PodUse, category: Category)

  function Analyze(p: Pod, lookup: map<string, ResourceList>): Analysis {
    var a := UseOf(p, lookup);
    Analysis(a, Categorize(a))
  }

  /** One analysis per active pod, in listing order. */
  function Analyses(pods: seq<Pod>, lookup: map<string, ResourceList>): (r: seq<Analysis>)
    ensures |r| <= |pods|
  {
    if pods == [] then []
    else
      var p := pods[|pods| - 1];
      Analyses(pods[..|pods| - 1], lookup) + (if Active(p) then [Analyze(p, lookup)] else [])
  }

  function CountCategory(rs: seq<Analysis>, c: Category): nat {
    if rs == [] then 0
    else CountCategory(rs[..|rs| - 1], c) + (if rs[|rs| - 1].category == c then 1 else 0)
  }

  /** Usage counts as zero for a pod without metrics. */
  function UsageOr0(a: PodUse): ResourceList {
    if a.usage.Some? then a.usage.value else Zero
  }

  function RequestsTotal(rs: seq<Analysis>): ResourceList {
    if rs == [] then Zero else Plus(RequestsTotal(rs[..|rs| - 1]), rs[|rs| - 1].use.requests)
  }

  function LimitsTotal(rs: seq<Analysis>): ResourceList {
    if rs == [] then Zero else Plus(LimitsTotal(rs[..|rs| - 1]), rs[|rs| - 1].use.limits)
  }

  function UsageTotal(rs: seq<Analysis>): ResourceList {
    if rs == [] then Zero else Plus(UsageTotal(rs[..|rs| - 1]), UsageOr0(rs[|rs| - 1].use))
  }

  function AllUseFindings(rs: seq<Analysis>): seq<Finding> {
    if rs == [] then [] else AllUseFindings(rs[..|rs| - 1]) + UseFindings(rs[|rs| - 1].use)
  }

  /** The report: whether metrics were used, the per-pod analyses, the
      counters of the four flagged categories, the namespace totals of
      requests, limits and measured usage, and the findings. */
  datatype UsageReport = UsageReport(
    metricsAvailable: bool,
    analyses: seq<Analysis>,
    critical: nat,
    warning: nat,
    overprovisioned: nat,
    missingLimits: nat,
    requests: ResourceList,
    limits: ResourceList,
    usage: ResourceList,
    findings: seq<Finding>)

  /** The lookup the analysis uses: by pod name, empty without metrics. */
  function LookupFor(metrics: Result<seq<PodMetrics>>): map<string, ResourceList> {
    if MetricsAvailable(metrics) then UsageLookup(metrics.value, PodName) else map[]
  }

  /** The analysis of one pod and the findings it raises. */
  method AnalyzePod(p: Pod, lookup: map<string, ResourceList>) returns (an: Analysis, fs: seq<Finding>)
    ensures an == Analyze(p, lookup)
    ensures fs == UseFindings(an.use)
  {
    var requests, limits := SumContainers(p.containers);
    var usage := if p.name in lookup then Some(lookup[p.name]) else None;
    var a := PodUse(p.name, requests, limits, usage);
    var c := Categorize(a);
    an := Analysis(a, c);
    fs := [];
    match c {
      case CriticalUse =>
        if CpuAbove(a, 90) { fs := fs + [Finding(Critical, "CPUNearLimit", a.name)]; }
        if MemAbove(a, 90) { fs := fs + [Finding(Critical, "MemoryNearLimit", a.name)]; }
      case WarningUse =>
        if CpuAbove(a, 70) { fs := fs + [Finding(Warning, "CPUHighUsage", a.name)]; }
        if MemAbove(a, 70) { fs := fs + [Finding(Warning, "MemoryHighUsage", a.name)]; }
      case OverprovisionedUse =>
        fs := [Finding(Info, "Overprovisioned", a.name)];
      case MissingLimitsUse =>
        fs := [Finding(Warning, "MissingLimits", a.name)];
      case Healthy =>
    }
  }

  lemma AnalysesStep(pods: seq<Pod>, i: int, lookup: map<string, ResourceList>)
    requires 0 <= i < |pods|
    ensures Analyses(pods[..i + 1], lookup)
      == Analyses(pods[..i], lookup) + (if Active(pods[i]) then [Analyze(pods[i], lookup)] else [])
  {
    assert pods[..i + 1][..i] == pods[..i];
  }

  /** The running counters of the analysis: the four flagged categories,
      the namespace totals and the findings so far. */
  datatype Tally = Tally(
    critical: nat,
    warning: nat,
    overprovisioned: nat,
    missingLimits: nat,
    requests: ResourceList,
    limits: ResourceList,
    usage: ResourceList,
    findings: seq<Finding>)

  const NoTally: Tally := Tally(0, 0, 0, 0, Zero, Zero, Zero, [])

  /** The counters after one more analysed pod. */
  function Tallied(t: Tally, an: Analysis): Tally {
    Tally(
      t.critical + (if an.category == CriticalUse then 1 else 0),
      t.warning + (if an.category == WarningUse then 1 else 0),
      t.overprovisioned + (if an.category == OverprovisionedUse then 1 else 0),
      t.missingLimits + (if an.category == MissingLimitsUse then 1 else 0),
      Plus(t.requests, an.use.requests),
      Plus(t.limits, an.use.limits),
      Plus(t.usage, UsageOr0(an.use)),
      t.findings + UseFindings(an.use))
  }

  function TallyOf(rs: seq<Analysis>): Tally {
    if rs == [] then NoTally else Tallied(TallyOf(rs[..|rs| - 1]), rs[|rs| - 1])
  }

  /** The counters count the categories and add up the pods' figures. */
  lemma {:induction false} TallyMeaning(rs: seq<Analysis>)
    ensures TallyOf(rs).critical == CountCategory(rs, CriticalUse)
    ensures TallyOf(rs).warning == CountCategory(rs, WarningUse)
    ensures TallyOf(rs).overprovisioned == CountCategory(rs, OverprovisionedUse)
    ensures TallyOf(rs).missingLimits == CountCategory(rs, MissingLimitsUse)
    ensures TallyOf(rs).requests == RequestsTotal(rs)
    ensures TallyOf(rs).limits == LimitsTotal(rs)
    ensures TallyOf(rs).usage == UsageTotal(rs)
    ensures TallyOf(rs).findings == AllUseFindings(rs)
  {
    if rs != [] {
      TallyMeaning(rs[..|rs| - 1]);
    }
  }

  /** Counts one analysed pod. */
  method TallyPod(t: Tally, an: Analysis, fs: seq<Finding>) returns (next: Tally)
    requires fs == UseFindings(an.use)
    ensures next == Tallied(t, an)
  {
    var critical, warning, overprovisioned, missing := t.critical, t.warning, t.overprovisioned, t.missingLimits;
    match an.category {
      case CriticalUse => critical := critical + 1;
      case WarningUse => warning := warning + 1;
      case OverprovisionedUse => overprovisioned := overprovisioned + 1;
      case MissingLimitsUse => missing := missing + 1;
      case Healthy =>
    }
    next := Tally(critical, warning, overprovisioned, missing,
      Plus(t.requests, an.use.requests), Plus(t.limits, an.use.limits), Plus(t.usage, UsageOr0(an.use)),
      t.findings + fs);
  }

  /** Analyses the active pods one by one, counting as it goes. */
  method AnalyzeAll(ps: seq<Pod>, lookup: map<string, ResourceList>)
    returns (analyses: seq<Analysis>, tally: Tally)
    ensures analyses == Analyses(ps, lookup)
    ensures tally == TallyOf(analyses)
  {
    analyses := [];
    tally := NoTally;
    for i := 0 to |ps|
      invariant analyses == Analyses(ps[..i], lookup)
      invariant tally == TallyOf(analyses)
    {
      AnalysesStep(ps, i, lookup);
      if Active(ps[i]) {
        var an, fs := AnalyzePod(ps[i], lookup);
        tally := TallyPod(tally, an, fs);
        assert (analyses + [an])[..|analyses|] == analyses;
        analyses := analyses + [an];
      }
    }
    assert ps[..|ps|] == ps;
  }

  /** The analyze_resource_usage report for a namespace: a pod listing
      error is returned; metrics that cannot be fetched or are empty only
      leave every pod unmeasured. */
  method AnalyzeResourceUsage(pods: Result<seq<Pod>>, metrics: Result<seq<PodMetrics>>)
    returns (r: Result<UsageReport>)
    ensures pods.Err? ==> r == Err(pods.error)
    ensures pods.Ok? ==> r.Ok?
    ensures pods.Ok? ==> r.value.metricsAvailable == MetricsAvailable(metrics)
    ensures pods.Ok? ==> r.value.analyses == Analyses(pods.value, LookupFor(metrics))
    ensures pods.Ok? ==> r.value.critical == CountCategory(r.value.analyses, CriticalUse)
    ensures pods.Ok? ==> r.value.warning == CountCategory(r.value.analyses, WarningUse)
    ensures pods.Ok? ==> r.value.overprovisioned == CountCategory(r.value.analyses, OverprovisionedUse)
    ensures pods.Ok? ==> r.value.missingLimits == CountCategory(r.value.analyses, MissingLimitsUse)
    ensures pods.Ok? ==> r.value.requests == RequestsTotal(r.value.analyses)
    ensures pods.Ok? ==> r.value.limits == LimitsTotal(r.value.analyses)
    ensures pods.Ok? ==> r.value.usage == UsageTotal(r.value.analyses)
    ensures pods.Ok? ==> r.value.findings == AllUseFindings(r.value.analyses)
  {
    if pods.Err? {
      return Err(pods.error);
    }
    var available := metrics.Ok? && |metrics.value| > 0;
    var lookup: map<string, ResourceList> := map[];
    if available {
      lookup := BuildUsageLookup(metrics.value, PodName);
    }
    var analyses, tally := AnalyzeAll(pods.value, lookup);
    TallyMeaning(analyses);
    return Ok(UsageReport(available, analyses, tally.critical, tally.warning, tally.overprovisioned,
      tally.missingLimits, tally.requests, tally.limits, tally.usage, tally.findings));
  }

  lemma CountSnoc(rs: seq<Analysis>, an: Analysis, c: Category)
    ensures CountCategory(rs + [an], c) == CountCategory(rs, c) + (if an.category == c then 1 else 0)
  {
    assert (rs + [an])[..|rs|] == rs;
  }

  /** Every analysis is in exactly one category, so the four counters and
      the healthy pods add up to the number of analyses. */
  lemma {:induction false} CategoriesPartition(rs: seq<Analysis>)
    ensures CountCategory(rs, CriticalUse) + CountCategory(rs, WarningUse) + CountCategory(rs, OverprovisionedUse)
      + CountCategory(rs, MissingLimitsUse) + CountCategory(rs, Healthy) == |rs|
  {
    if rs != [] {
      CategoriesPartition(rs[..|rs| - 1]);
    }
  }

  /** One analysis per active pod. */
  lemma {:induction false} AnalysesCount(pods: seq<Pod>, lookup: map<string, ResourceList>)
    ensures |Analyses(pods, lookup)| == |Filter(pods, Active)|
  {
    if pods != [] {
      AnalysesCount(pods[..|pods| - 1], lookup);
    }
  }

  /** The report has no finding exactly when every active pod is healthy. */
  lemma {:induction false} QuietNamespace(rs: seq<Analysis>)
    requires forall k :: 0 <= k < |rs| ==> rs[k].category == Categorize(rs[k].use)
    ensures AllUseFindings(rs) == [] <==> forall k :: 0 <= k < |rs| ==> rs[k].category == Healthy
  {
    if rs != [] {
      var init := rs[..|rs| - 1];
      QuietNamespace(init);
      UseFindingsMeaning(rs[|rs| - 1].use);
    }
  }

  /** Every analysis the report lists pairs a pod with its own category. */
  lemma {:induction false} AnalysesConsistent(pods: seq<Pod>, lookup: map<string, ResourceList>)
    ensures forall k :: 0 <= k < |Analyses(pods, lookup)| ==>
      Analyses(pods, lookup)[k].category == Categorize(Analyses(pods, lookup)[k].use)
  {
    if pods != [] {
      AnalysesConsistent(pods[..|pods| - 1], lookup);
    }
  }
}
