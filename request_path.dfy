/** The request-path diagnosis: from a host name and path through the
    matching ingress, its backend service, the service's endpoints, the
    backing pods and their resource usage, with the findings raised at each
    layer, the early exits when a layer is missing and the suggested
    actions. */
module RequestPath {
  import opened Wrappers
  import opened StrUtil
  import opened Resources
  import opened Seqs
  import opened Diagnostics
  import opened K8sNetwork
  import opened Composite
  import NetworkTools

  /** A suggested action; each stands for one line of advice. */
  datatype PathAction =
    | CreateIngress(host: string, path: string)
    | ListIngresses
    | ConfigureTLS(host: string)
    | CreateService(service: string, namespace: string)
    | CheckSelectorPods(selector: Labels, namespace: string)
    | DiagnosePodAction(pod: string)
    | AddReadinessProbe(container: string)
    | IncreaseMemoryFor(pod: string, container: string)

  /** What one layer of the path contributes: findings and actions, both in
      the order they are raised. */
  datatype Layer = Layer(findings: seq<Finding>, actions: seq<PathAction>)

  const Quiet: Layer := Layer([], [])

  /** One layer's output followed by the next one's. */
  function Then(a: Layer, b: Layer): (r: Layer)
    ensures r.findings == a.findings + b.findings
    ensures r.actions == a.actions + b.actions
  {
    Layer(a.findings + b.findings, a.actions + b.actions)
  }

  lemma ThenAssoc(a: Layer, b: Layer, c: Layer)
    ensures Then(a, Then(b, c)) == Then(Then(a, b), c)
  {
    assert a.findings + (b.findings + c.findings) == (a.findings + b.findings) + c.findings;
    assert a.actions + (b.actions + c.actions) == (a.actions + b.actions) + c.actions;
  }

  /** The path looked up: "/" when none is given. */
  function DefaultPath(path: string): (r: string)
    ensures path == "" ==> r == "/"
    ensures path != "" ==> r == path
  {
    if path == "" then "/" else path
  }

  /** The items of a listing; a failed listing counts as empty. */
  function Fetched<T>(r: Result<seq<T>>): seq<T> {
    if r.Ok? then r.value else []
  }

  /** The warning events among the fetched events of one object. */
  function WarningCount(events: Result<seq<Event>>): nat {
    |Filter(Fetched(events), IsWarning)|
  }

  // ---------------------------------------------------------------------------
  // [1] Ingress layer
  // ---------------------------------------------------------------------------

  /** Some TLS entry of the ingress lists the host. */
  predicate HasTLSFor(tls: seq<IngressTLS>, host: string) {
    exists t :: t in tls && host in t.hosts
  }

  /** Scans every TLS entry and host name for the requested host. */
  method CheckTLS(tls: seq<IngressTLS>, host: string) returns (has: bool)
    ensures has <==> HasTLSFor(tls, host)
  {
    has := false;
    for i := 0 to |tls|
      invariant has <==> exists t :: t in tls[..i] && host in t.hosts
    {
      assert tls[..i + 1] == tls[..i] + [tls[i]];
      for j := 0 to |tls[i].hosts|
        invariant has <==> (exists t :: t in tls[..i] && host in t.hosts) || host in tls[i].hosts[..j]
      {
        assert tls[i].hosts[..j + 1] == tls[i].hosts[..j] + [tls[i].hosts[j]];
        if tls[i].hosts[j] == host {
          has := true;
        }
      }
      assert tls[i].hosts[..|tls[i].hosts|] == tls[i].hosts;
    }
    assert tls[..|tls|] == tls;
  }

  /** A host without TLS is a warning with the advice to configure it;
      warning events on the ingress are one more warning. */
  function IngressLayer(ing: Ingress, host: string, events: Result<seq<Event>>): Layer {
    Layer(
      (if !HasTLSFor(ing.tls, host) then [Finding(Warning, "NoTLS", host)] else [])
      + (if WarningCount(events) > 0 then [Finding(Warning, "IngressWarningEvents", ing.name)] else []),
      if !HasTLSFor(ing.tls, host) then [ConfigureTLS(host)] else [])
  }

  /** The backend service the matched path names; "" when it names none. */
  function BackendName(m: HostPathMatch): string {
    if m.path.backend.Some? then m.path.backend.value.name else ""
  }

  // ---------------------------------------------------------------------------
  // [2] Service and [3] endpoint layers
  // ---------------------------------------------------------------------------

  function ServiceLayer(name: string, events: Result<seq<Event>>): Layer {
    if WarningCount(events) > 0 then Layer([Finding(Warning, "ServiceWarningEvents", name)], []) else Quiet
  }

  /** Unreadable endpoints and a service without endpoints are critical, the
      latter with the advice to check for pods with the selector's labels;
      endpoints that are not ready are a warning. */
  function EndpointLayer(name: string, svc: Service, ns: string, health: Result<EndpointHealth>): Layer {
    match health
    case Err(_) => Layer([Finding(Critical, "EndpointsUnavailable", name)], [])
    case Ok(h) =>
      if h.totalEndpoints == 0 then
        Layer([Finding(Critical, "NoEndpoints", name)], [CheckSelectorPods(svc.selector, ns)])
      else if h.notReadyCount > 0 then Layer([Finding(Warning, "EndpointsNotReady", name)], [])
      else Quiet
  }

  // ---------------------------------------------------------------------------
  // Pods
  // ---------------------------------------------------------------------------

  /** No limits at all, or zero CPU and zero memory limits. */
  predicate Unlimited(c: Container) {
    c.limits.None? || (c.limits.value.cpuMillis == 0 && c.limits.value.memBytes == 0)
  }

  function Subject(pod: string, container: string): string {
    pod + "/" + container
  }

  /** An informational finding per container without limits. */
  function NoLimitFindings(pod: string, cs: seq<Container>): (r: seq<Finding>)
    ensures |r| <= |cs|
  {
    if cs == [] then []
    else
      var c := cs[|cs| - 1];
      NoLimitFindings(pod, cs[..|cs| - 1])
      + (if Unlimited(c) then [Finding(Info, "NoLimits", Subject(pod, c.name))] else [])
  }

  /** A warning and the advice to add one per container without a readiness
      probe. */
  function ProbeLayer(pod: string, cs: seq<Container>): Layer {
    if cs == [] then Quiet
    else
      var c := cs[|cs| - 1];
      Then(ProbeLayer(pod, cs[..|cs| - 1]),
        if c.hasReadinessProbe then Quiet
        else Layer([Finding(Warning, "NoReadinessProbe", Subject(pod, c.name))], [AddReadinessProbe(c.name)]))
  }

  /** An unhealthy pod is critical with the advice to diagnose it; restarts
      over the threshold are a warning. */
  function PodHeadLayer(p: Pod, threshold: int): Layer {
    Layer(
      (if !IsPodHealthy(p) then [Finding(Critical, "UnhealthyPod", p.name)] else [])
      + (if RestartsOf(p) > threshold then [Finding(Warning, "HighRestarts", p.name)] else []),
      if !IsPodHealthy(p) then [DiagnosePodAction(p.name)] else [])
  }

  /** The pod's own checks, then its containers' limits, then their
      probes. */
  function PodLayer(p: Pod, threshold: int): Layer {
    Then(Then(PodHeadLayer(p, threshold), Layer(NoLimitFindings(p.name, p.containers), [])),
      ProbeLayer(p.name, p.containers))
  }

  function PodsLayer(pods: seq<Pod>, threshold: int): Layer {
    if pods == [] then Quiet
    else Then(PodsLayer(pods[..|pods| - 1], threshold), PodLayer(pods[|pods| - 1], threshold))
  }

  /** The limit and probe checks of the containers of one pod. */
  method ContainerChecks(pod: string, cs: seq<Container>) returns (l: Layer)
    ensures l == Then(Layer(NoLimitFindings(pod, cs), []), ProbeLayer(pod, cs))
  {
    var limits: seq<Finding> := [];
    for i := 0 to |cs|
      invariant limits == NoLimitFindings(pod, cs[..i])
    {
      assert cs[..i + 1][..i] == cs[..i];
      if Unlimited(cs[i]) {
        limits := limits + [Finding(Info, "NoLimits", Subject(pod, cs[i].name))];
      }
    }
    var probes := Quiet;
    for i := 0 to |cs|
      invariant probes == ProbeLayer(pod, cs[..i])
    {
      assert cs[..i + 1][..i] == cs[..i];
      if !cs[i].hasReadinessProbe {
        probes := Then(probes, Layer([Finding(Warning, "NoReadinessProbe", Subject(pod, cs[i].name))], [AddReadinessProbe(cs[i].name)]));
      } else {
        probes := Then(probes, Quiet);
      }
    }
    assert cs[..|cs|] == cs;
    l := Then(Layer(limits, []), probes);
  }

  /** The health and restart checks of one pod. */
  method PodHeadChecks(p: Pod, threshold: int) returns (head: Layer)
    ensures head == PodHeadLayer(p, threshold)
  {
    head := Quiet;
    if !IsPodHealthy(p) {
      head := Layer([Finding(Critical, "UnhealthyPod", p.name)], [DiagnosePodAction(p.name)]);
    }
    if RestartsOf(p) > threshold {
      head := Layer(head.findings + [Finding(Warning, "HighRestarts", p.name)], head.actions);
    }
  }

  /** The health, restart, limit and probe checks of every backing pod. */
  method PodChecks(pods: seq<Pod>, threshold: int) returns (l: Layer)
    ensures l == PodsLayer(pods, threshold)
  {
    l := Quiet;
    for i := 0 to |pods|
      invariant l == PodsLayer(pods[..i], threshold)
    {
      assert pods[..i + 1][..i] == pods[..i];
      var p := pods[i];
      var head := PodHeadChecks(p, threshold);
      var containers := ContainerChecks(p.name, p.containers);
      ThenAssoc(head, Layer(NoLimitFindings(p.name, p.containers), []), ProbeLayer(p.name, p.containers));
      l := Then(l, Then(head, containers));
      assert l == PodsLayer(pods[..i + 1], threshold);
    }
    assert pods[..|pods|] == pods;
  }

  // ---------------------------------------------------------------------------
  // [4] Resource usage
  // ---------------------------------------------------------------------------

  datatype Usage = Usage(cpuMillis: int, memBytes: int)

  /** Container name to usage; a later entry for a name replaces an earlier
      one. */
  function ContainerUsageMap(cms: seq<ContainerUsage>): map<string, Usage> {
    if cms == [] then map[]
    else
      var c := cms[|cms| - 1];
      ContainerUsageMap(cms[..|cms| - 1])[c.name := Usage(c.cpuMillis, c.memBytes)]
  }

  /** Pod name to its containers' usage; a later entry for a name replaces
      an earlier one. */
  function UsageMap(pms: seq<PodMetrics>): map<string, map<string, Usage>> {
    if pms == [] then map[]
    else
      var pm := pms[|pms| - 1];
      UsageMap(pms[..|pms| - 1])[pm.name := ContainerUsageMap(pm.containers)]
  }

  /** The map holds a name exactly when some entry has it, and then the
      usage of the last such entry. */
  lemma {:induction false} UsageMapLast(pms: seq<PodMetrics>, i: int)
    requires 0 <= i < |pms|
    requires forall j :: i < j < |pms| ==> pms[j].name != pms[i].name
    ensures pms[i].name in UsageMap(pms)
    ensures UsageMap(pms)[pms[i].name] == ContainerUsageMap(pms[i].containers)
  {
    if i < |pms| - 1 {
      UsageMapLast(pms[..|pms| - 1], i);
    }
  }

  lemma {:induction false} UsageMapKeys(pms: seq<PodMetrics>)
    ensures forall n :: n in UsageMap(pms) <==> exists j :: 0 <= j < |pms| && pms[j].name == n
  {
    if pms != [] {
      UsageMapKeys(pms[..|pms| - 1]);
      var init := pms[..|pms| - 1];
      forall n | (exists j :: 0 <= j < |pms| && pms[j].name == n)
        ensures n in UsageMap(pms)
      {
        var j :| 0 <= j < |pms| && pms[j].name == n;
        if j < |pms| - 1 {
          assert init[j].name == n;
        }
      }
      forall n | n in UsageMap(pms)
        ensures exists j :: 0 <= j < |pms| && pms[j].name == n
      {
        if n != pms[|pms| - 1].name {
          assert n in UsageMap(init);
          var j :| 0 <= j < |init| && init[j].name == n;
          assert pms[j].name == n;
        }
      }
    }
  }

  /** Builds the usage map in listing order. */
  method BuildUsageMap(pms: seq<PodMetrics>) returns (m: map<string, map<string, Usage>>)
    ensures m == UsageMap(pms)
  {
    m := map[];
    for i := 0 to |pms|
      invariant m == UsageMap(pms[..i])
    {
      assert pms[..i + 1][..i] == pms[..i];
      var cms := pms[i].containers;
      var containers: map<string, Usage> := map[];
      for j := 0 to |cms|
        invariant containers == ContainerUsageMap(cms[..j])
      {
        assert cms[..j + 1][..j] == cms[..j];
        containers := containers[cms[j].name := Usage(cms[j].cpuMillis, cms[j].memBytes)];
      }
      assert cms[..|cms|] == cms;
      m := m[pms[i].name := containers];
    }
    assert pms[..|pms|] == pms;
  }

  /** The limits of a container; zero when it declares none. */
  function LimitOf(c: Container): ResourceList {
    if c.limits.Some? then c.limits.value else ResourceList(0, 0)
  }

  /** CPU and then memory against their limits: saturated is critical, high
      is a warning, and saturated memory adds the advice to raise the
      memory limit. */
  function ContainerUsageLayer(pod: string, c: Container, u: Usage): Layer {
    var cpu := UsageBand(u.cpuMillis, LimitOf(c).cpuMillis);
    var mem := UsageBand(u.memBytes, LimitOf(c).memBytes);
    Layer(
      (match cpu
       case Saturated => [Finding(Critical, "CPU", Subject(pod, c.name))]
       case High => [Finding(Warning, "CPU", Subject(pod, c.name))]
       case Normal => [])
      + (match mem
         case Saturated => [Finding(Critical, "Memory", Subject(pod, c.name))]
         case High => [Finding(Warning, "Memory", Subject(pod, c.name))]
         case Normal => []),
      if mem == Saturated then [IncreaseMemoryFor(pod, c.name)] else [])
  }

  /** The containers of a pod that have usage figures. */
  function ContainersUsageLayer(pod: string, cs: seq<Container>, m: map<string, Usage>): Layer {
    if cs == [] then Quiet
    else
      var c := cs[|cs| - 1];
      Then(ContainersUsageLayer(pod, cs[..|cs| - 1], m),
        if c.name in m then ContainerUsageLayer(pod, c, m[c.name]) else Quiet)
  }

  /** The pods that have usage figures. */
  function UsageLayer(pods: seq<Pod>, um: map<string, map<string, Usage>>): Layer {
    if pods == [] then Quiet
    else
      var p := pods[|pods| - 1];
      Then(UsageLayer(pods[..|pods| - 1], um),
        if p.name in um then ContainersUsageLayer(p.name, p.containers, um[p.name]) else Quiet)
  }

  method ContainersUsageChecks(pod: string, cs: seq<Container>, m: map<string, Usage>) returns (l: Layer)
    ensures l == ContainersUsageLayer(pod, cs, m)
  {
    l := Quiet;
    for i := 0 to |cs|
      invariant l == ContainersUsageLayer(pod, cs[..i], m)
    {
      assert cs[..i + 1][..i] == cs[..i];
      var c := cs[i];
      if c.name !in m {
        l := Then(l, Quiet);
        continue;
      }
      var u := m[c.name];
      var raised: seq<Finding> := [];
      var suggested: seq<PathAction> := [];
      var cpu := UsageBand(u.cpuMillis, LimitOf(c).cpuMillis);
      if cpu == Saturated {
        raised := [Finding(Critical, "CPU", Subject(pod, c.name))];
      } else if cpu == High {
        raised := [Finding(Warning, "CPU", Subject(pod, c.name))];
      }
      var mem := UsageBand(u.memBytes, LimitOf(c).memBytes);
      if mem == Saturated {
        raised := raised + [Finding(Critical, "Memory", Subject(pod, c.name))];
        suggested := [IncreaseMemoryFor(pod, c.name)];
      } else if mem == High {
        raised := raised + [Finding(Warning, "Memory", Subject(pod, c.name))];
      }
      assert Layer(raised, suggested) == ContainerUsageLayer(pod, c, u);
      l := Then(l, Layer(raised, suggested));
    }
    assert cs[..|cs|] == cs;
  }

  /** The usage checks of every backing pod that has figures. */
  method UsageChecks(pods: seq<Pod>, um: map<string, map<string, Usage>>) returns (l: Layer)
    ensures l == UsageLayer(pods, um)
  {
    l := Quiet;
    for i := 0 to |pods|
      invariant l == UsageLayer(pods[..i], um)
    {
      assert pods[..i + 1][..i] == pods[..i];
      var p := pods[i];
      if p.name in um {
        var containers := ContainersUsageChecks(p.name, p.containers, um[p.name]);
        l := Then(l, containers);
      } else {
        l := Then(l, Quiet);
      }
    }
    assert pods[..|pods|] == pods;
  }

  // ---------------------------------------------------------------------------
  // The whole path
  // ---------------------------------------------------------------------------

  /** How far the diagnosis got: it stops when no ingress serves the host
      and path, when the matched path names no backend service, and when
      that service cannot be read. */
  datatype Stage = NoIngress | NoBackend | NoService | Complete

  /** The findings in the order raised, the actions in the order shown
      (the action at position k is numbered k + 1), and whether the path is
      reported healthy. */
  datatype PathReport = PathReport(stage: Stage, findings: seq<Finding>, actions: seq<PathAction>, healthy: bool)

  /** Everything after the service is found: its warning events, its
      endpoints, its backing pods and, when metrics could be read, their
      usage. */
  function DownstreamLayer(
    name: string, svc: Service, ns: string, svcEvents: Result<seq<Event>>, health: Result<EndpointHealth>,
    pods: Result<seq<Pod>>, metrics: Result<seq<PodMetrics>>, threshold: int): Layer
  {
    Then(Then(Then(ServiceLayer(name, svcEvents), EndpointLayer(name, svc, ns, health)),
      PodsLayer(Fetched(pods), threshold)),
      if metrics.Ok? then UsageLayer(Fetched(pods), UsageMap(metrics.value)) else Quiet)
  }

  /** The report for a request. `found` is the ingress lookup, `svc` the
      backend service lookup, `pods` the backing pods, and `metrics` the pod
      metrics of the ingress's namespace. */
  function PathReportOf(
    host: string, path: string, found: Result<HostPathMatch>, ingEvents: Result<seq<Event>>,
    svc: Result<Service>, svcEvents: Result<seq<Event>>, health: Result<EndpointHealth>,
    pods: Result<seq<Pod>>, metrics: Result<seq<PodMetrics>>, threshold: int): PathReport
  {
    if found.Err? then
      PathReport(NoIngress, [Finding(Critical, "NoIngress", host + DefaultPath(path))],
        [CreateIngress(host, DefaultPath(path)), ListIngresses], false)
    else ReportAfterIngress(host, found.value, ingEvents, svc, svcEvents, health, pods, metrics, threshold)
  }

  /** The report once an ingress serves the request. */
  function ReportAfterIngress(
    host: string, m: HostPathMatch, ingEvents: Result<seq<Event>>,
    svc: Result<Service>, svcEvents: Result<seq<Event>>, health: Result<EndpointHealth>,
    pods: Result<seq<Pod>>, metrics: Result<seq<PodMetrics>>, threshold: int): PathReport
  {
    var front := IngressLayer(m.ingress, host, ingEvents);
    var name := BackendName(m);
    if name == "" then
      PathReport(NoBackend, front.findings + [Finding(Critical, "NoBackend", m.ingress.name)], [], false)
    else if svc.Err? then
      PathReport(NoService, front.findings + [Finding(Critical, "ServiceNotFound", name)],
        front.actions + [CreateService(name, m.ingress.namespace)], false)
    else
      CompleteReport(Then(front, DownstreamLayer(name, svc.value, m.ingress.namespace, svcEvents, health, pods, metrics, threshold)))
  }

  /** A report that reached the last layer: the actions each once, and
      healthy exactly when nothing was found. */
  function CompleteReport(all: Layer): PathReport {
    PathReport(Complete, all.findings, Dedup(all.actions), all.findings == [])
  }

  /** The TLS check and the ingress's warning events. */
  method IngressChecks(ing: Ingress, host: string, ingEvents: Result<seq<Event>>) returns (l: Layer)
    ensures l == IngressLayer(ing, host, ingEvents)
  {
    var hasTLS := CheckTLS(ing.tls, host);
    var findings: seq<Finding> := [];
    var actions: seq<PathAction> := [];
    if !hasTLS {
      findings := [Finding(Warning, "NoTLS", host)];
      actions := [ConfigureTLS(host)];
    }
    var ingWarnings := CountMatching(Fetched(ingEvents), IsWarning);
    if ingWarnings > 0 {
      findings := findings + [Finding(Warning, "IngressWarningEvents", ing.name)];
    }
    l := Layer(findings, actions);
  }

  /** The service, endpoint, pod and usage checks in that order. */
  method DownstreamChecks(
    name: string, svc: Service, ns: string, svcEvents: Result<seq<Event>>, health: Result<EndpointHealth>,
    pods: Result<seq<Pod>>, metrics: Result<seq<PodMetrics>>, threshold: int)
    returns (l: Layer)
    ensures l == DownstreamLayer(name, svc, ns, svcEvents, health, pods, metrics, threshold)
  {
    var svcWarnings := CountMatching(Fetched(svcEvents), IsWarning);
    l := Quiet;
    if svcWarnings > 0 {
      l := Layer([Finding(Warning, "ServiceWarningEvents", name)], []);
    }
    assert l == ServiceLayer(name, svcEvents);

    var endpoints := Quiet;
    match health {
      case Err(_) =>
        endpoints := Layer([Finding(Critical, "EndpointsUnavailable", name)], []);
      case Ok(h) =>
        if h.totalEndpoints == 0 {
          endpoints := Layer([Finding(Critical, "NoEndpoints", name)], [CheckSelectorPods(svc.selector, ns)]);
        } else if h.notReadyCount > 0 {
          endpoints := Layer([Finding(Warning, "EndpointsNotReady", name)], []);
        }
    }
    assert endpoints == EndpointLayer(name, svc, ns, health);
    l := Then(l, endpoints);

    var listed := Fetched(pods);
    var podLayer := PodChecks(listed, threshold);
    l := Then(l, podLayer);

    var usage := Quiet;
    if metrics.Ok? {
      var um := BuildUsageMap(metrics.value);
      usage := UsageChecks(listed, um);
    }
    l := Then(l, usage);
  }

  /** Walks the request path layer by layer, stopping at the first layer
      that is missing. */
  method DiagnoseRequestPath(
    host: string, path: string, found: Result<HostPathMatch>, ingEvents: Result<seq<Event>>,
    svc: Result<Service>, svcEvents: Result<seq<Event>>, health: Result<EndpointHealth>,
    pods: Result<seq<Pod>>, metrics: Result<seq<PodMetrics>>, threshold: int)
    returns (r: PathReport)
    ensures r == PathReportOf(host, path, found, ingEvents, svc, svcEvents, health, pods, metrics, threshold)
  {
    var reqPath := path;
    if reqPath == "" {
      reqPath := "/";
    }
    if found.Err? {
      return PathReport(NoIngress, [Finding(Critical, "NoIngress", host + reqPath)],
        [CreateIngress(host, reqPath), ListIngresses], false);
    }
    r := AfterIngress(host, found.value, ingEvents, svc, svcEvents, health, pods, metrics, threshold);
  }

  /** The layers after the ingress: the backend, the service and everything
      behind it. */
  method AfterIngress(
    host: string, m: HostPathMatch, ingEvents: Result<seq<Event>>,
    svc: Result<Service>, svcEvents: Result<seq<Event>>, health: Result<EndpointHealth>,
    pods: Result<seq<Pod>>, metrics: Result<seq<PodMetrics>>, threshold: int)
    returns (r: PathReport)
    ensures r == ReportAfterIngress(host, m, ingEvents, svc, svcEvents, health, pods, metrics, threshold)
  {
    var ing := m.ingress;
    var front := IngressChecks(ing, host, ingEvents);
    var name := "";
    if m.path.backend.Some? {
      name := m.path.backend.value.name;
    }
    if name == "" {
      return PathReport(NoBackend, front.findings + [Finding(Critical, "NoBackend", ing.name)], [], false);
    }
    if svc.Err? {
      return PathReport(NoService, front.findings + [Finding(Critical, "ServiceNotFound", name)],
        front.actions + [CreateService(name, ing.namespace)], false);
    }
    var rest := DownstreamChecks(name, svc.value, ing.namespace, svcEvents, health, pods, metrics, threshold);
    var all := Then(front, rest);
    var shown := UniqueActions(all.actions);
    r := PathReport(Complete, all.findings, shown, |all.findings| == 0);
  }

  // ---------------------------------------------------------------------------
  // Properties of the report
  // ---------------------------------------------------------------------------

  /** A container with some limit and a readiness probe raises nothing. */
  predicate ContainerQuiet(c: Container) {
    !Unlimited(c) && c.hasReadinessProbe
  }

  /** A pod that raises nothing: healthy, restarts within the threshold, and
      every container quiet. */
  predicate PodQuiet(p: Pod, threshold: int) {
    IsPodHealthy(p) && RestartsOf(p) <= threshold && forall c :: c in p.containers ==> ContainerQuiet(c)
  }

  lemma {:induction false} NoLimitFindingsEmpty(pod: string, cs: seq<Container>)
    ensures NoLimitFindings(pod, cs) == [] <==> forall c :: c in cs ==> !Unlimited(c)
  {
    if cs != [] {
      NoLimitFindingsEmpty(pod, cs[..|cs| - 1]);
      assert cs == cs[..|cs| - 1] + [cs[|cs| - 1]];
    }
  }

  lemma {:induction false} ProbeLayerEmpty(pod: string, cs: seq<Container>)
    ensures ProbeLayer(pod, cs).findings == [] <==> forall c :: c in cs ==> c.hasReadinessProbe
  {
    if cs != [] {
      ProbeLayerEmpty(pod, cs[..|cs| - 1]);
      assert cs == cs[..|cs| - 1] + [cs[|cs| - 1]];
    }
  }

  /** One pod's checks raise nothing exactly when the pod is quiet. */
  lemma PodLayerQuiet(p: Pod, threshold: int)
    ensures PodLayer(p, threshold).findings == [] <==> PodQuiet(p, threshold)
  {
    var head := PodHeadLayer(p, threshold);
    assert head.findings == [] <==> IsPodHealthy(p) && RestartsOf(p) <= threshold;
    NoLimitFindingsEmpty(p.name, p.containers);
    ProbeLayerEmpty(p.name, p.containers);
    assert PodLayer(p, threshold).findings
      == head.findings + NoLimitFindings(p.name, p.containers) + ProbeLayer(p.name, p.containers).findings;
  }

  /** The pod checks raise nothing exactly when every pod is quiet. */
  lemma PodsLayerQuiet(pods: seq<Pod>, threshold: int)
    ensures PodsLayer(pods, threshold).findings == [] <==> forall p :: p in pods ==> PodQuiet(p, threshold)
  {
    PodsLayerFlat(pods, threshold);
    FlatMapEmpty(pods, p => PodLayer(p, threshold).findings);
    forall p | p in pods
      ensures PodLayer(p, threshold).findings == [] <==> PodQuiet(p, threshold)
    {
      PodLayerQuiet(p, threshold);
    }
  }

  lemma {:induction false} PodsLayerFlat(pods: seq<Pod>, threshold: int)
    ensures PodsLayer(pods, threshold).findings == FlatMap(pods, p => PodLayer(p, threshold).findings)
  {
    if pods != [] {
      PodsLayerFlat(pods[..|pods| - 1], threshold);
    }
  }

  /** A path reported healthy has TLS for the host, no warning events on
      the ingress or the service, ready endpoints, and only quiet backing
      pods. */
  lemma HealthyPath(
    host: string, path: string, found: Result<HostPathMatch>, ingEvents: Result<seq<Event>>,
    svc: Result<Service>, svcEvents: Result<seq<Event>>, health: Result<EndpointHealth>,
    pods: Result<seq<Pod>>, metrics: Result<seq<PodMetrics>>, threshold: int)
    requires PathReportOf(host, path, found, ingEvents, svc, svcEvents, health, pods, metrics, threshold).healthy
    ensures found.Ok? && BackendName(found.value) != "" && svc.Ok?
    ensures HasTLSFor(found.value.ingress.tls, host)
    ensures WarningCount(ingEvents) == 0 && WarningCount(svcEvents) == 0
    ensures health.Ok? && health.value.totalEndpoints != 0 && health.value.notReadyCount <= 0
    ensures forall p :: p in Fetched(pods) ==> PodQuiet(p, threshold)
  {
    PodsLayerQuiet(Fetched(pods), threshold);
  }

  /** The finding an action answers to. */
  ghost predicate Justified(a: PathAction, fs: seq<Finding>) {
    match a
    case CreateIngress(h, p) => Finding(Critical, "NoIngress", h + p) in fs
    case ListIngresses => exists f :: f in fs && f.check == "NoIngress"
    case ConfigureTLS(h) => Finding(Warning, "NoTLS", h) in fs
    case CreateService(s, _) => Finding(Critical, "ServiceNotFound", s) in fs
    case CheckSelectorPods(_, _) => exists f :: f in fs && f.check == "NoEndpoints"
    case DiagnosePodAction(p) => Finding(Critical, "UnhealthyPod", p) in fs
    case AddReadinessProbe(c) => exists pod :: Finding(Warning, "NoReadinessProbe", Subject(pod, c)) in fs
    case IncreaseMemoryFor(p, c) => Finding(Critical, "Memory", Subject(p, c)) in fs
  }

  ghost predicate LayerJustified(l: Layer) {
    forall a :: a in l.actions ==> Justified(a, l.findings)
  }

  lemma JustifiedGrows(a: PathAction, fs: seq<Finding>, gs: seq<Finding>)
    requires Justified(a, fs)
    ensures Justified(a, fs + gs) && Justified(a, gs + fs)
  {
    match a
    case ListIngresses =>
      var f :| f in fs && f.check == "NoIngress";
      assert f in fs + gs && f in gs + fs;
    case CheckSelectorPods(_, _) =>
      var f :| f in fs && f.check == "NoEndpoints";
      assert f in fs + gs && f in gs + fs;
    case AddReadinessProbe(c) =>
      var pod :| Finding(Warning, "NoReadinessProbe", Subject(pod, c)) in fs;
      assert Finding(Warning, "NoReadinessProbe", Subject(pod, c)) in fs + gs;
      assert Finding(Warning, "NoReadinessProbe", Subject(pod, c)) in gs + fs;
    case _ =>
  }

  lemma ThenJustified(a: Layer, b: Layer)
    requires LayerJustified(a) && LayerJustified(b)
    ensures LayerJustified(Then(a, b))
  {
    forall x | x in Then(a, b).actions ensures Justified(x, a.findings + b.findings) {
      if x in a.actions {
        JustifiedGrows(x, a.findings, b.findings);
      } else {
        JustifiedGrows(x, b.findings, a.findings);
      }
    }
  }

  lemma {:induction false} ProbeLayerJustified(pod: string, cs: seq<Container>)
    ensures LayerJustified(ProbeLayer(pod, cs))
  {
    if cs != [] {
      var c := cs[|cs| - 1];
      ProbeLayerJustified(pod, cs[..|cs| - 1]);
      if !c.hasReadinessProbe {
        var l := Layer([Finding(Warning, "NoReadinessProbe", Subject(pod, c.name))], [AddReadinessProbe(c.name)]);
        assert Justified(AddReadinessProbe(c.name), l.findings);
        ThenJustified(ProbeLayer(pod, cs[..|cs| - 1]), l);
      } else {
        ThenJustified(ProbeLayer(pod, cs[..|cs| - 1]), Quiet);
      }
    }
  }

  lemma {:induction false} PodsLayerJustified(pods: seq<Pod>, threshold: int)
    ensures LayerJustified(PodsLayer(pods, threshold))
  {
    if pods != [] {
      var p := pods[|pods| - 1];
      PodsLayerJustified(pods[..|pods| - 1], threshold);
      ProbeLayerJustified(p.name, p.containers);
      ThenJustified(PodHeadLayer(p, threshold), Layer(NoLimitFindings(p.name, p.containers), []));
      ThenJustified(Then(PodHeadLayer(p, threshold), Layer(NoLimitFindings(p.name, p.containers), [])), ProbeLayer(p.name, p.containers));
      ThenJustified(PodsLayer(pods[..|pods| - 1], threshold), PodLayer(p, threshold));
    }
  }

  lemma {:induction false} ContainersUsageJustified(pod: string, cs: seq<Container>, m: map<string, Usage>)
    ensures LayerJustified(ContainersUsageLayer(pod, cs, m))
  {
    if cs != [] {
      var c := cs[|cs| - 1];
      ContainersUsageJustified(pod, cs[..|cs| - 1], m);
      var last := if c.name in m then ContainerUsageLayer(pod, c, m[c.name]) else Quiet;
      ThenJustified(ContainersUsageLayer(pod, cs[..|cs| - 1], m), last);
    }
  }

  lemma {:induction false} UsageLayerJustified(pods: seq<Pod>, um: map<string, map<string, Usage>>)
    ensures LayerJustified(UsageLayer(pods, um))
  {
    if pods != [] {
      var p := pods[|pods| - 1];
      UsageLayerJustified(pods[..|pods| - 1], um);
      if p.name in um {
        ContainersUsageJustified(p.name, p.containers, um[p.name]);
      }
      var last := if p.name in um then ContainersUsageLayer(p.name, p.containers, um[p.name]) else Quiet;
      ThenJustified(UsageLayer(pods[..|pods| - 1], um), last);
    }
  }

  /** Every action raised behind the service answers to a finding raised
      there. */
  lemma DownstreamJustified(
    name: string, svc: Service, ns: string, svcEvents: Result<seq<Event>>, health: Result<EndpointHealth>,
    pods: Result<seq<Pod>>, metrics: Result<seq<PodMetrics>>, threshold: int)
    ensures LayerJustified(DownstreamLayer(name, svc, ns, svcEvents, health, pods, metrics, threshold))
  {
    var s := ServiceLayer(name, svcEvents);
    var e := EndpointLayer(name, svc, ns, health);
    var p := PodsLayer(Fetched(pods), threshold);
    var u := if metrics.Ok? then UsageLayer(Fetched(pods), UsageMap(metrics.value)) else Quiet;
    assert LayerJustified(s);
    assert LayerJustified(e) by {
      if health.Ok? && health.value.totalEndpoints == 0 {
        assert Finding(Critical, "NoEndpoints", name) in e.findings;
      }
    }
    PodsLayerJustified(Fetched(pods), threshold);
    if metrics.Ok? {
      UsageLayerJustified(Fetched(pods), UsageMap(metrics.value));
    }
    ThenJustified(s, e);
    ThenJustified(Then(s, e), p);
    ThenJustified(Then(Then(s, e), p), u);
  }

  /** Every suggested action answers to a finding of the same report. */
  lemma ActionsJustified(
    host: string, path: string, found: Result<HostPathMatch>, ingEvents: Result<seq<Event>>,
    svc: Result<Service>, svcEvents: Result<seq<Event>>, health: Result<EndpointHealth>,
    pods: Result<seq<Pod>>, metrics: Result<seq<PodMetrics>>, threshold: int)
    ensures var r := PathReportOf(host, path, found, ingEvents, svc, svcEvents, health, pods, metrics, threshold);
      forall a :: a in r.actions ==> Justified(a, r.findings)
  {
    var r := PathReportOf(host, path, found, ingEvents, svc, svcEvents, health, pods, metrics, threshold);
    if found.Err? {
      assert Finding(Critical, "NoIngress", host + DefaultPath(path)) in r.findings;
    } else {
      var m := found.value;
      var front := IngressLayer(m.ingress, host, ingEvents);
      var name := BackendName(m);
      assert LayerJustified(front);
      if name != "" && svc.Err? {
        forall a | a in r.actions ensures Justified(a, r.findings) {
          if a in front.actions {
            JustifiedGrows(a, front.findings, [Finding(Critical, "ServiceNotFound", name)]);
          }
        }
      } else if name != "" {
        var down := DownstreamLayer(name, svc.value, m.ingress.namespace, svcEvents, health, pods, metrics, threshold);
        DownstreamJustified(name, svc.value, m.ingress.namespace, svcEvents, health, pods, metrics, threshold);
        ThenJustified(front, down);
        DedupMembers(Then(front, down).actions);
        assert r == CompleteReport(Then(front, down));
      }
    }
  }

  /** No action is shown twice, whichever layer the diagnosis stopped at. */
  lemma ActionsShownOnce(
    host: string, path: string, found: Result<HostPathMatch>, ingEvents: Result<seq<Event>>,
    svc: Result<Service>, svcEvents: Result<seq<Event>>, health: Result<EndpointHealth>,
    pods: Result<seq<Pod>>, metrics: Result<seq<PodMetrics>>, threshold: int)
    ensures var r := PathReportOf(host, path, found, ingEvents, svc, svcEvents, health, pods, metrics, threshold);
      forall i, j :: 0 <= i < j < |r.actions| ==> r.actions[i] != r.actions[j]
  {
    if found.Ok? && BackendName(found.value) != "" && svc.Ok? {
      var m := found.value;
      var name := BackendName(m);
      DedupDistinct(Then(IngressLayer(m.ingress, host, ingEvents),
        DownstreamLayer(name, svc.value, m.ingress.namespace, svcEvents, health, pods, metrics, threshold)).actions);
    }
  }

  /** A host without TLS is always reported, and the advice to configure it
      is shown unless the path has no backend at all. */
  lemma MissingTLSReported(
    host: string, path: string, found: Result<HostPathMatch>, ingEvents: Result<seq<Event>>,
    svc: Result<Service>, svcEvents: Result<seq<Event>>, health: Result<EndpointHealth>,
    pods: Result<seq<Pod>>, metrics: Result<seq<PodMetrics>>, threshold: int)
    requires found.Ok? && !HasTLSFor(found.value.ingress.tls, host)
    ensures var r := PathReportOf(host, path, found, ingEvents, svc, svcEvents, health, pods, metrics, threshold);
      Finding(Warning, "NoTLS", host) in r.findings
      && (r.stage == NoBackend <==> BackendName(found.value) == "")
      && (r.stage != NoBackend ==> ConfigureTLS(host) in r.actions)
  {
    var m := found.value;
    var r := ReportAfterIngress(host, m, ingEvents, svc, svcEvents, health, pods, metrics, threshold);
    assert PathReportOf(host, path, found, ingEvents, svc, svcEvents, health, pods, metrics, threshold) == r;
    var front := IngressLayer(m.ingress, host, ingEvents);
    assert Finding(Warning, "NoTLS", host) in front.findings;
    assert ConfigureTLS(host) in front.actions;
    var name := BackendName(m);
    if name != "" && svc.Ok? {
      var all := Then(front, DownstreamLayer(name, svc.value, m.ingress.namespace, svcEvents, health, pods, metrics, threshold));
      assert r == CompleteReport(all);
      assert ConfigureTLS(host) in all.actions;
      DedupMembers(all.actions);
    }
  }

  /** The three early exits: no ingress gives one critical finding and the
      two standard actions; a path without a backend stops after the
      ingress checks with a critical finding and shows no action; a
      backend service that cannot be read adds a critical finding and the
      advice to create it. */
  lemma EarlyExits(
    host: string, path: string, found: Result<HostPathMatch>, ingEvents: Result<seq<Event>>,
    svc: Result<Service>, svcEvents: Result<seq<Event>>, health: Result<EndpointHealth>,
    pods: Result<seq<Pod>>, metrics: Result<seq<PodMetrics>>, threshold: int)
    ensures var r := PathReportOf(host, path, found, ingEvents, svc, svcEvents, health, pods, metrics, threshold);
      (found.Err? <==> r.stage == NoIngress)
      && (found.Err? ==>
            r.findings == [Finding(Critical, "NoIngress", host + DefaultPath(path))]
            && r.actions == [CreateIngress(host, DefaultPath(path)), ListIngresses] && !r.healthy)
      && (found.Ok? && BackendName(found.value) == "" <==> r.stage == NoBackend)
      && (r.stage == NoBackend ==> r.actions == [] && r.findings[|r.findings| - 1].severity == Critical)
      && (found.Ok? && BackendName(found.value) != "" && svc.Err? <==> r.stage == NoService)
      && (r.stage == NoService ==>
            r.findings[|r.findings| - 1] == Finding(Critical, "ServiceNotFound", BackendName(found.value))
            && r.actions[|r.actions| - 1] == CreateService(BackendName(found.value), found.value.ingress.namespace))
      && (r.stage != Complete ==> !r.healthy)
  {
  }

  /** The backend port a request path shows: the port name when it has
      one, else the decimal number, which may be "0". */
  function BackendPortLabel(b: ServiceBackend): (r: string)
    ensures b.portName != "" ==> r == b.portName
    ensures b.portName == "" ==> r == IntToString(b.portNumber)
  {
    if b.portName != "" then b.portName else IntToString(b.portNumber)
  }

  /** The request path and the ingress trace read a backend's port with
      opposite precedence: a backend that gives both a name and a number
      is shown differently by the two. */
  lemma PortLabelPrecedence(b: ServiceBackend)
    requires b.portName != "" && b.portNumber != 0
    requires b.portName != IntToString(b.portNumber)
    ensures BackendPortLabel(b) == b.portName
    ensures NetworkTools.TraceBackendPort(b) == IntToString(b.portNumber)
    ensures BackendPortLabel(b) != NetworkTools.TraceBackendPort(b)
  {
  }
}
