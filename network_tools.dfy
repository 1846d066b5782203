/** The decision rules of the network analysis tools: how ingress paths are
    compared and summarised, how log lines are picked out, how a service's
    endpoints are labelled, how backend ports are checked, which network
    policies deny all ingress and which host/path entries conflict. */
module NetworkTools {
  import opened Wrappers
  import opened StrUtil
  import opened Resources
  import opened Seqs
  import opened Selectors
  import opened K8sNetwork

  // ---------------------------------------------------------------------------
  // Path overlap
  // ---------------------------------------------------------------------------

  /** Two paths may conflict when one is a prefix of the other (equal paths
      included). */
  function PathsOverlap(a: string, b: string): (r: bool)
    ensures r <==> HasPrefix(a, b) || HasPrefix(b, a)
  {
    if a == b then true
    else HasPrefix(a, b) || HasPrefix(b, a)
  }

  /** Overlap is symmetric and reflexive, and the empty path overlaps every
      path. */
  lemma PathsOverlapProperties(a: string, b: string)
    ensures PathsOverlap(a, b) == PathsOverlap(b, a)
    ensures PathsOverlap(a, a)
    ensures PathsOverlap("", b)
  {
  }

  // ---------------------------------------------------------------------------
  // Ingress summaries
  // ---------------------------------------------------------------------------

  const IngressClassAnnotation: string := "kubernetes.io/ingress.class"

  /** The class named in the spec, else the legacy class annotation, else
      "<none>". */
  function IngressClassName(ing: Ingress): (r: string)
    ensures ing.className.Some? ==> r == ing.className.value
    ensures ing.className.None? && IngressClassAnnotation in ing.annotations ==>
      r == ing.annotations[IngressClassAnnotation]
    ensures ing.className.None? && IngressClassAnnotation !in ing.annotations ==> r == "<none>"
  {
    match ing.className
    case Some(c) => c
    case None =>
      if IngressClassAnnotation in ing.annotations then ing.annotations[IngressClassAnnotation] else "<none>"
  }

  /** The paths of a rule; a rule without an HTTP section has none. */
  function PathsOfRule(rule: IngressRule): seq<IngressPath> {
    match rule.http case Some(ps) => ps case None => []
  }

  /** The non-empty rule hosts, in rule order, repeats kept. */
  function RuleHosts(rules: seq<IngressRule>): seq<string> {
    if rules == [] then []
    else
      var last := rules[|rules| - 1];
      RuleHosts(rules[..|rules| - 1]) + (if last.host != "" then [last.host] else [])
  }

  function PathStrings(paths: seq<IngressPath>): seq<string> {
    if paths == [] then [] else PathStrings(paths[..|paths| - 1]) + [paths[|paths| - 1].path]
  }

  /** Every HTTP path of every rule, in order. */
  function RulePaths(rules: seq<IngressRule>): seq<string> {
    if rules == [] then []
    else RulePaths(rules[..|rules| - 1]) + PathStrings(PathsOfRule(rules[|rules| - 1]))
  }

  function PathBackends(paths: seq<IngressPath>): seq<string> {
    if paths == [] then []
    else
      var last := paths[|paths| - 1];
      PathBackends(paths[..|paths| - 1]) + (if last.backend.Some? then [last.backend.value.name] else [])
  }

  /** The backend service name of every path that has one, in order,
      repeats kept. */
  function RuleBackends(rules: seq<IngressRule>): seq<string> {
    if rules == [] then []
    else RuleBackends(rules[..|rules| - 1]) + PathBackends(PathsOfRule(rules[|rules| - 1]))
  }

  /** The hosts listed are exactly the non-empty hosts of the rules. */
  lemma {:induction false} RuleHostsMembers(rules: seq<IngressRule>)
    ensures forall h :: h in RuleHosts(rules) <==> h != "" && exists i :: 0 <= i < |rules| && rules[i].host == h
  {
    if rules != [] {
      var init := rules[..|rules| - 1];
      RuleHostsMembers(init);
      assert forall i :: 0 <= i < |init| ==> init[i] == rules[i];
    }
  }

  /** The loop over one rule's paths: records each path and each backend
      not seen before. */
  method AddRulePaths(ps: seq<IngressPath>, paths: seq<string>, backends: seq<string>, seen: set<string>,
                      ghost flat: seq<string>)
    returns (paths': seq<string>, backends': seq<string>, seen': set<string>)
    requires backends == Dedup(flat) && forall b :: b in seen <==> b in flat
    ensures paths' == paths + PathStrings(ps)
    ensures backends' == Dedup(flat + PathBackends(ps))
    ensures forall b :: b in seen' <==> b in flat + PathBackends(ps)
  {
    paths', backends', seen' := paths, backends, seen;
    assert flat + PathBackends(ps[..0]) == flat;
    for j := 0 to |ps|
      invariant paths' == paths + PathStrings(ps[..j])
      invariant backends' == Dedup(flat + PathBackends(ps[..j]))
      invariant forall b :: b in seen' <==> b in flat + PathBackends(ps[..j])
    {
      BackendStep(flat, ps, j);
      ghost var cur := flat + PathBackends(ps[..j]);
      var p := ps[j];
      paths' := paths' + [p.path];
      if p.backend.Some? {
        var name := p.backend.value.name;
        DedupSnoc(cur, name);
        if name !in seen' {
          backends' := backends' + [name];
          seen' := seen' + {name};
        }
      }
    }
    assert ps[..|ps|] == ps;
  }

  /** One more path extends the recorded paths and backends by its own. */
  lemma BackendStep(flat: seq<string>, ps: seq<IngressPath>, j: nat)
    requires j < |ps|
    ensures PathStrings(ps[..j + 1]) == PathStrings(ps[..j]) + [ps[j].path]
    ensures ps[j].backend.Some? ==>
      flat + PathBackends(ps[..j + 1]) == (flat + PathBackends(ps[..j])) + [ps[j].backend.value.name]
    ensures ps[j].backend.None? ==> flat + PathBackends(ps[..j + 1]) == flat + PathBackends(ps[..j])
  {
    assert ps[..j + 1][..j] == ps[..j];
    if ps[j].backend.Some? {
      assert PathBackends(ps[..j + 1]) == PathBackends(ps[..j]) + [ps[j].backend.value.name];
    } else {
      assert PathBackends(ps[..j + 1]) == PathBackends(ps[..j]) + [];
    }
  }

  /** The hosts, paths and backend services of an ingress: hosts and paths
      with repeats, backends each once in order of first appearance. */
  method ExtractIngressDetails(ing: Ingress) returns (hosts: seq<string>, paths: seq<string>, backends: seq<string>)
    ensures hosts == RuleHosts(ing.rules)
    ensures paths == RulePaths(ing.rules)
    ensures backends == Dedup(RuleBackends(ing.rules))
    ensures forall b :: b in backends <==> b in RuleBackends(ing.rules)
    ensures forall i, j :: 0 <= i < j < |backends| ==> backends[i] != backends[j]
  {
    var rules := ing.rules;
    hosts, paths, backends := [], [], [];
    var seen: set<string> := {};
    for i := 0 to |rules|
      invariant hosts == RuleHosts(rules[..i]) && paths == RulePaths(rules[..i])
      invariant backends == Dedup(RuleBackends(rules[..i]))
      invariant forall b :: b in seen <==> b in RuleBackends(rules[..i])
    {
      assert rules[..i + 1][..i] == rules[..i];
      var rule := rules[i];
      assert RuleHosts(rules[..i + 1]) == RuleHosts(rules[..i]) + (if rule.host != "" then [rule.host] else []);
      assert RulePaths(rules[..i + 1]) == RulePaths(rules[..i]) + PathStrings(PathsOfRule(rule));
      assert RuleBackends(rules[..i + 1]) == RuleBackends(rules[..i]) + PathBackends(PathsOfRule(rule));
      if rule.host != "" {
        hosts := hosts + [rule.host];
      }
      paths, backends, seen := AddRulePaths(PathsOfRule(rule), paths, backends, seen, RuleBackends(rules[..i]));
    }
    assert rules[..|rules|] == rules;
    DedupMembers(RuleBackends(rules));
    DedupDistinct(RuleBackends(rules));
  }

  // ---------------------------------------------------------------------------
  // Error lines in logs
  // ---------------------------------------------------------------------------

  const Keywords: seq<string> := ["error", "Error", "ERROR", "warn", "Warn", "WARN", "fatal", "Fatal", "FATAL",
                                  "panic", "Panic", "PANIC", "failed", "Failed", "FAILED"]

  /** The line contains one of the keywords (case as listed). */
  predicate HasKeyword(line: string) {
    exists k :: 0 <= k < |Keywords| && Contains(line, Keywords[k])
  }

  /** A line worth reporting: not blank, and mentioning a keyword. */
  predicate IsErrorLine(line: string) {
    TrimSpace(line) != "" && HasKeyword(line)
  }

  /** The trimmed form of each error line, in order. */
  function ErrorLines(lines: seq<string>): seq<string> {
    if lines == [] then []
    else
      var last := lines[|lines| - 1];
      ErrorLines(lines[..|lines| - 1]) + (if IsErrorLine(last) then [TrimSpace(last)] else [])
  }

  /** One entry per error line, each the trimmed line, never blank. */
  lemma {:induction false} ErrorLinesSpec(lines: seq<string>)
    ensures |ErrorLines(lines)| == |Filter(lines, IsErrorLine)|
    ensures forall k :: 0 <= k < |ErrorLines(lines)| ==>
      ErrorLines(lines)[k] == TrimSpace(Filter(lines, IsErrorLine)[k]) && ErrorLines(lines)[k] != ""
  {
    if lines != [] {
      ErrorLinesSpec(lines[..|lines| - 1]);
    }
  }

  /** The keyword scan of one line, stopping at the first keyword found. */
  method MentionsKeyword(line: string) returns (found: bool)
    ensures found <==> HasKeyword(line)
  {
    for k := 0 to |Keywords|
      invariant forall m :: 0 <= m < k ==> !Contains(line, Keywords[m])
    {
      if Contains(line, Keywords[k]) {
        return true;
      }
    }
    return false;
  }

  /** The error lines of a log, split on newlines. */
  method ExtractLogErrors(logs: string) returns (errors: seq<string>)
    ensures errors == ErrorLines(Split(logs, '\n'))
  {
    var lines := Split(logs, '\n');
    errors := [];
    for i := 0 to |lines|
      invariant errors == ErrorLines(lines[..i])
    {
      assert lines[..i + 1][..i] == lines[..i];
      var trimmed := TrimSpace(lines[i]);
      if trimmed == "" {
        continue;
      }
      var found := MentionsKeyword(lines[i]);
      if found {
        errors := errors + [trimmed];
      }
    }
    assert lines[..|lines|] == lines;
  }

  // ---------------------------------------------------------------------------
  // Endpoint health of every service
  // ---------------------------------------------------------------------------

  const ExternalName: string := "ExternalName"
  const NamespaceRequired: string := "namespace is required"

  /** The status column of the endpoint health table; `Errored` is shown
      as "ERROR" when the endpoints could not be read. */
  datatype EndpointStatus = External | NoSelector | Dead | Degraded | Healthy | Errored

  /** The status of one service from its endpoint health. An external-name
      service is EXTERNAL whatever its endpoints; a service without
      endpoints is NO-SELECTOR when it selects nothing and DEAD otherwise;
      one with a not-ready endpoint is DEGRADED; the rest are HEALTHY. */
  function ClassifyEndpoints(svc: Service, health: Result<EndpointHealth>): (r: EndpointStatus)
    ensures r == Errored <==> health.Err?
    ensures health.Ok? && svc.kind == ExternalName ==> r == External
    ensures r == NoSelector <==>
      (health.Ok? && svc.kind != ExternalName && health.value.totalEndpoints == 0 && svc.selector == map[])
    ensures r == Dead <==>
      (health.Ok? && svc.kind != ExternalName && health.value.totalEndpoints == 0 && svc.selector != map[])
    ensures r == Degraded <==>
      (health.Ok? && svc.kind != ExternalName && health.value.totalEndpoints != 0 && health.value.notReadyCount > 0)
  {
    match health
    case Err(_) => Errored
    case Ok(h) =>
      if svc.kind == ExternalName then External
      else if h.totalEndpoints == 0 then (if svc.selector == map[] then NoSelector else Dead)
      else if h.notReadyCount > 0 then Degraded
      else Healthy
  }

  /** Read against consistent endpoint counts, the labels mean what they
      say: a DEAD service has no ready endpoint, a DEGRADED one some
      endpoint not ready, a HEALTHY one only ready endpoints and at least
      one. */
  lemma StatusMeaning(svc: Service, h: EndpointHealth)
    requires h.totalEndpoints == h.readyCount + h.notReadyCount && h.readyCount >= 0 && h.notReadyCount >= 0
    ensures ClassifyEndpoints(svc, Ok(h)) == Dead ==> h.readyCount == 0
    ensures ClassifyEndpoints(svc, Ok(h)) == Degraded ==> h.notReadyCount > 0
    ensures ClassifyEndpoints(svc, Ok(h)) == Healthy ==> h.readyCount == h.totalEndpoints > 0
  {
  }

  datatype EndpointRow = EndpointRow(service: string, status: EndpointStatus)

  /** The findings of one row: DEAD is critical, DEGRADED and ERROR are
      warnings. */
  function RowFinding(row: EndpointRow): seq<Finding> {
    match row.status
    case Dead => [Finding(Critical, "DeadService", row.service)]
    case Degraded => [Finding(Warning, "DegradedService", row.service)]
    case Errored => [Finding(Warning, "EndpointCheckFailed", row.service)]
    case _ => []
  }

  function RowFindings(rows: seq<EndpointRow>): seq<Finding> {
    if rows == [] then [] else RowFindings(rows[..|rows| - 1]) + RowFinding(rows[|rows| - 1])
  }

  function CountStatus(rows: seq<EndpointRow>, st: EndpointStatus): nat {
    if rows == [] then 0
    else CountStatus(rows[..|rows| - 1], st) + (if rows[|rows| - 1].status == st then 1 else 0)
  }

  /** The three counted statuses never add up to more than the services. */
  lemma {:induction false} CountsWithinRows(rows: seq<EndpointRow>)
    ensures CountStatus(rows, Healthy) + CountStatus(rows, Degraded) + CountStatus(rows, Dead) <= |rows|
  {
    if rows != [] {
      CountsWithinRows(rows[..|rows| - 1]);
    }
  }

  /** No finding is raised exactly when no row is DEAD, DEGRADED or ERROR. */
  lemma {:induction false} RowFindingsEmpty(rows: seq<EndpointRow>)
    ensures RowFindings(rows) == [] <==>
      forall k :: 0 <= k < |rows| ==> rows[k].status != Dead && rows[k].status != Degraded && rows[k].status != Errored
  {
    if rows != [] {
      var init := rows[..|rows| - 1];
      RowFindingsEmpty(init);
      assert forall k :: 0 <= k < |init| ==> init[k] == rows[k];
    }
  }

  /** The findings loop over the table rows. */
  method EndpointFindings(rows: seq<EndpointRow>) returns (findings: seq<Finding>)
    ensures findings == RowFindings(rows)
  {
    findings := [];
    for i := 0 to |rows|
      invariant findings == RowFindings(rows[..i])
    {
      assert rows[..i + 1][..i] == rows[..i];
      match rows[i].status {
        case Dead => findings := findings + [Finding(Critical, "DeadService", rows[i].service)];
        case Degraded => findings := findings + [Finding(Warning, "DegradedService", rows[i].service)];
        case Errored => findings := findings + [Finding(Warning, "EndpointCheckFailed", rows[i].service)];
        case _ =>
      }
    }
    assert rows[..|rows|] == rows;
  }

  datatype EndpointReport = EndpointReport(
    rows: seq<EndpointRow>,
    healthy: nat,
    degraded: nat,
    dead: nat,
    findings: seq<Finding>,
    allHealthy: bool)

  /** The endpoint health table of a namespace. `health` gives the endpoint
      health read for a service name. The namespace must be named; a
      failed service listing is returned; an empty namespace gives an empty
      table without the "all healthy" note. */
  method ListEndpointHealth(ns: string, services: Result<seq<Service>>, health: string -> Result<EndpointHealth>)
    returns (r: Result<EndpointReport>)
    ensures ns == "" ==> r == Err(NamespaceRequired)
    ensures ns != "" && services.Err? ==> r == Err(services.error)
    ensures ns != "" && services.Ok? ==> r.Ok? && |r.value.rows| == |services.value|
    ensures ns != "" && services.Ok? ==> forall k :: 0 <= k < |r.value.rows| ==>
      r.value.rows[k] == EndpointRow(services.value[k].name, ClassifyEndpoints(services.value[k], health(services.value[k].name)))
    ensures ns != "" && services.Ok? ==>
      (r.value.healthy == CountStatus(r.value.rows, Healthy) && r.value.degraded == CountStatus(r.value.rows, Degraded)
       && r.value.dead == CountStatus(r.value.rows, Dead))
    ensures ns != "" && services.Ok? ==> r.value.healthy + r.value.degraded + r.value.dead <= |services.value|
    ensures ns != "" && services.Ok? ==> r.value.findings == RowFindings(r.value.rows)
    ensures ns != "" && services.Ok? ==> (r.value.allHealthy <==> |services.value| > 0 && r.value.findings == [])
  {
    if ns == "" {
      return Err(NamespaceRequired);
    }
    if services.Err? {
      return Err(services.error);
    }
    var svcs := services.value;
    if |svcs| == 0 {
      return Ok(EndpointReport([], 0, 0, 0, [], false));
    }
    var rows: seq<EndpointRow> := [];
    var dead, degraded, healthy := 0, 0, 0;
    for i := 0 to |svcs|
      invariant |rows| == i
      invariant forall k :: 0 <= k < i ==> rows[k] == EndpointRow(svcs[k].name, ClassifyEndpoints(svcs[k], health(svcs[k].name)))
      invariant healthy == CountStatus(rows, Healthy) && degraded == CountStatus(rows, Degraded)
      invariant dead == CountStatus(rows, Dead)
    {
      var svc := svcs[i];
      var status := ClassifyEndpoints(svc, health(svc.name));
      if status == Dead {
        dead := dead + 1;
      } else if status == Degraded {
        degraded := degraded + 1;
      } else if status == Healthy {
        healthy := healthy + 1;
      }
      rows := rows + [EndpointRow(svc.name, status)];
      assert rows[..i] == rows[..|rows| - 1];
    }
    CountsWithinRows(rows);
    var findings := EndpointFindings(rows);
    r := Ok(EndpointReport(rows, healthy, degraded, dead, findings, |findings| == 0));
  }

  // ---------------------------------------------------------------------------
  // Backend port validation
  // ---------------------------------------------------------------------------

  /** The backend port as the trace and audit tools show it: the number
      when it is set, else the name (possibly empty). */
  function TraceBackendPort(b: ServiceBackend): (r: string)
    ensures b.portNumber != 0 ==> r == IntToString(b.portNumber)
    ensures b.portNumber == 0 ==> r == b.portName
  {
    if b.portNumber != 0 then IntToString(b.portNumber) else b.portName
  }

  /** Some service port has this decimal number or this name. */
  ghost predicate PortDeclared(port: string, ports: seq<ServicePort>) {
    exists i :: 0 <= i < |ports| && (port == IntToString(ports[i].port) || port == ports[i].name)
  }

  /** The mismatch check: a warning exactly when the port is shown and no
      service port has it as number or name. */
  method PortMismatch(port: string, ports: seq<ServicePort>) returns (warn: bool)
    ensures warn <==> port != "" && !PortDeclared(port, ports)
  {
    var portValid := false;
    for i := 0 to |ports|
      invariant !portValid <==> forall m :: 0 <= m < i ==> port != IntToString(ports[m].port) && port != ports[m].name
    {
      if port == IntToString(ports[i].port) || port == ports[i].name {
        portValid := true;
        break;
      }
    }
    warn := !portValid && port != "";
  }

  /** A backend that names a declared port by number or by name raises no
      warning. */
  lemma DeclaredBackendPort(b: ServiceBackend, ports: seq<ServicePort>, i: nat)
    requires i < |ports|
    requires (b.portNumber != 0 && ports[i].port == b.portNumber)
          || (b.portNumber == 0 && b.portName == ports[i].name)
    ensures PortDeclared(TraceBackendPort(b), ports)
  {
    assert TraceBackendPort(b) == IntToString(ports[i].port) || TraceBackendPort(b) == ports[i].name;
  }

  // ---------------------------------------------------------------------------
  // Network policies affecting a service
  // ---------------------------------------------------------------------------

  const PolicyIngress: string := "Ingress"
  const PolicyEgress: string := "Egress"

  /** One warning for each time a policy lists Ingress among its types
      while it has no ingress rule; no type is assumed when none is
      listed. */
  function DenyAllIngressFindings(np: NetworkPolicy): seq<Finding> {
    if np.ingressRules != 0 then [] else IngressEntries(np.policyTypes, np.name)
  }

  function IngressEntries(types: seq<string>, name: string): seq<Finding> {
    if types == [] then []
    else IngressEntries(types[..|types| - 1], name)
         + (if types[|types| - 1] == PolicyIngress then [Finding(Warning, "DenyAllIngress", name)] else [])
  }

  lemma {:induction false} IngressEntriesEmpty(types: seq<string>, name: string)
    ensures IngressEntries(types, name) == [] <==> PolicyIngress !in types
  {
    if types != [] {
      var init := types[..|types| - 1];
      IngressEntriesEmpty(init, name);
      assert types == init + [types[|types| - 1]];
    }
  }

  /** A policy is flagged exactly when it lists Ingress explicitly and has
      no ingress rule; a policy listing no types is never flagged. */
  lemma DenyAllIngressExplicit(np: NetworkPolicy)
    ensures DenyAllIngressFindings(np) != [] <==> PolicyIngress in np.policyTypes && np.ingressRules == 0
    ensures np.policyTypes == [] ==> DenyAllIngressFindings(np) == []
  {
    IngressEntriesEmpty(np.policyTypes, np.name);
  }

  /** A policy affects a service when the service has a selector, the
      policy's selector converts, and it selects one of the service's
      pods. */
  predicate Affects(np: NetworkPolicy, svc: Service, pods: seq<Pod>) {
    svc.selector != map[] && SelectorValid(np.podSelector)
    && exists k :: 0 <= k < |pods| && LabelSelectorMatches(np.podSelector, pods[k].labels)
  }

  function AffectingFindings(policies: seq<NetworkPolicy>, svc: Service, pods: seq<Pod>): seq<Finding> {
    if policies == [] then []
    else
      var np := policies[|policies| - 1];
      AffectingFindings(policies[..|policies| - 1], svc, pods)
      + (if Affects(np, svc, pods) then DenyAllIngressFindings(np) else [])
  }

  /** The scan of the service's pods for one the policy selects. */
  method SelectsAnyPod(sel: LabelSelector, pods: seq<Pod>) returns (found: bool)
    ensures found <==> exists k :: 0 <= k < |pods| && LabelSelectorMatches(sel, pods[k].labels)
  {
    for k := 0 to |pods|
      invariant forall m :: 0 <= m < k ==> !LabelSelectorMatches(sel, pods[m].labels)
    {
      if LabelSelectorMatches(sel, pods[k].labels) {
        return true;
      }
    }
    return false;
  }

  /** The loop over a policy's types. */
  method DenyAllWarnings(np: NetworkPolicy) returns (fs: seq<Finding>)
    ensures fs == DenyAllIngressFindings(np)
  {
    fs := [];
    for t := 0 to |np.policyTypes|
      invariant fs == (if np.ingressRules != 0 then [] else IngressEntries(np.policyTypes[..t], np.name))
    {
      assert np.policyTypes[..t + 1][..t] == np.policyTypes[..t];
      if np.policyTypes[t] == PolicyIngress && np.ingressRules == 0 {
        fs := fs + [Finding(Warning, "DenyAllIngress", np.name)];
      }
    }
    assert np.policyTypes[..|np.policyTypes|] == np.policyTypes;
  }

  /** The policies affecting a service (`pods` are the pods its selector
      matched): how many there are and the deny-all warnings they raise.
      The "no policies" note is shown exactly when the count is 0. */
  method PoliciesAffectingService(svc: Service, policies: seq<NetworkPolicy>, pods: seq<Pod>)
    returns (matching: nat, warnings: seq<Finding>)
    ensures matching == |Filter(policies, np => Affects(np, svc, pods))|
    ensures warnings == AffectingFindings(policies, svc, pods)
  {
    matching := 0;
    warnings := [];
    for i := 0 to |policies|
      invariant matching == |Filter(policies[..i], np => Affects(np, svc, pods))|
      invariant warnings == AffectingFindings(policies[..i], svc, pods)
    {
      FilterSnoc(policies[..i], policies[i], np => Affects(np, svc, pods));
      assert policies[..i + 1] == policies[..i] + [policies[i]];
      assert policies[..i + 1][..i] == policies[..i];
      var np := policies[i];
      if svc.selector == map[] {
        continue;
      }
      if !SelectorValid(np.podSelector) {
        continue;
      }
      var found := SelectsAnyPod(np.podSelector, pods);
      if found {
        matching := matching + 1;
        var fs := DenyAllWarnings(np);
        warnings := warnings + fs;
      }
    }
    assert policies[..|policies|] == policies;
  }

  // ---------------------------------------------------------------------------
  // Host/path conflicts across ingresses
  // ---------------------------------------------------------------------------

  datatype HostPathEntry = HostPathEntry(ingressName: string, path: string, pathType: string)

  /** The host a rule is filed under: "*" for the empty host. */
  function HostKey(host: string): (k: string)
    ensures k != ""
    ensures host == "" ==> k == "*"
    ensures host != "" ==> k == host
  {
    if host == "" then "*" else host
  }

  function PathEntries(host: string, ingName: string, paths: seq<IngressPath>): seq<(string, HostPathEntry)> {
    if paths == [] then []
    else
      var p := paths[|paths| - 1];
      PathEntries(host, ingName, paths[..|paths| - 1]) + [(host, HostPathEntry(ingName, p.path, EffectivePathType(p.pathType)))]
  }

  function RuleEntries(ingName: string, rules: seq<IngressRule>): seq<(string, HostPathEntry)> {
    if rules == [] then []
    else
      var rule := rules[|rules| - 1];
      RuleEntries(ingName, rules[..|rules| - 1]) + PathEntries(HostKey(rule.host), ingName, PathsOfRule(rule))
  }

  /** Every path of every HTTP rule of every ingress, with the host it is
      filed under, in listing order. */
  function AllEntries(ingresses: seq<Ingress>): seq<(string, HostPathEntry)> {
    if ingresses == [] then []
    else
      var ing := ingresses[|ingresses| - 1];
      AllEntries(ingresses[..|ingresses| - 1]) + RuleEntries(ing.name, ing.rules)
  }

  /** Files more entries, each appended to its host's list. */
  function FileAll(m: map<string, seq<HostPathEntry>>, flat: seq<(string, HostPathEntry)>): map<string, seq<HostPathEntry>> {
    if flat == [] then m
    else
      var m' := FileAll(m, flat[..|flat| - 1]);
      var (h, e) := flat[|flat| - 1];
      m'[h := (if h in m' then m'[h] else []) + [e]]
  }

  lemma FileAllSnoc(m: map<string, seq<HostPathEntry>>, flat: seq<(string, HostPathEntry)>, h: string, e: HostPathEntry)
    ensures FileAll(m, flat + [(h, e)]) == (var m' := FileAll(m, flat); m'[h := (if h in m' then m'[h] else []) + [e]])
  {
    assert (flat + [(h, e)])[..|flat|] == flat;
  }

  lemma {:induction false} FileAllAppend(m: map<string, seq<HostPathEntry>>, a: seq<(string, HostPathEntry)>,
                                         b: seq<(string, HostPathEntry)>)
    ensures FileAll(m, a + b) == FileAll(FileAll(m, a), b)
    decreases |b|
  {
    if b == [] {
      assert a + b == a;
    } else {
      assert (a + b)[..|a + b| - 1] == a + b[..|b| - 1];
      FileAllAppend(m, a, b[..|b| - 1]);
    }
  }

  /** The entries of one host, in order. */
  function EntriesFor(flat: seq<(string, HostPathEntry)>, h: string): seq<HostPathEntry> {
    if flat == [] then []
    else EntriesFor(flat[..|flat| - 1], h) + (if flat[|flat| - 1].0 == h then [flat[|flat| - 1].1] else [])
  }

  /** Filing groups the entries by host: a host is present exactly when
      some entry has it, and its list holds that host's entries in
      order. */
  lemma {:induction false} FileAllGroups(flat: seq<(string, HostPathEntry)>)
    ensures forall h :: h in FileAll(map[], flat) <==> exists k :: 0 <= k < |flat| && flat[k].0 == h
    ensures forall h :: h in FileAll(map[], flat) ==> FileAll(map[], flat)[h] == EntriesFor(flat, h)
  {
    if flat != [] {
      var init := flat[..|flat| - 1];
      FileAllGroups(init);
      assert forall k :: 0 <= k < |init| ==> init[k] == flat[k];
      forall h | h !in FileAll(map[], init)
        ensures EntriesFor(init, h) == []
      {
        EntriesForAbsent(init, h);
      }
    }
  }

  lemma {:induction false} EntriesForAbsent(flat: seq<(string, HostPathEntry)>, h: string)
    requires forall k :: 0 <= k < |flat| ==> flat[k].0 != h
    ensures EntriesFor(flat, h) == []
  {
    if flat != [] {
      EntriesForAbsent(flat[..|flat| - 1], h);
    }
  }

  /** The loop over one rule's paths, filing each under the rule's host. */
  method FileRule(hostPaths: map<string, seq<HostPathEntry>>, ingName: string, rule: IngressRule)
    returns (m: map<string, seq<HostPathEntry>>)
    ensures m == FileAll(hostPaths, PathEntries(HostKey(rule.host), ingName, PathsOfRule(rule)))
  {
    var host := rule.host;
    if host == "" {
      host := "*";
    }
    m := hostPaths;
    if rule.http.None? {
      return;
    }
    var ps := rule.http.value;
    for k := 0 to |ps|
      invariant m == FileAll(hostPaths, PathEntries(host, ingName, ps[..k]))
    {
      var p := ps[k];
      var pathType := PathTypePrefix;
      if p.pathType.Some? {
        pathType := p.pathType.value;
      }
      var entry := HostPathEntry(ingName, p.path, pathType);
      FileStep(hostPaths, host, ingName, ps, k);
      m := m[host := (if host in m then m[host] else []) + [entry]];
    }
    assert ps[..|ps|] == ps;
  }

  /** Filing one more path appends its entry to its host's list. */
  lemma FileStep(hostPaths: map<string, seq<HostPathEntry>>, host: string, ingName: string, ps: seq<IngressPath>, k: nat)
    requires k < |ps|
    ensures FileAll(hostPaths, PathEntries(host, ingName, ps[..k + 1]))
         == (var m := FileAll(hostPaths, PathEntries(host, ingName, ps[..k]));
             var e := HostPathEntry(ingName, ps[k].path, EffectivePathType(ps[k].pathType));
             m[host := (if host in m then m[host] else []) + [e]])
  {
    assert ps[..k + 1][..k] == ps[..k];
    var e := HostPathEntry(ingName, ps[k].path, EffectivePathType(ps[k].pathType));
    FileAllSnoc(hostPaths, PathEntries(host, ingName, ps[..k]), host, e);
  }

  /** The loop over one ingress's rules. */
  method FileIngress(hostPaths: map<string, seq<HostPathEntry>>, ing: Ingress) returns (m: map<string, seq<HostPathEntry>>)
    ensures m == FileAll(hostPaths, RuleEntries(ing.name, ing.rules))
  {
    m := hostPaths;
    assert RuleEntries(ing.name, ing.rules[..0]) == [];
    for j := 0 to |ing.rules|
      invariant m == FileAll(hostPaths, RuleEntries(ing.name, ing.rules[..j]))
    {
      assert ing.rules[..j + 1][..j] == ing.rules[..j];
      var rule := ing.rules[j];
      ghost var sofar := RuleEntries(ing.name, ing.rules[..j]);
      ghost var added := PathEntries(HostKey(rule.host), ing.name, PathsOfRule(rule));
      m := FileRule(m, ing.name, rule);
      FileAllAppend(hostPaths, sofar, added);
      assert RuleEntries(ing.name, ing.rules[..j + 1]) == sofar + added;
    }
    assert ing.rules[..|ing.rules|] == ing.rules;
  }

  /** The audit's recording of every host/path entry, grouped by host. */
  method CollectHostPaths(ingresses: seq<Ingress>) returns (hostPaths: map<string, seq<HostPathEntry>>)
    ensures hostPaths == FileAll(map[], AllEntries(ingresses))
  {
    hostPaths := map[];
    for i := 0 to |ingresses|
      invariant hostPaths == FileAll(map[], AllEntries(ingresses[..i]))
    {
      assert ingresses[..i + 1][..i] == ingresses[..i];
      var ing := ingresses[i];
      ghost var before := AllEntries(ingresses[..i]);
      hostPaths := FileIngress(hostPaths, ing);
      FileAllAppend(map[], before, RuleEntries(ing.name, ing.rules));
      assert AllEntries(ingresses[..i + 1]) == before + RuleEntries(ing.name, ing.rules);
    }
    assert ingresses[..|ingresses|] == ingresses;
  }

  /** A reported conflict: a host and the positions of two of its entries. */
  datatype Conflict = Conflict(host: string, first: nat, second: nat)

  /** Two entries of the host, the first listed before the second, from
      different ingresses, with overlapping paths. */
  ghost predicate IsConflict(hostPaths: map<string, seq<HostPathEntry>>, c: Conflict) {
    c.host in hostPaths && c.first < c.second < |hostPaths[c.host]|
    && hostPaths[c.host][c.first].ingressName != hostPaths[c.host][c.second].ingressName
    && PathsOverlap(hostPaths[c.host][c.first].path, hostPaths[c.host][c.second].path)
  }

  ghost predicate PairConflicts(entries: seq<HostPathEntry>, i: int, j: int) {
    0 <= i < j < |entries| && entries[i].ingressName != entries[j].ingressName
    && PathsOverlap(entries[i].path, entries[j].path)
  }

  /** The pair loops over one host's entries. */
  method ConflictsAt(host: string, entries: seq<HostPathEntry>) returns (cs: seq<Conflict>)
    ensures forall c :: c in cs <==> c.host == host && PairConflicts(entries, c.first, c.second)
    ensures forall a, b :: 0 <= a < b < |cs| ==> cs[a] != cs[b]
  {
    cs := [];
    if |entries| <= 1 {
      return;
    }
    for i := 0 to |entries|
      invariant forall c :: c in cs <==> c.host == host && c.first < i && PairConflicts(entries, c.first, c.second)
      invariant forall a, b :: 0 <= a < b < |cs| ==> cs[a] != cs[b]
    {
      for j := i + 1 to |entries|
        invariant forall c :: c in cs <==> c.host == host && PairConflicts(entries, c.first, c.second)
                                            && (c.first < i || (c.first == i && c.second < j))
        invariant forall a, b :: 0 <= a < b < |cs| ==> cs[a] != cs[b]
      {
        if entries[i].ingressName == entries[j].ingressName {
          continue;
        }
        if PathsOverlap(entries[i].path, entries[j].path) {
          cs := cs + [Conflict(host, i, j)];
        }
      }
    }
  }

  /** Every conflicting pair of entries under the same host, each reported
      once, hosts taken in map order. */
  method FindConflicts(hostPaths: map<string, seq<HostPathEntry>>) returns (conflicts: seq<Conflict>)
    ensures forall c :: c in conflicts <==> IsConflict(hostPaths, c)
    ensures forall a, b :: 0 <= a < b < |conflicts| ==> conflicts[a] != conflicts[b]
  {
    conflicts := [];
    var remaining := hostPaths.Keys;
    while remaining != {}
      invariant remaining <= hostPaths.Keys
      invariant forall c :: c in conflicts <==> c.host !in remaining && IsConflict(hostPaths, c)
      invariant forall a, b :: 0 <= a < b < |conflicts| ==> conflicts[a] != conflicts[b]
      decreases remaining
    {
      var host :| host in remaining;
      var cs := ConflictsAt(host, hostPaths[host]);
      forall a, b | 0 <= a < |conflicts| && 0 <= b < |cs| ensures conflicts[a] != cs[b] {
        assert cs[b] in cs && conflicts[a] in conflicts;
      }
      conflicts := conflicts + cs;
      remaining := remaining - {host};
    }
  }
}
