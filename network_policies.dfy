/** The network-policy analysis of a namespace: which active pods at least
    one policy selects, which none does, what each policy denies outright,
    which policies select every pod, and for a namespace without policies
    the warning and the flow diagram showing all traffic allowed.

    A policy that lists no policy types counts as an Ingress policy. A
    policy whose selector cannot be converted selects no pod. */
module NetworkPolicies {
  import opened Wrappers
  import opened Resources
  import opened Seqs
  import opened Selectors
  import opened ResourceUsage
  import opened MermaidCommon
  import opened MermaidFlowchart

  const PolicyIngress: string := "Ingress"
  const PolicyEgress: string := "Egress"

  // ---------------------------------------------------------------------------
  // Policy types
  // ---------------------------------------------------------------------------

  /** The types shown for a policy: those it lists, or Ingress alone. */
  function EffectiveTypes(np: NetworkPolicy): (r: seq<string>)
    ensures r != []
  {
    if np.policyTypes == [] then [PolicyIngress] else np.policyTypes
  }

  /** Which directions a policy restricts, from the types it lists. */
  method PolicyDirections(np: NetworkPolicy) returns (hasIngress: bool, hasEgress: bool)
    ensures hasIngress <==> PolicyIngress in EffectiveTypes(np)
    ensures hasEgress <==> PolicyEgress in EffectiveTypes(np)
  {
    hasIngress, hasEgress := false, false;
    for i := 0 to |np.policyTypes|
      invariant hasIngress <==> PolicyIngress in np.policyTypes[..i]
      invariant hasEgress <==> PolicyEgress in np.policyTypes[..i]
    {
      assert np.policyTypes[..i + 1] == np.policyTypes[..i] + [np.policyTypes[i]];
      if np.policyTypes[i] == PolicyIngress {
        hasIngress := true;
      }
      if np.policyTypes[i] == PolicyEgress {
        hasEgress := true;
      }
    }
    assert np.policyTypes[..|np.policyTypes|] == np.policyTypes;
    if |np.policyTypes| == 0 {
      hasIngress := true;
    }
  }

  /** Listing no types restricts ingress only. */
  lemma DefaultTypes(np: NetworkPolicy)
    requires np.policyTypes == []
    ensures PolicyIngress in EffectiveTypes(np) && PolicyEgress !in EffectiveTypes(np)
  {
  }

  // ---------------------------------------------------------------------------
  // Coverage
  // ---------------------------------------------------------------------------

  /** A policy selects a pod when its selector converts and matches the
      pod's labels. */
  predicate Covers(np: NetworkPolicy, p: Pod) {
    SelectorValid(np.podSelector) && LabelSelectorMatches(np.podSelector, p.labels)
  }

  /** The names of the policies selecting a pod, in policy order. */
  function CoveringPolicies(policies: seq<NetworkPolicy>, p: Pod): seq<string> {
    if policies == [] then []
    else
      var np := policies[|policies| - 1];
      CoveringPolicies(policies[..|policies| - 1], p) + (if Covers(np, p) then [np.name] else [])
  }

  /** A name is listed exactly when a policy of that name selects the pod. */
  lemma {:induction false} CoveringMeaning(policies: seq<NetworkPolicy>, p: Pod, name: string)
    ensures name in CoveringPolicies(policies, p) <==>
      exists i :: 0 <= i < |policies| && Covers(policies[i], p) && policies[i].name == name
  {
    if policies != [] {
      var init := policies[..|policies| - 1];
      CoveringMeaning(init, p, name);
      if exists i :: 0 <= i < |policies| && Covers(policies[i], p) && policies[i].name == name {
        var i :| 0 <= i < |policies| && Covers(policies[i], p) && policies[i].name == name;
        if i < |init| {
          assert init[i] == policies[i];
        }
      }
    }
  }

  /** The scan of the policies for those selecting one pod. */
  method MatchPolicies(p: Pod, policies: seq<NetworkPolicy>) returns (names: seq<string>)
    ensures names == CoveringPolicies(policies, p)
  {
    names := [];
    for i := 0 to |policies|
      invariant names == CoveringPolicies(policies[..i], p)
    {
      assert policies[..i + 1][..i] == policies[..i];
      var np := policies[i];
      if !SelectorValid(np.podSelector) {
        continue;
      }
      if LabelSelectorMatches(np.podSelector, p.labels) {
        names := names + [np.name];
      }
    }
    assert policies[..|policies|] == policies;
  }

  /** The coverage map: each selected active pod's name to the names of the
      policies selecting it. */
  function Coverage(pods: seq<Pod>, policies: seq<NetworkPolicy>): map<string, seq<string>> {
    if pods == [] then map[] else AddCoverage(Coverage(pods[..|pods| - 1], policies), pods[|pods| - 1], policies)
  }

  function AddCoverage(m: map<string, seq<string>>, p: Pod, policies: seq<NetworkPolicy>): map<string, seq<string>> {
    var names := CoveringPolicies(policies, p);
    if Active(p) && names != [] then m[p.name := (if p.name in m then m[p.name] else []) + names] else m
  }

  /** The names of the active pods no policy selects, in order. */
  function Uncovered(pods: seq<Pod>, policies: seq<NetworkPolicy>): seq<string> {
    if pods == [] then []
    else
      var p := pods[|pods| - 1];
      Uncovered(pods[..|pods| - 1], policies) + (if Active(p) && CoveringPolicies(policies, p) == [] then [p.name] else [])
  }

  /** The names of the active pods some policy selects, in order. */
  function CoveredNames(pods: seq<Pod>, policies: seq<NetworkPolicy>): seq<string> {
    if pods == [] then []
    else
      var p := pods[|pods| - 1];
      CoveredNames(pods[..|pods| - 1], policies) + (if Active(p) && CoveringPolicies(policies, p) != [] then [p.name] else [])
  }

  /** Every active pod is either covered or uncovered, never both. */
  lemma {:induction false} CoverageSplit(pods: seq<Pod>, policies: seq<NetworkPolicy>)
    ensures |Uncovered(pods, policies)| + |CoveredNames(pods, policies)| == |Filter(pods, Active)|
  {
    if pods != [] {
      CoverageSplit(pods[..|pods| - 1], policies);
    }
  }

  /** The coverage map has an entry for exactly the covered pods. */
  lemma {:induction false} CoverageKeys(pods: seq<Pod>, policies: seq<NetworkPolicy>, name: string)
    ensures name in Coverage(pods, policies) <==> name in CoveredNames(pods, policies)
  {
    if pods != [] {
      var init := pods[..|pods| - 1];
      CoverageKeys(init, policies, name);
      assert name in Coverage(pods, policies) <==>
        name in Coverage(init, policies) || (Active(pods[|pods| - 1]) && CoveringPolicies(policies, pods[|pods| - 1]) != [] && pods[|pods| - 1].name == name);
    }
  }

  /** An empty selector converts and matches every label set. */
  predicate SelectsAll(np: NetworkPolicy) {
    np.podSelector.matchLabels == map[] && np.podSelector.matchExpressions == []
  }

  lemma SelectsAllCovers(np: NetworkPolicy, p: Pod)
    requires SelectsAll(np)
    ensures Covers(np, p)
  {
  }

  /** With a policy selecting every pod no active pod is uncovered. */
  lemma {:induction false} SelectsAllLeavesNoneUncovered(pods: seq<Pod>, policies: seq<NetworkPolicy>, k: int)
    requires 0 <= k < |policies| && SelectsAll(policies[k])
    ensures Uncovered(pods, policies) == []
  {
    if pods != [] {
      SelectsAllLeavesNoneUncovered(pods[..|pods| - 1], policies, k);
      var p := pods[|pods| - 1];
      CoveringMeaning(policies, p, policies[k].name);
    }
  }

  /** Adds one pod to the coverage. */
  method CoverPod(covered: map<string, seq<string>>, uncovered: seq<string>, p: Pod, policies: seq<NetworkPolicy>)
    returns (covered': map<string, seq<string>>, uncovered': seq<string>)
    ensures covered' == AddCoverage(covered, p, policies)
    ensures uncovered' == uncovered + (if Active(p) && CoveringPolicies(policies, p) == [] then [p.name] else [])
  {
    covered', uncovered' := covered, uncovered;
    if !Active(p) {
      return;
    }
    var names := MatchPolicies(p, policies);
    if names != [] {
      covered' := covered[p.name := (if p.name in covered then covered[p.name] else []) + names];
    } else {
      uncovered' := uncovered + [p.name];
    }
  }

  /** The coverage loop over the pods. */
  method AssessCoverage(pods: seq<Pod>, policies: seq<NetworkPolicy>)
    returns (covered: map<string, seq<string>>, uncovered: seq<string>)
    ensures covered == Coverage(pods, policies)
    ensures uncovered == Uncovered(pods, policies)
  {
    covered, uncovered := map[], [];
    for i := 0 to |pods|
      invariant covered == Coverage(pods[..i], policies)
      invariant uncovered == Uncovered(pods[..i], policies)
    {
      assert pods[..i + 1][..i] == pods[..i];
      covered, uncovered := CoverPod(covered, uncovered, pods[i], policies);
    }
    assert pods[..|pods|] == pods;
  }

  /** The count of active pods. */
  method CountActive(pods: seq<Pod>) returns (n: nat)
    ensures n == |Filter(pods, Active)|
  {
    n := 0;
    for i := 0 to |pods|
      invariant n == |Filter(pods[..i], Active)|
    {
      assert pods[..i + 1] == pods[..i] + [pods[i]];
      FilterSnoc(pods[..i], pods[i], Active);
      if Active(pods[i]) {
        n := n + 1;
      }
    }
    assert pods[..|pods|] == pods;
  }

  // ---------------------------------------------------------------------------
  // Findings
  // ---------------------------------------------------------------------------

  /** Critical for each direction a policy restricts without any rule, so
      denying all such traffic; information when it selects every pod. */
  function PolicyFindings(np: NetworkPolicy): seq<Finding> {
    (if PolicyIngress in EffectiveTypes(np) && np.ingressRules == 0 then [Finding(Critical, "DenyAllIngress", np.name)] else [])
    + (if PolicyEgress in EffectiveTypes(np) && np.egressRules == 0 then [Finding(Critical, "DenyAllEgress", np.name)] else [])
    + (if SelectsAll(np) then [Finding(Info, "SelectsAllPods", np.name)] else [])
  }

  function AllPolicyFindings(policies: seq<NetworkPolicy>): seq<Finding> {
    if policies == [] then [] else AllPolicyFindings(policies[..|policies| - 1]) + PolicyFindings(policies[|policies| - 1])
  }

  /** A policy listing no types and no ingress rule denies all ingress. */
  lemma DefaultDeniesIngress(np: NetworkPolicy)
    requires np.policyTypes == [] && np.ingressRules == 0
    ensures Finding(Critical, "DenyAllIngress", np.name) in PolicyFindings(np)
  {
    assert PolicyFindings(np)[0] == Finding(Critical, "DenyAllIngress", np.name);
  }

  function ReportFindings(uncovered: seq<string>, policies: seq<NetworkPolicy>): seq<Finding> {
    (if uncovered != [] then [Finding(Warning, "UncoveredPods", "")] else []) + AllPolicyFindings(policies)
  }

  /** The policies are reported well configured exactly when every active
      pod is covered and no policy denies a direction outright or selects
      every pod. */
  lemma {:induction false} WellConfigured(uncovered: seq<string>, policies: seq<NetworkPolicy>)
    ensures ReportFindings(uncovered, policies) == [] <==>
      uncovered == [] && forall i :: 0 <= i < |policies| ==> PolicyFindings(policies[i]) == []
  {
    AllPolicyFindingsEmpty(policies);
  }

  lemma {:induction false} AllPolicyFindingsEmpty(policies: seq<NetworkPolicy>)
    ensures AllPolicyFindings(policies) == [] <==> forall i :: 0 <= i < |policies| ==> PolicyFindings(policies[i]) == []
  {
    if policies != [] {
      var init := policies[..|policies| - 1];
      AllPolicyFindingsEmpty(init);
      assert forall i :: 0 <= i < |init| ==> init[i] == policies[i];
    }
  }

  method PolicyFindingsOf(np: NetworkPolicy) returns (fs: seq<Finding>)
    ensures fs == PolicyFindings(np)
  {
    var hasIngress, hasEgress := PolicyDirections(np);
    fs := [];
    if hasIngress && np.ingressRules == 0 {
      fs := fs + [Finding(Critical, "DenyAllIngress", np.name)];
    }
    if hasEgress && np.egressRules == 0 {
      fs := fs + [Finding(Critical, "DenyAllEgress", np.name)];
    }
    if |np.podSelector.matchLabels| == 0 && |np.podSelector.matchExpressions| == 0 {
      fs := fs + [Finding(Info, "SelectsAllPods", np.name)];
    }
  }

  method CollectPolicyFindings(policies: seq<NetworkPolicy>) returns (fs: seq<Finding>)
    ensures fs == AllPolicyFindings(policies)
  {
    fs := [];
    for i := 0 to |policies|
      invariant fs == AllPolicyFindings(policies[..i])
    {
      assert policies[..i + 1][..i] == policies[..i];
      var more := PolicyFindingsOf(policies[i]);
      fs := fs + more;
    }
    assert policies[..|policies|] == policies;
  }

  // ---------------------------------------------------------------------------
  // The report
  // ---------------------------------------------------------------------------

  /** The diagram lines for a namespace without policies: any source to
      all pods to any destination, both edges allowed. */
  function NoPolicyLines(ns: string): seq<string> {
    [NodeLine("ANY_SRC", "Any Source", "stadium")]
    + [NodeLine("NS", "All Pods in " + ns, "rect")]
    + [NodeLine("ANY_DST", "Any Destination", "stadium")]
    + [EdgeLine("ANY_SRC", "NS", "allowed", "solid")]
    + [EdgeLine("NS", "ANY_DST", "allowed", "solid")]
  }

  /** The report: for a namespace without policies, the number of pods
      listed, the warning and the diagram; otherwise the count of active
      pods, the coverage map, the uncovered pods and the findings. */
  datatype PolicyReport =
    | NoPolicies(podCount: nat, findings: seq<Finding>, diagram: string)
    | Analyzed(activePods: nat, covered: map<string, seq<string>>, uncovered: seq<string>, findings: seq<Finding>)

  /** Draws the diagram for a namespace without policies. */
  method NoPolicyDiagram(ns: string) returns (diagram: string)
    ensures diagram == WrapBlock(RenderText("LR", NoPolicyLines(ns), []))
  {
    var fc := new Flowchart("LR");
    fc.AddNode("ANY_SRC", "Any Source", "stadium");
    assert fc.lines == [NodeLine("ANY_SRC", "Any Source", "stadium")];
    fc.AddNode("NS", "All Pods in " + ns, "rect");
    fc.AddNode("ANY_DST", "Any Destination", "stadium");
    fc.AddEdge("ANY_SRC", "NS", "allowed", "solid");
    fc.AddEdge("NS", "ANY_DST", "allowed", "solid");
    diagram := fc.RenderBlock();
  }

  /** The analyze_network_policies report. A policy listing error, then a
      pod listing error, is returned. */
  method AnalyzeNetworkPolicies(ns: string, policies: Result<seq<NetworkPolicy>>, pods: Result<seq<Pod>>)
    returns (r: Result<PolicyReport>)
    ensures policies.Err? ==> r == Err(policies.error)
    ensures policies.Ok? && pods.Err? ==> r == Err(pods.error)
    ensures policies.Ok? && pods.Ok? && policies.value == [] ==>
      r == Ok(NoPolicies(|pods.value|, [Finding(Warning, "NoNetworkPolicies", ns)],
        WrapBlock(RenderText("LR", NoPolicyLines(ns), []))))
    ensures policies.Ok? && pods.Ok? && policies.value != [] ==>
      r == Ok(Analyzed(|Filter(pods.value, Active)|, Coverage(pods.value, policies.value),
        Uncovered(pods.value, policies.value),
        ReportFindings(Uncovered(pods.value, policies.value), policies.value)))
  {
    if policies.Err? {
      return Err(policies.error);
    }
    if pods.Err? {
      return Err(pods.error);
    }
    if |policies.value| == 0 {
      var diagram := NoPolicyDiagram(ns);
      return Ok(NoPolicies(|pods.value|, [Finding(Warning, "NoNetworkPolicies", ns)], diagram));
    }
    var report := AnalyzePolicies(pods.value, policies.value);
    return Ok(report);
  }

  /** The report for a namespace with policies. */
  method AnalyzePolicies(pods: seq<Pod>, policies: seq<NetworkPolicy>) returns (report: PolicyReport)
    ensures report == Analyzed(|Filter(pods, Active)|, Coverage(pods, policies), Uncovered(pods, policies),
      ReportFindings(Uncovered(pods, policies), policies))
  {
    var covered, uncovered := AssessCoverage(pods, policies);
    var active := CountActive(pods);
    var fs := CollectPolicyFindings(policies);
    var head: seq<Finding> := [];
    if uncovered != [] {
      head := [Finding(Warning, "UncoveredPods", "")];
    }
    report := Analyzed(active, covered, uncovered, head + fs);
  }
}
