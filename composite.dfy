/** Helpers of the composite diagnoses: the service-port summary, the
    network-policy selector test applied to a service, the usage-to-limit
    severity bands and the de-duplicated action list. */
module Composite {
  import opened StrUtil
  import opened Resources
  import opened Seqs

  // ---------------------------------------------------------------------------
  // Service port summary
  // ---------------------------------------------------------------------------

  const Arrow: char := '→'
  const ProtocolTCP: string := "TCP"

  /** The text of a target port: the decimal number, or the name. */
  function TargetString(t: IntOrString): string {
    match t
    case IntVal(i) => IntToString(i)
    case StrVal(s) => s
  }

  /** The target shown for a port: its own target, or the port number when
      the target is unset ("" or "0"). */
  function ShownTarget(p: ServicePort): (r: string)
    ensures TargetString(p.targetPort) == "" || TargetString(p.targetPort) == "0" ==> r == IntToString(p.port)
    ensures TargetString(p.targetPort) != "" && TargetString(p.targetPort) != "0" ==> r == TargetString(p.targetPort)
  {
    var target := TargetString(p.targetPort);
    if target == "0" || target == "" then IntToString(p.port) else target
  }

  /** One port as "port→target", wrapped as "name(...)" when named and
      followed by "/protocol" unless the protocol is TCP. */
  function PortEntry(p: ServicePort): (r: string)
    ensures Arrow in r
    ensures p.name != "" ==> HasPrefix(r, p.name + "(" + IntToString(p.port) + [Arrow] + ShownTarget(p) + ")")
    ensures p.name == "" ==> HasPrefix(r, IntToString(p.port) + [Arrow] + ShownTarget(p))
    ensures p.protocol != ProtocolTCP ==> HasSuffix(r, "/" + p.protocol)
    ensures p.protocol == ProtocolTCP ==> HasSuffix(r, if p.name != "" then ")" else ShownTarget(p))
  {
    var port := IntToString(p.port);
    var entry := port + [Arrow] + ShownTarget(p);
    assert entry[|port|] == Arrow;
    var named := if p.name != "" then p.name + "(" + entry + ")" else entry;
    assert named[if p.name != "" then |p.name| + 1 + |port| else |port|] == Arrow;
    if p.protocol != ProtocolTCP then
      assert named <= named + "/" + p.protocol;
      named + "/" + p.protocol
    else named
  }

  function PortEntries(ports: seq<ServicePort>): (r: seq<string>)
    ensures |r| == |ports|
  {
    if ports == [] then [] else PortEntries(ports[..|ports| - 1]) + [PortEntry(ports[|ports| - 1])]
  }

  lemma PortEntriesAt(ports: seq<ServicePort>, k: int)
    requires 0 <= k < |ports|
    ensures PortEntries(ports)[k] == PortEntry(ports[k])
  {
    if k < |ports| - 1 {
      PortEntriesAt(ports[..|ports| - 1], k);
    }
  }

  /** A joined list starts with its first part. */
  lemma JoinStartsWithFirst(parts: seq<string>, sep: string)
    requires |parts| >= 1
    ensures HasPrefix(Join(parts, sep), parts[0])
  {
  }

  /** The ports of a service joined by ", ", or "<none>" for a service
      without ports. */
  method FormatServicePorts(svc: Service) returns (r: string)
    ensures svc.ports == [] ==> r == "<none>"
    ensures svc.ports != [] ==> r == Join(PortEntries(svc.ports), ", ")
    ensures r == "<none>" <==> svc.ports == []
  {
    if |svc.ports| == 0 {
      return "<none>";
    }
    var parts := PortEntryTexts(svc.ports);
    r := Join(parts, ", ");
    JoinedPortsShowArrow(svc.ports);
  }

  /** The loop that formats each port. */
  method PortEntryTexts(ports: seq<ServicePort>) returns (parts: seq<string>)
    ensures parts == PortEntries(ports)
  {
    parts := [];
    for i := 0 to |ports|
      invariant parts == PortEntries(ports[..i])
    {
      assert ports[..i + 1][..i] == ports[..i];
      parts := parts + [PortEntry(ports[i])];
    }
    assert ports[..|ports|] == ports;
  }

  /** The joined entries of at least one port show an arrow, so they are
      never the placeholder. */
  lemma JoinedPortsShowArrow(ports: seq<ServicePort>)
    requires ports != []
    ensures Join(PortEntries(ports), ", ") != "<none>"
  {
    var parts := PortEntries(ports);
    PortEntriesAt(ports, 0);
    JoinStartsWithFirst(parts, ", ");
    var i :| 0 <= i < |parts[0]| && parts[0][i] == Arrow;
    assert Join(parts, ", ")[i] == Arrow;
    assert Arrow !in "<none>";
  }

  // ---------------------------------------------------------------------------
  // Network policy selector against a service selector
  // ---------------------------------------------------------------------------

  /** A Go map lookup: the value, or "" for a missing key. */
  function LabelOrEmpty(labels: Labels, key: string): (v: string)
    ensures key in labels ==> v == labels[key]
    ensures key !in labels ==> v == ""
  {
    if key in labels then labels[key] else ""
  }

  /** Every label of the policy's pod selector reads the same in the
      service's selector, a missing label reading as "". */
  predicate SvcSelectorHolds(policy: Labels, svc: Labels) {
    forall k :: k in policy ==> LabelOrEmpty(svc, k) == policy[k]
  }

  /** Whether a policy's pod selector would match a service's selector. */
  method MatchesSvcSelector(policy: Labels, svc: Labels) returns (r: bool)
    ensures r <==> SvcSelectorHolds(policy, svc)
    ensures policy == map[] ==> r
  {
    if |policy| == 0 {
      return true;
    }
    var remaining := policy.Keys;
    while remaining != {}
      invariant remaining <= policy.Keys
      invariant forall k :: k in policy.Keys - remaining ==> LabelOrEmpty(svc, k) == policy[k]
      decreases remaining
    {
      var k :| k in remaining;
      if LabelOrEmpty(svc, k) != policy[k] {
        return false;
      }
      remaining := remaining - {k};
    }
    return true;
  }

  /** With non-empty label values the test is ordinary selector matching. */
  lemma SvcSelectorAgrees(policy: Labels, svc: Labels)
    requires forall k :: k in policy ==> policy[k] != ""
    ensures SvcSelectorHolds(policy, svc) <==> SelectorMatches(policy, svc)
  {
    if SvcSelectorHolds(policy, svc) {
      forall k | k in policy ensures k in svc && svc[k] == policy[k] {
        assert LabelOrEmpty(svc, k) == policy[k];
      }
    }
  }

  /** Ordinary selector matching always passes the test. */
  lemma SelectorMatchesHolds(policy: Labels, svc: Labels)
    requires SelectorMatches(policy, svc)
    ensures SvcSelectorHolds(policy, svc)
  {
  }

  /** A label required with the empty value is met by a service that lacks
      the label altogether. */
  lemma SvcSelectorEmptyValue()
    ensures SvcSelectorHolds(map["app" := ""], map[])
    ensures !SelectorMatches(map["app" := ""], map[])
  {
    assert "app" in map["app" := ""];
  }

  // ---------------------------------------------------------------------------
  // Usage against a limit
  // ---------------------------------------------------------------------------

  datatype Band = Normal | High | Saturated

  /** Usage at or above 90% of a positive limit is saturated, at or above
      70% high; without a positive limit there is no band. */
  function UsageBand(usage: int, limit: int): (b: Band)
    ensures limit <= 0 ==> b == Normal
    ensures limit > 0 ==> (b == Saturated <==> 100 * usage >= 90 * limit)
    ensures limit > 0 ==> (b == High <==> 70 * limit <= 100 * usage < 90 * limit)
    ensures b == Normal <==> limit <= 0 || 100 * usage < 70 * limit
  {
    if limit <= 0 then Normal
    else if 100 * usage >= 90 * limit then Saturated
    else if 100 * usage >= 70 * limit then High
    else Normal
  }

  function BandRank(b: Band): nat {
    match b
    case Normal => 0
    case High => 1
    case Saturated => 2
  }

  /** More usage against the same limit never lowers the band. */
  lemma UsageBandMonotone(u1: int, u2: int, limit: int)
    requires u1 <= u2
    ensures BandRank(UsageBand(u1, limit)) <= BandRank(UsageBand(u2, limit))
  {
  }

  // ---------------------------------------------------------------------------
  // Suggested actions, each shown once
  // ---------------------------------------------------------------------------

  /** The actions in order of first suggestion, each once; the action at
      position k is shown with the number k + 1. */
  method UniqueActions<T(==)>(actions: seq<T>) returns (shown: seq<T>)
    ensures shown == Dedup(actions)
    ensures forall x :: x in shown <==> x in actions
    ensures forall i, j :: 0 <= i < j < |shown| ==> shown[i] != shown[j]
  {
    var seen: set<T> := {};
    shown := [];
    for i := 0 to |actions|
      invariant shown == Dedup(actions[..i])
      invariant forall x :: x in seen <==> x in actions[..i]
    {
      assert actions[..i + 1] == actions[..i] + [actions[i]];
      DedupSnoc(actions[..i], actions[i]);
      if actions[i] !in seen {
        shown := shown + [actions[i]];
        seen := seen + {actions[i]};
      }
    }
    assert actions[..|actions|] == actions;
    DedupMembers(actions);
    DedupDistinct(actions);
  }
}
