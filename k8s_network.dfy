/** Topology resolvers of the cluster-access layer: endpoint-health
    aggregation, AGIC annotation parsing, the pods behind a service, and the
    ingress host/path search. The API calls themselves are not modelled:
    each takes the fetched records, or the fetch error, as input. */
module K8sNetwork {
  import opened Wrappers
  import opened StrUtil
  import opened Resources

  // ---------------------------------------------------------------------------
  // Endpoint health
  // ---------------------------------------------------------------------------

  datatype EndpointAddress = EndpointAddress(ip: string, podName: string, nodeName: string)

  datatype EndpointHealth = EndpointHealth(
    serviceName: string,
    serviceNS: string,
    totalEndpoints: int,
    readyCount: int,
    notReadyCount: int,
    readyAddresses: seq<EndpointAddress>,
    notReadyPods: seq<EndpointAddress>)

  /** An address as reported: the target's name and the node name, each ""
      when absent. */
  function Describe(a: Address): (e: EndpointAddress)
    ensures e.ip == a.ip
    ensures e.podName == (if a.targetRef.Some? then a.targetRef.value else "")
    ensures e.nodeName == (if a.nodeName.Some? then a.nodeName.value else "")
  {
    EndpointAddress(
      a.ip,
      match a.targetRef case Some(n) => n case None => "",
      match a.nodeName case Some(n) => n case None => "")
  }

  function DescribeAll(addrs: seq<Address>): (r: seq<EndpointAddress>)
    ensures |r| == |addrs|
  {
    if addrs == [] then [] else DescribeAll(addrs[..|addrs| - 1]) + [Describe(addrs[|addrs| - 1])]
  }

  /** Each reported address describes the address at the same position. */
  lemma {:induction false} DescribeAllAt(addrs: seq<Address>, i: int)
    requires 0 <= i < |addrs|
    ensures DescribeAll(addrs)[i] == Describe(addrs[i])
    decreases |addrs|
  {
    if i < |addrs| - 1 {
      DescribeAllAt(addrs[..|addrs| - 1], i);
    }
  }

  /** The ready addresses of all subsets, subset by subset. */
  function ReadyOf(subsets: seq<Subset>): seq<Address> {
    if subsets == [] then [] else ReadyOf(subsets[..|subsets| - 1]) + subsets[|subsets| - 1].addresses
  }

  /** The not-ready addresses of all subsets, subset by subset. */
  function NotReadyOf(subsets: seq<Subset>): seq<Address> {
    if subsets == [] then [] else NotReadyOf(subsets[..|subsets| - 1]) + subsets[|subsets| - 1].notReadyAddresses
  }

  lemma DescribeAllSnoc(addrs: seq<Address>, a: Address)
    ensures DescribeAll(addrs + [a]) == DescribeAll(addrs) + [Describe(a)]
  {
    assert (addrs + [a])[..|addrs|] == addrs;
  }

  lemma {:induction false} DescribeAllAppend(xs: seq<Address>, ys: seq<Address>)
    ensures DescribeAll(xs + ys) == DescribeAll(xs) + DescribeAll(ys)
    decreases |ys|
  {
    if ys == [] {
      assert xs + ys == xs;
    } else {
      var last := ys[|ys| - 1];
      var init := ys[..|ys| - 1];
      assert ys == init + [last];
      assert xs + ys == (xs + init) + [last];
      DescribeAllAppend(xs, init);
      DescribeAllSnoc(xs + init, last);
      DescribeAllSnoc(init, last);
    }
  }

  /** The inner loop: the addresses of one subset list, as reported. */
  method DescribeAddresses(addrs: seq<Address>) returns (r: seq<EndpointAddress>)
    ensures r == DescribeAll(addrs)
  {
    r := [];
    for j := 0 to |addrs|
      invariant r == DescribeAll(addrs[..j])
    {
      var a := addrs[j];
      var ea := EndpointAddress(a.ip, "", "");
      if a.targetRef.Some? {
        ea := ea.(podName := a.targetRef.value);
      }
      if a.nodeName.Some? {
        ea := ea.(nodeName := a.nodeName.value);
      }
      DescribeAllSnoc(addrs[..j], a);
      assert addrs[..j + 1] == addrs[..j] + [a];
      r := r + [ea];
    }
    assert addrs[..|addrs|] == addrs;
  }

  /** Endpoint health of a service: every ready address of every subset is
      reported in order, and so is every not-ready one; the counts are the
      list lengths and the total is their sum. A fetch error is returned
      unchanged. */
  method GetServiceEndpointHealth(namespace: string, serviceName: string, fetched: Result<seq<Subset>>)
    returns (r: Result<EndpointHealth>)
    ensures fetched.Err? ==> r == Err(fetched.error)
    ensures fetched.Ok? ==> r.Ok?
    ensures fetched.Ok? ==> r.value.serviceName == serviceName && r.value.serviceNS == namespace
    ensures fetched.Ok? ==> r.value.readyAddresses == DescribeAll(ReadyOf(fetched.value))
    ensures fetched.Ok? ==> r.value.notReadyPods == DescribeAll(NotReadyOf(fetched.value))
    ensures fetched.Ok? ==> r.value.readyCount == |ReadyOf(fetched.value)|
    ensures fetched.Ok? ==> r.value.notReadyCount == |NotReadyOf(fetched.value)|
    ensures fetched.Ok? ==> r.value.totalEndpoints == r.value.readyCount + r.value.notReadyCount
  {
    if fetched.Err? {
      return Err(fetched.error);
    }
    var subsets := fetched.value;
    var ready: seq<EndpointAddress> := [];
    var notReady: seq<EndpointAddress> := [];
    var readyCount := 0;
    var notReadyCount := 0;
    for i := 0 to |subsets|
      invariant ready == DescribeAll(ReadyOf(subsets[..i]))
      invariant notReady == DescribeAll(NotReadyOf(subsets[..i]))
      invariant readyCount == |ready| && notReadyCount == |notReady|
    {
      assert subsets[..i + 1][..i] == subsets[..i];
      assert ReadyOf(subsets[..i + 1]) == ReadyOf(subsets[..i]) + subsets[i].addresses;
      assert NotReadyOf(subsets[..i + 1]) == NotReadyOf(subsets[..i]) + subsets[i].notReadyAddresses;
      var more := DescribeAddresses(subsets[i].addresses);
      DescribeAllAppend(ReadyOf(subsets[..i]), subsets[i].addresses);
      ready := ready + more;
      readyCount := readyCount + |more|;
      more := DescribeAddresses(subsets[i].notReadyAddresses);
      DescribeAllAppend(NotReadyOf(subsets[..i]), subsets[i].notReadyAddresses);
      notReady := notReady + more;
      notReadyCount := notReadyCount + |more|;
    }
    assert subsets[..|subsets|] == subsets;
    r := Ok(EndpointHealth(serviceName, namespace, readyCount + notReadyCount, readyCount, notReadyCount,
                           ready, notReady));
  }

  /** The total counts every address of every subset. */
  lemma {:induction false} EndpointTotal(subsets: seq<Subset>)
    ensures |ReadyOf(subsets)| + |NotReadyOf(subsets)|
         == TotalAddresses(subsets)
  {
    if subsets != [] {
      EndpointTotal(subsets[..|subsets| - 1]);
    }
  }

  function TotalAddresses(subsets: seq<Subset>): nat {
    if subsets == [] then 0
    else TotalAddresses(subsets[..|subsets| - 1])
         + |subsets[|subsets| - 1].addresses| + |subsets[|subsets| - 1].notReadyAddresses|
  }

  // ---------------------------------------------------------------------------
  // AGIC annotations
  // ---------------------------------------------------------------------------

  datatype AGICAnnotation = AGICAnnotation(key: string, value: string)

  const AGICPrefix: string := "appgw.ingress.kubernetes.io/"

  /** Exactly the annotations whose key carries the AGIC prefix, with the
      prefix removed, each once; their order follows map iteration and is
      not fixed. */
  method ParseAGICAnnotations(annotations: Labels) returns (r: seq<AGICAnnotation>)
    ensures forall a :: a in r <==> AGICPrefix + a.key in annotations && annotations[AGICPrefix + a.key] == a.value
    ensures forall i, j :: 0 <= i < j < |r| ==> r[i].key != r[j].key
  {
    r := [];
    var remaining := annotations.Keys;
    while remaining != {}
      invariant remaining <= annotations.Keys
      invariant forall a :: a in r <==>
        AGICPrefix + a.key in annotations.Keys - remaining && annotations[AGICPrefix + a.key] == a.value
      invariant forall i, j :: 0 <= i < j < |r| ==> r[i].key != r[j].key
      decreases remaining
    {
      var k :| k in remaining;
      if HasPrefix(k, AGICPrefix) {
        var entry := AGICAnnotation(TrimPrefix(k, AGICPrefix), annotations[k]);
        assert AGICPrefix + entry.key == k;
        forall a | a in r ensures a.key != entry.key {
          assert AGICPrefix + a.key != k;
        }
        r := r + [entry];
      } else {
        forall a: AGICAnnotation ensures AGICPrefix + a.key != k {
          assert HasPrefix(AGICPrefix + a.key, AGICPrefix);
        }
      }
      remaining := remaining - {k};
    }
  }

  // ---------------------------------------------------------------------------
  // Pods behind a service
  // ---------------------------------------------------------------------------

  /** The pods, in order, whose labels the selector matches. */
  function FilterMatching(selector: Labels, pods: seq<Pod>): (r: seq<Pod>)
    ensures forall p :: p in r <==> p in pods && SelectorMatches(selector, p.labels)
    ensures |r| <= |pods|
  {
    if pods == [] then []
    else FilterMatching(selector, pods[..|pods| - 1])
         + (if SelectorMatches(selector, pods[|pods| - 1].labels) then [pods[|pods| - 1]] else [])
  }

  /** The pods of a service: none, without asking the API, when its selector
      is empty; otherwise the listing of the service's namespace filtered by
      the selector (the API applies the filter), or the listing's error. */
  function GetPodsForService(svc: Service, listed: Result<seq<Pod>>): (r: Result<seq<Pod>>)
    ensures svc.selector == map[] ==> r == Ok([])
    ensures svc.selector != map[] && listed.Err? ==> r == listed
    ensures svc.selector != map[] && listed.Ok? ==>
      r.Ok? && forall p :: p in r.value <==> p in listed.value && SelectorMatches(svc.selector, p.labels)
  {
    if svc.selector == map[] then Ok([])
    else match listed
      case Err(e) => Err(e)
      case Ok(pods) => Ok(FilterMatching(svc.selector, pods))
  }

  // ---------------------------------------------------------------------------
  // Ingress host/path search
  // ---------------------------------------------------------------------------

  const PathTypeExact: string := "Exact"
  const PathTypePrefix: string := "Prefix"

  /** `Exact` compares for equality; `Prefix` and every other path type
      (ImplementationSpecific) test whether the path starts with the
      pattern, so an empty pattern matches every path. */
  function MatchPath(pattern: string, path: string, pathType: string): (r: bool)
    ensures pathType == PathTypeExact ==> (r <==> path == pattern)
    ensures pathType != PathTypeExact ==> (r <==> HasPrefix(path, pattern))
  {
    match pathType
    case "Exact" => path == pattern
    case "Prefix" => HasPrefix(path, pattern)
    case _ => HasPrefix(path, pattern)
  }

  lemma EmptyPatternMatchesAll(path: string, pathType: string)
    requires pathType != PathTypeExact
    ensures MatchPath("", path, pathType)
  {
  }

  /** An absent path type counts as Prefix. */
  function EffectivePathType(pathType: Option<string>): string {
    match pathType case Some(t) => t case None => PathTypePrefix
  }

  /** Path `k` of rule `j` of ingress `i` serves `host` + `path`: the rule's
      host is exactly `host`, it has an HTTP section, and the path matches. */
  predicate ServesAt(ings: seq<Ingress>, host: string, path: string, i: int, j: int, k: int) {
    0 <= i < |ings| && 0 <= j < |ings[i].rules|
    && ings[i].rules[j].host == host
    && ings[i].rules[j].http.Some?
    && 0 <= k < |ings[i].rules[j].http.value|
    && MatchPath(ings[i].rules[j].http.value[k].path, path,
                 EffectivePathType(ings[i].rules[j].http.value[k].pathType))
  }

  /** (i, j, k) comes before (i2, j2, k2) in list order. */
  predicate Before(i: int, j: int, k: int, i2: int, j2: int, k2: int) {
    i < i2 || (i == i2 && (j < j2 || (j == j2 && k < k2)))
  }

  datatype HostPathMatch = HostPathMatch(i: nat, j: nat, k: nat, ingress: Ingress, rule: IngressRule, path: IngressPath)

  /** The first ingress, rule and path in list order that serve the host and
      path; an error when none does, or when listing failed. */
  method FindIngressForHostPath(host: string, path: string, listed: Result<seq<Ingress>>)
    returns (r: Result<HostPathMatch>)
    ensures listed.Err? ==> r == Err(listed.error)
    ensures listed.Ok? && r.Ok? ==>
      var m := r.value;
      ServesAt(listed.value, host, path, m.i, m.j, m.k)
      && m.ingress == listed.value[m.i] && m.rule == m.ingress.rules[m.j] && m.path == m.rule.http.value[m.k]
      && forall i, j, k :: ServesAt(listed.value, host, path, i, j, k) ==> !Before(i, j, k, m.i, m.j, m.k)
    ensures listed.Ok? && r.Err? ==>
      r.error == "no ingress found for " + host + path
      && forall i, j, k :: !ServesAt(listed.value, host, path, i, j, k)
  {
    if listed.Err? {
      return Err(listed.error);
    }
    var ings := listed.value;
    for i := 0 to |ings|
      invariant forall i', j, k :: i' < i ==> !ServesAt(ings, host, path, i', j, k)
    {
      var ing := ings[i];
      for j := 0 to |ing.rules|
        invariant forall i', j', k :: (i' < i || (i' == i && j' < j)) ==> !ServesAt(ings, host, path, i', j', k)
      {
        var rule := ing.rules[j];
        if rule.host != host {
          continue;
        }
        if rule.http.None? {
          continue;
        }
        var paths := rule.http.value;
        for k := 0 to |paths|
          invariant forall i', j', k' ::
            (i' < i || (i' == i && (j' < j || (j' == j && k' < k)))) ==> !ServesAt(ings, host, path, i', j', k')
        {
          var p := paths[k];
          var pathType := PathTypePrefix;
          if p.pathType.Some? {
            pathType := p.pathType.value;
          }
          if MatchPath(p.path, path, pathType) {
            assert ServesAt(ings, host, path, i, j, k);
            return Ok(HostPathMatch(i, j, k, ing, rule, p));
          }
        }
      }
    }
    return Err("no ingress found for " + host + path);
  }
}
