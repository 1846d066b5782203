/** Inference of service-to-service dependencies from the environment of the
    pods behind each service. Pods are attributed to the first service whose
    non-empty selector matches them; then every environment variable of a
    service's pods is inspected, in pod, container and variable order, for a
    Kubernetes-injected `<NAME>_SERVICE_HOST` variable (a "high" confidence
    edge) and for a value mentioning `<service>.<namespace>` (a "medium" one).
    Each (from, to) pair is reported once, with the confidence of the first
    variable that revealed it. */
module K8sDependencies {
  import opened Wrappers
  import opened StrUtil
  import opened Resources

  datatype ServiceDependency = ServiceDependency(
    fromService: string,
    fromNS: string,
    toService: string,
    toNS: string,
    confidence: string,
    source: string)

  const HostSuffix: string := "_SERVICE_HOST"
  const High: string := "high"
  const Medium: string := "medium"

  // ---------------------------------------------------------------------------
  // Attribution of pods to services
  // ---------------------------------------------------------------------------

  /** The names of the listed services. */
  function NamesOf(services: seq<Service>): (r: set<string>)
    ensures forall s :: s in services ==> s.name in r
    ensures forall n :: n in r ==> exists s :: s in services && s.name == n
  {
    if services == [] then {}
    else NamesOf(services[..|services| - 1]) + {services[|services| - 1].name}
  }

  /** The first service, in list order, with a non-empty selector that
      matches the pod. */
  function OwnerOf(services: seq<Service>, pod: Pod): (r: Option<string>)
    ensures r.Some? <==> exists s :: s in services && s.selector != map[] && SelectorMatches(s.selector, pod.labels)
    ensures r.Some? ==> r.value in NamesOf(services)
  {
    if services == [] then None
    else if services[0].selector != map[] && SelectorMatches(services[0].selector, pod.labels) then
      Some(services[0].name)
    else
      var rest := OwnerOf(services[1..], pod);
      assert forall s :: s in services[1..] ==> s in services;
      assert forall s :: s in services ==> s == services[0] || s in services[1..];
      NamesOfTail(services);
      rest
  }

  lemma NamesOfTail(services: seq<Service>)
    requires services != []
    ensures NamesOf(services[1..]) <= NamesOf(services)
  {
    forall n | n in NamesOf(services[1..]) ensures n in NamesOf(services) {
      var s :| s in services[1..] && s.name == n;
      assert s in services;
    }
  }

  /** The pods of each service, in listing order; a service without pods has
      no entry. */
  function Grouped(services: seq<Service>, pods: seq<Pod>): map<string, seq<Pod>> {
    if pods == [] then map[]
    else
      var m := Grouped(services, pods[..|pods| - 1]);
      var p := pods[|pods| - 1];
      match OwnerOf(services, p)
      case None => m
      case Some(o) => m[o := (if o in m then m[o] else []) + [p]]
  }

  /** Only services with pods have an entry. */
  lemma {:induction false} GroupedNonEmpty(services: seq<Service>, pods: seq<Pod>)
    ensures forall n :: n in Grouped(services, pods) ==> Grouped(services, pods)[n] != []
  {
    if pods != [] {
      GroupedNonEmpty(services, pods[..|pods| - 1]);
    }
  }

  /** A pod listed under a service is one of the pods, and that service is
      its owner. */
  lemma {:induction false} GroupedSound(services: seq<Service>, pods: seq<Pod>)
    ensures forall n, p :: n in Grouped(services, pods) && p in Grouped(services, pods)[n] ==>
      p in pods && OwnerOf(services, p) == Some(n)
  {
    if pods != [] {
      var init := pods[..|pods| - 1];
      GroupedSound(services, init);
      assert forall q :: q in init ==> q in pods;
    }
  }

  /** Every pod that has an owner is listed under it. */
  lemma {:induction false} GroupedComplete(services: seq<Service>, pods: seq<Pod>)
    ensures forall p :: p in pods && OwnerOf(services, p).Some? ==>
      OwnerOf(services, p).value in Grouped(services, pods) && p in Grouped(services, pods)[OwnerOf(services, p).value]
  {
    if pods != [] {
      var init := pods[..|pods| - 1];
      GroupedComplete(services, init);
      assert forall q :: q in pods ==> q in init || q == pods[|pods| - 1];
    }
  }

  /** The loop that looks for a pod's service: the first match wins. */
  method FindOwner(services: seq<Service>, pod: Pod) returns (r: Option<string>)
    ensures r == OwnerOf(services, pod)
  {
    r := None;
    var i := 0;
    while i < |services|
      invariant 0 <= i <= |services|
      invariant OwnerOf(services, pod) == OwnerOf(services[i..], pod)
    {
      var svc := services[i];
      if svc.selector != map[] && SelectorMatches(svc.selector, pod.labels) {
        r := Some(svc.name);
        return;
      }
      assert services[i..][1..] == services[i + 1..];
      i := i + 1;
    }
  }

  // ---------------------------------------------------------------------------
  // What one environment variable reveals
  // ---------------------------------------------------------------------------

  /** The service a `<NAME>_SERVICE_HOST` variable names: the prefix with
      underscores turned into dashes, lower-cased. */
  function HostTarget(name: string): string {
    ToLower(ReplaceChar(TrimSuffix(name, HostSuffix), '_', '-'))
  }

  predicate HighHit(e: EnvVar, t: string) {
    HasSuffix(e.name, HostSuffix) && HostTarget(e.name) == t
  }

  predicate MediumHit(e: EnvVar, t: string, ns: string) {
    e.value != "" && Contains(e.value, t + "." + ns)
  }

  /** The confidence one variable gives an edge to `t`: the injected host
      variable is checked before the value. */
  function StepConf(e: EnvVar, t: string, ns: string): (r: Option<string>)
    ensures r.Some? <==> HighHit(e, t) || MediumHit(e, t, ns)
    ensures r == Some(High) <==> HighHit(e, t)
  {
    if HighHit(e, t) then Some(High) else if MediumHit(e, t, ns) then Some(Medium) else None
  }

  /** The confidence of the first variable, in order, that reveals `t`. */
  function FirstConfidence(envs: seq<EnvVar>, t: string, ns: string): Option<string> {
    if envs == [] then None
    else if StepConf(envs[0], t, ns).Some? then StepConf(envs[0], t, ns)
    else FirstConfidence(envs[1..], t, ns)
  }

  /** Some variable reveals `t` exactly when a first one does, and the
      confidence is the one the first revealing variable gives. */
  lemma {:induction false} FirstConfidenceSpec(envs: seq<EnvVar>, t: string, ns: string)
    ensures FirstConfidence(envs, t, ns).Some? <==> exists i :: 0 <= i < |envs| && StepConf(envs[i], t, ns).Some?
    ensures FirstConfidence(envs, t, ns).Some? ==>
      exists i :: 0 <= i < |envs| && FirstConfidence(envs, t, ns) == StepConf(envs[i], t, ns)
        && forall j :: 0 <= j < i ==> StepConf(envs[j], t, ns).None?
  {
    if envs != [] && StepConf(envs[0], t, ns).None? {
      FirstConfidenceSpec(envs[1..], t, ns);
      assert forall i :: 1 <= i < |envs| ==> envs[i] == envs[1..][i - 1];
      if FirstConfidence(envs, t, ns).Some? {
        var i :| 0 <= i < |envs[1..]| && FirstConfidence(envs[1..], t, ns) == StepConf(envs[1..][i], t, ns)
          && forall j :: 0 <= j < i ==> StepConf(envs[1..][j], t, ns).None?;
        assert FirstConfidence(envs, t, ns) == StepConf(envs[i + 1], t, ns);
        forall j | 0 <= j < i + 1 ensures StepConf(envs[j], t, ns).None? {
          if j > 0 {
            assert envs[j] == envs[1..][j - 1];
          }
        }
      }
    }
  }

  lemma {:induction false} FirstConfidenceSnoc(envs: seq<EnvVar>, e: EnvVar, t: string, ns: string)
    ensures FirstConfidence(envs + [e], t, ns)
         == if FirstConfidence(envs, t, ns).Some? then FirstConfidence(envs, t, ns) else StepConf(e, t, ns)
  {
    if envs != [] {
      assert (envs + [e])[1..] == envs[1..] + [e];
      FirstConfidenceSnoc(envs[1..], e, t, ns);
    } else {
      assert [e][1..] == [];
    }
  }

  /** The variables of some containers, container by container. */
  function ContainerEnvs(cs: seq<Container>): seq<EnvVar> {
    if cs == [] then [] else ContainerEnvs(cs[..|cs| - 1]) + cs[|cs| - 1].env
  }

  /** The variables of some pods, pod by pod. */
  function EnvsOf(pods: seq<Pod>): seq<EnvVar> {
    if pods == [] then [] else EnvsOf(pods[..|pods| - 1]) + ContainerEnvs(pods[|pods| - 1].containers)
  }

  // ---------------------------------------------------------------------------
  // The state the scan keeps
  // ---------------------------------------------------------------------------

  function Pair(d: ServiceDependency): (string, string) {
    (d.fromService, d.toService)
  }

  /** `seen` holds exactly the pairs of the recorded edges, and no pair is
      recorded twice. */
  ghost predicate Linked(deps: seq<ServiceDependency>, seen: set<(string, string)>) {
    (forall d :: d in deps ==> Pair(d) in seen)
    && (forall p :: p in seen ==> exists d :: d in deps && Pair(d) == p)
    && (forall i, j :: 0 <= i < j < |deps| ==> Pair(deps[i]) != Pair(deps[j]))
  }

  /** Every recorded edge is an env edge inside the namespace to another
      listed service, with the confidence of the first variable, among those
      scanned so far (`scanned`), that revealed it. */
  ghost predicate Sound(deps: seq<ServiceDependency>, ns: string, names: set<string>,
                        scanned: map<string, seq<EnvVar>>) {
    forall d :: d in deps ==>
      d.fromNS == ns && d.toNS == ns && d.source == "env"
      && d.toService in names && d.toService != d.fromService
      && d.fromService in scanned
      && FirstConfidence(scanned[d.fromService], d.toService, ns) == Some(d.confidence)
  }

  /** Every edge that the variables scanned so far reveal has been
      recorded. */
  ghost predicate Complete(seen: set<(string, string)>, ns: string, names: set<string>,
                           scanned: map<string, seq<EnvVar>>) {
    forall s, t ::
      (s in scanned && t in names && t != s && FirstConfidence(scanned[s], t, ns).Some?) ==> (s, t) in seen
  }

  /** Recording a new edge keeps `Linked`. */
  lemma LinkedAdd(deps: seq<ServiceDependency>, seen: set<(string, string)>, d: ServiceDependency)
    requires Linked(deps, seen) && Pair(d) !in seen
    ensures Linked(deps + [d], seen + {Pair(d)})
  {
    var deps' := deps + [d];
    forall p | p in seen + {Pair(d)} ensures exists d' :: d' in deps' && Pair(d') == p {
      if p in seen {
        var d0 :| d0 in deps && Pair(d0) == p;
        assert d0 in deps';
      } else {
        assert deps'[|deps|] == d;
      }
    }
    forall i, j | 0 <= i < j < |deps'| ensures Pair(deps'[i]) != Pair(deps'[j]) {
      if j == |deps| {
        assert deps'[i] in deps;
      }
    }
  }

  /** Scanning one more variable of `src` keeps every recorded confidence;
      `others` holds what was scanned of the other services. */
  lemma SoundExtend(deps: seq<ServiceDependency>, ns: string, names: set<string>,
                    others: map<string, seq<EnvVar>>, src: string, done: seq<EnvVar>, e: EnvVar)
    requires Sound(deps, ns, names, others[src := done])
    ensures Sound(deps, ns, names, others[src := done + [e]])
  {
    forall d | d in deps && d.fromService == src
      ensures FirstConfidence(done + [e], d.toService, ns) == Some(d.confidence)
    {
      FirstConfidenceSnoc(done, e, d.toService, ns);
    }
  }

  // ---------------------------------------------------------------------------
  // The scan
  // ---------------------------------------------------------------------------

  /** The first check on a variable: an injected `<NAME>_SERVICE_HOST`
      naming another listed service records a high-confidence edge, unless
      the pair is already recorded. */
  method ScanHost(src: string, e: EnvVar, ns: string, names: set<string>,
                  deps: seq<ServiceDependency>, seen: set<(string, string)>,
                  ghost others: map<string, seq<EnvVar>>, ghost done: seq<EnvVar>)
    returns (deps': seq<ServiceDependency>, seen': set<(string, string)>)
    requires Linked(deps, seen) && Sound(deps, ns, names, others[src := done + [e]])
    requires forall t :: (t in names && t != src && FirstConfidence(done, t, ns).Some?) ==> (src, t) in seen
    ensures seen <= seen'
    ensures Linked(deps', seen') && Sound(deps', ns, names, others[src := done + [e]])
    ensures forall t :: (t in names && t != src && (FirstConfidence(done, t, ns).Some? || HighHit(e, t)))
              ==> (src, t) in seen'
  {
    deps', seen' := deps, seen;
    if HasSuffix(e.name, HostSuffix) {
      var target := TrimSuffix(e.name, HostSuffix);
      target := ToLower(ReplaceChar(target, '_', '-'));
      if target in names && target != src {
        if (src, target) !in seen' {
          var d := ServiceDependency(src, ns, target, ns, High, "env");
          FirstConfidenceSnoc(done, e, target, ns);
          LinkedAdd(deps', seen', d);
          deps' := deps' + [d];
          seen' := seen' + {(src, target)};
        }
      }
    }
  }

  /** The second check on a non-empty value: every other listed service it
      mentions as `<service>.<namespace>` gets a medium-confidence edge,
      unless the pair is already recorded. */
  method ScanValue(src: string, e: EnvVar, ns: string, names: set<string>,
                   deps: seq<ServiceDependency>, seen: set<(string, string)>,
                   ghost others: map<string, seq<EnvVar>>, ghost done: seq<EnvVar>)
    returns (deps': seq<ServiceDependency>, seen': set<(string, string)>)
    requires Linked(deps, seen) && Sound(deps, ns, names, others[src := done + [e]])
    requires forall t :: (t in names && t != src && (FirstConfidence(done, t, ns).Some? || HighHit(e, t)))
               ==> (src, t) in seen
    ensures seen <= seen'
    ensures Linked(deps', seen') && Sound(deps', ns, names, others[src := done + [e]])
    ensures forall t :: (t in names && t != src && FirstConfidence(done + [e], t, ns).Some?)
              ==> (src, t) in seen'
  {
    deps', seen' := deps, seen;
    var remaining := if e.value != "" then names else {};
    while remaining != {}
      invariant remaining <= names
      invariant seen <= seen'
      invariant Linked(deps', seen') && Sound(deps', ns, names, others[src := done + [e]])
      invariant forall t :: (t in names && t != src && MediumHit(e, t, ns) && t !in remaining) ==> (src, t) in seen'
      decreases remaining
    {
      var candidate :| candidate in remaining;
      if candidate != src && Contains(e.value, candidate + "." + ns) {
        if (src, candidate) !in seen' {
          var d := ServiceDependency(src, ns, candidate, ns, Medium, "env");
          FirstConfidenceSnoc(done, e, candidate, ns);
          LinkedAdd(deps', seen', d);
          deps' := deps' + [d];
          seen' := seen' + {(src, candidate)};
        }
      }
      remaining := remaining - {candidate};
    }
    forall t | t in names && t != src && FirstConfidence(done + [e], t, ns).Some? ensures (src, t) in seen' {
      FirstConfidenceSnoc(done, e, t, ns);
    }
  }

  /** Inspects one variable of a pod of `src`: first as an injected host
      variable, then its value against every listed service. */
  method ScanEnv(src: string, e: EnvVar, ns: string, names: set<string>,
                 deps: seq<ServiceDependency>, seen: set<(string, string)>,
                 ghost others: map<string, seq<EnvVar>>, ghost done: seq<EnvVar>)
    returns (deps': seq<ServiceDependency>, seen': set<(string, string)>)
    requires Linked(deps, seen) && Sound(deps, ns, names, others[src := done])
    requires Complete(seen, ns, names, others[src := done])
    ensures Linked(deps', seen') && Sound(deps', ns, names, others[src := done + [e]])
    ensures Complete(seen', ns, names, others[src := done + [e]])
  {
    SoundExtend(deps, ns, names, others, src, done, e);
    assert others[src := done][src] == done;
    deps', seen' := ScanHost(src, e, ns, names, deps, seen, others, done);
    deps', seen' := ScanValue(src, e, ns, names, deps', seen', others, done);
    ghost var before := others[src := done];
    ghost var after := others[src := done + [e]];
    forall s, t | s in after && t in names && t != s && FirstConfidence(after[s], t, ns).Some?
      ensures (s, t) in seen'
    {
      if s != src {
        assert after[s] == before[s];
      }
    }
  }

  /** Scans the variables of one container in order. */
  method ScanVars(src: string, env: seq<EnvVar>, ns: string, names: set<string>,
                  deps: seq<ServiceDependency>, seen: set<(string, string)>,
                  ghost others: map<string, seq<EnvVar>>, ghost done: seq<EnvVar>)
    returns (deps': seq<ServiceDependency>, seen': set<(string, string)>)
    requires Linked(deps, seen) && Sound(deps, ns, names, others[src := done])
    requires Complete(seen, ns, names, others[src := done])
    ensures Linked(deps', seen') && Sound(deps', ns, names, others[src := done + env])
    ensures Complete(seen', ns, names, others[src := done + env])
  {
    deps', seen' := deps, seen;
    ghost var cur := done;
    assert done + env[..0] == done;
    for k := 0 to |env|
      invariant cur == done + env[..k]
      invariant Linked(deps', seen') && Sound(deps', ns, names, others[src := cur])
      invariant Complete(seen', ns, names, others[src := cur])
    {
      deps', seen' := ScanEnv(src, env[k], ns, names, deps', seen', others, cur);
      assert done + env[..k + 1] == done + env[..k] + [env[k]];
      cur := cur + [env[k]];
    }
    assert env[..|env|] == env;
  }

  /** Scans the containers of one pod in order. */
  method ScanContainers(src: string, cs: seq<Container>, ns: string, names: set<string>,
                        deps: seq<ServiceDependency>, seen: set<(string, string)>,
                        ghost others: map<string, seq<EnvVar>>, ghost done: seq<EnvVar>)
    returns (deps': seq<ServiceDependency>, seen': set<(string, string)>)
    requires Linked(deps, seen) && Sound(deps, ns, names, others[src := done])
    requires Complete(seen, ns, names, others[src := done])
    ensures Linked(deps', seen') && Sound(deps', ns, names, others[src := done + ContainerEnvs(cs)])
    ensures Complete(seen', ns, names, others[src := done + ContainerEnvs(cs)])
  {
    deps', seen' := deps, seen;
    ghost var cur := done;
    assert done + ContainerEnvs(cs[..0]) == done;
    for c := 0 to |cs|
      invariant cur == done + ContainerEnvs(cs[..c])
      invariant Linked(deps', seen') && Sound(deps', ns, names, others[src := cur])
      invariant Complete(seen', ns, names, others[src := cur])
    {
      deps', seen' := ScanVars(src, cs[c].env, ns, names, deps', seen', others, cur);
      assert cs[..c + 1][..c] == cs[..c];
      assert done + ContainerEnvs(cs[..c + 1]) == done + ContainerEnvs(cs[..c]) + cs[c].env;
      cur := cur + cs[c].env;
    }
    assert cs[..|cs|] == cs;
  }

  /** Scans the pods of one service in order. */
  method ScanSource(src: string, pods: seq<Pod>, ns: string, names: set<string>,
                    deps: seq<ServiceDependency>, seen: set<(string, string)>,
                    ghost others: map<string, seq<EnvVar>>)
    returns (deps': seq<ServiceDependency>, seen': set<(string, string)>)
    requires Linked(deps, seen) && Sound(deps, ns, names, others[src := []])
    requires Complete(seen, ns, names, others[src := []])
    ensures Linked(deps', seen') && Sound(deps', ns, names, others[src := EnvsOf(pods)])
    ensures Complete(seen', ns, names, others[src := EnvsOf(pods)])
  {
    deps', seen' := deps, seen;
    ghost var cur: seq<EnvVar> := [];
    for p := 0 to |pods|
      invariant cur == EnvsOf(pods[..p])
      invariant Linked(deps', seen') && Sound(deps', ns, names, others[src := cur])
      invariant Complete(seen', ns, names, others[src := cur])
    {
      deps', seen' := ScanContainers(src, pods[p].containers, ns, names, deps', seen', others, cur);
      assert pods[..p + 1][..p] == pods[..p];
      cur := cur + ContainerEnvs(pods[p].containers);
    }
    assert pods[..|pods|] == pods;
  }

  /** The pods of each service, built by the attribution loop. */
  method GroupPods(services: seq<Service>, pods: seq<Pod>) returns (m: map<string, seq<Pod>>)
    ensures m == Grouped(services, pods)
  {
    m := map[];
    for i := 0 to |pods|
      invariant m == Grouped(services, pods[..i])
    {
      assert pods[..i + 1][..i] == pods[..i];
      var owner := FindOwner(services, pods[i]);
      if owner.Some? {
        var o := owner.value;
        var prior: seq<Pod> := [];
        if o in m {
          prior := m[o];
        }
        m := m[o := prior + [pods[i]]];
      }
    }
    assert pods[..|pods|] == pods;
  }

  /** Starting on a service not yet scanned keeps the scan state. */
  lemma StartSource(deps: seq<ServiceDependency>, seen: set<(string, string)>, ns: string, names: set<string>,
                    scanned: map<string, seq<EnvVar>>, src: string)
    requires src !in scanned
    requires Sound(deps, ns, names, scanned) && Complete(seen, ns, names, scanned)
    ensures Sound(deps, ns, names, scanned[src := []]) && Complete(seen, ns, names, scanned[src := []])
  {
  }

  /** The scan over every service that has pods, in map order; `scanned`
      ends up holding each such service's variables. */
  method ScanAll(groups: map<string, seq<Pod>>, ns: string, names: set<string>)
    returns (deps: seq<ServiceDependency>, ghost seen: set<(string, string)>,
             ghost scanned: map<string, seq<EnvVar>>)
    ensures scanned.Keys == groups.Keys
    ensures forall s :: s in scanned ==> scanned[s] == EnvsOf(groups[s])
    ensures Linked(deps, seen) && Sound(deps, ns, names, scanned) && Complete(seen, ns, names, scanned)
  {
    deps := [];
    var seenKeys: set<(string, string)> := {};
    scanned := map[];
    var remaining := groups.Keys;
    while remaining != {}
      invariant remaining <= groups.Keys
      invariant scanned.Keys == groups.Keys - remaining
      invariant forall s :: s in scanned ==> scanned[s] == EnvsOf(groups[s])
      invariant Linked(deps, seenKeys) && Sound(deps, ns, names, scanned) && Complete(seenKeys, ns, names, scanned)
      decreases remaining
    {
      var src :| src in remaining;
      StartSource(deps, seenKeys, ns, names, scanned, src);
      deps, seenKeys := ScanSource(src, groups[src], ns, names, deps, seenKeys, scanned);
      scanned := scanned[src := EnvsOf(groups[src])];
      remaining := remaining - {src};
    }
    seen := seenKeys;
  }

  /** The dependencies inferred in a namespace from its listed services and
      pods (either listing's error is returned; services are listed first).
      Each reported edge goes from a service that has pods to another listed
      service, carries the confidence of the first variable of the source's
      pods that reveals it, and appears once; every edge such a variable
      reveals is reported. The order of the edges follows map iteration and
      is not fixed. */
  method InferServiceDependencies(ns: string, services: Result<seq<Service>>, pods: Result<seq<Pod>>)
    returns (r: Result<seq<ServiceDependency>>)
    ensures services.Err? ==> r == Err(services.error)
    ensures services.Ok? && pods.Err? ==> r == Err(pods.error)
    ensures services.Ok? && pods.Ok? ==> r.Ok?
    ensures services.Ok? && pods.Ok? ==>
      var groups := Grouped(services.value, pods.value);
      forall d :: d in r.value ==>
        d.fromNS == ns && d.toNS == ns && d.source == "env"
        && d.fromService in groups && d.toService in NamesOf(services.value) && d.toService != d.fromService
        && FirstConfidence(EnvsOf(groups[d.fromService]), d.toService, ns) == Some(d.confidence)
    ensures services.Ok? && pods.Ok? ==>
      var groups := Grouped(services.value, pods.value);
      forall s, t ::
        (s in groups && t in NamesOf(services.value) && t != s && FirstConfidence(EnvsOf(groups[s]), t, ns).Some?)
        ==> exists d :: d in r.value && d.fromService == s && d.toService == t
    ensures services.Ok? && pods.Ok? ==>
      forall i, j :: 0 <= i < j < |r.value| ==> Pair(r.value[i]) != Pair(r.value[j])
  {
    if services.Err? {
      return Err(services.error);
    }
    var svcs := services.value;
    var names: set<string> := {};
    for i := 0 to |svcs|
      invariant names == NamesOf(svcs[..i])
    {
      assert svcs[..i + 1][..i] == svcs[..i];
      names := names + {svcs[i].name};
    }
    assert svcs[..|svcs|] == svcs;
    if pods.Err? {
      return Err(pods.error);
    }
    var groups := GroupPods(svcs, pods.value);
    var deps, seen, scanned := ScanAll(groups, ns, names);
    forall s, t | s in groups && t in names && t != s && FirstConfidence(EnvsOf(groups[s]), t, ns).Some?
      ensures exists d :: d in deps && d.fromService == s && d.toService == t
    {
      assert (s, t) in seen;
      var d :| d in deps && Pair(d) == (s, t);
    }
    r := Ok(deps);
  }
}
