/** The metrics tools: the binary unit a byte count is shown in, and the
    top-consumers report, which sums each pod's container usage, sorts the
    pods by CPU or by memory, largest first, and keeps the first `limit`. */
module Metrics {
  import opened Wrappers
  import opened StrUtil
  import opened Resources
  import opened Sorting

  // ---------------------------------------------------------------------------
  // Byte counts
  // ---------------------------------------------------------------------------

  const KiB: int := 1024
  const MiB: int := 1024 * KiB
  const GiB: int := 1024 * MiB

  datatype Unit = Gi | Mi | Ki

  function UnitSize(u: Unit): (n: int)
    ensures n >= KiB
  {
    match u
    case Gi => GiB
    case Mi => MiB
    case Ki => KiB
  }

  function UnitName(u: Unit): string {
    match u
    case Gi => "Gi"
    case Mi => "Mi"
    case Ki => "Ki"
  }

  /** How a byte count is shown: scaled to a binary unit (the one-decimal
      number itself is floating-point text), or exactly, followed by "B". */
  datatype ByteText = Scaled(unit: Unit) | Exact(text: string)

  /** The largest unit that fits, or the exact count below one KiB. */
  function FormatBytes(b: int): (r: ByteText)
    ensures r == Scaled(Gi) <==> b >= GiB
    ensures r == Scaled(Mi) <==> MiB <= b < GiB
    ensures r == Scaled(Ki) <==> KiB <= b < MiB
    ensures r.Exact? <==> b < KiB
    ensures r.Exact? ==> r.text == IntToString(b) + "B"
  {
    if b >= GiB then Scaled(Gi)
    else if b >= MiB then Scaled(Mi)
    else if b >= KiB then Scaled(Ki)
    else Exact(IntToString(b) + "B")
  }

  /** A scaled count is at least one of its unit, and under 1024 of it
      unless the unit is the largest. */
  lemma ScaledInRange(b: int)
    requires FormatBytes(b).Scaled?
    ensures UnitSize(FormatBytes(b).unit) <= b
    ensures FormatBytes(b).unit != Gi ==> b < 1024 * UnitSize(FormatBytes(b).unit)
  {
  }

  function UnitRank(t: ByteText): nat {
    match t
    case Exact(_) => 0
    case Scaled(Ki) => 1
    case Scaled(Mi) => 2
    case Scaled(Gi) => 3
  }

  /** A larger count is never shown in a smaller unit. */
  lemma FormatBytesMonotone(b1: int, b2: int)
    requires b1 <= b2
    ensures UnitRank(FormatBytes(b1)) <= UnitRank(FormatBytes(b2))
  {
  }

  // ---------------------------------------------------------------------------
  // Top resource consumers
  // ---------------------------------------------------------------------------

  /** A non-positive limit asks for the default number of rows. */
  function EffectiveLimit(limit: int, defaultLimit: nat): (n: nat)
    ensures limit > 0 ==> n == limit
    ensures limit <= 0 ==> n == defaultLimit
  {
    if limit <= 0 then defaultLimit else limit
  }

  /** One pod's total usage. */
  datatype PodUsage = PodUsage(name: string, namespace: string, cpu: int, memory: int)

  function CpuSum(cs: seq<ContainerUsage>): int {
    if cs == [] then 0 else CpuSum(cs[..|cs| - 1]) + cs[|cs| - 1].cpuMillis
  }

  function MemSum(cs: seq<ContainerUsage>): int {
    if cs == [] then 0 else MemSum(cs[..|cs| - 1]) + cs[|cs| - 1].memBytes
  }

  /** The sums add up over any split of the containers. */
  lemma {:induction false} SumsAppend(a: seq<ContainerUsage>, b: seq<ContainerUsage>)
    ensures CpuSum(a + b) == CpuSum(a) + CpuSum(b)
    ensures MemSum(a + b) == MemSum(a) + MemSum(b)
    decreases |b|
  {
    if b == [] {
      assert a + b == a;
    } else {
      var init := b[..|b| - 1];
      assert a + b == (a + init) + [b[|b| - 1]];
      assert (a + b)[..|a + b| - 1] == a + init;
      SumsAppend(a, init);
    }
  }

  /** With no negative readings a pod uses at least as much as any one of
      its containers. */
  lemma {:induction false} SumsBound(cs: seq<ContainerUsage>, k: int)
    requires forall i :: 0 <= i < |cs| ==> cs[i].cpuMillis >= 0 && cs[i].memBytes >= 0
    requires 0 <= k < |cs|
    ensures CpuSum(cs) >= cs[k].cpuMillis && MemSum(cs) >= cs[k].memBytes
  {
    var init := cs[..|cs| - 1];
    if k < |cs| - 1 {
      SumsBound(init, k);
    }
    SumsNonNegative(init);
  }

  lemma {:induction false} SumsNonNegative(cs: seq<ContainerUsage>)
    requires forall i :: 0 <= i < |cs| ==> cs[i].cpuMillis >= 0 && cs[i].memBytes >= 0
    ensures CpuSum(cs) >= 0 && MemSum(cs) >= 0
  {
    if cs != [] {
      SumsNonNegative(cs[..|cs| - 1]);
    }
  }

  function UsageOf(m: PodMetrics): PodUsage {
    PodUsage(m.name, m.namespace, CpuSum(m.containers), MemSum(m.containers))
  }

  /** A pod's CPU millis and memory bytes, summed over its containers. */
  method TotalUsage(m: PodMetrics) returns (u: PodUsage)
    ensures u == UsageOf(m)
  {
    var cpu, mem := 0, 0;
    for i := 0 to |m.containers|
      invariant cpu == CpuSum(m.containers[..i])
      invariant mem == MemSum(m.containers[..i])
    {
      assert m.containers[..i + 1][..i] == m.containers[..i];
      cpu := cpu + m.containers[i].cpuMillis;
      mem := mem + m.containers[i].memBytes;
    }
    assert m.containers[..|m.containers|] == m.containers;
    u := PodUsage(m.name, m.namespace, cpu, mem);
  }

  function Usages(metrics: seq<PodMetrics>): (r: seq<PodUsage>)
    ensures |r| == |metrics|
  {
    if metrics == [] then [] else Usages(metrics[..|metrics| - 1]) + [UsageOf(metrics[|metrics| - 1])]
  }

  lemma {:induction false} UsagesAt(metrics: seq<PodMetrics>, k: int)
    requires 0 <= k < |metrics|
    ensures Usages(metrics)[k] == UsageOf(metrics[k])
  {
    if k < |metrics| - 1 {
      UsagesAt(metrics[..|metrics| - 1], k);
    }
  }

  function CpuOf(u: PodUsage): int { u.cpu }
  function MemoryOf(u: PodUsage): int { u.memory }

  /** "memory" or "mem" in any letter case. */
  predicate ByMemory(resource: string) {
    var r := ToLower(resource);
    r == "memory" || r == "mem"
  }

  /** The sort key asked for: memory for "memory" or "mem" in any case,
      CPU for anything else. */
  function SortKey(resource: string): (key: PodUsage -> int)
    ensures ByMemory(resource) ==> key == MemoryOf
    ensures !ByMemory(resource) ==> key == CpuOf
  {
    if ByMemory(resource) then MemoryOf else CpuOf
  }

  /** Only the lower-cased spelling decides the key: two spellings that
      agree character by character once lower-cased sort alike. */
  lemma SortKeyIgnoresCase(a: string, b: string)
    requires |a| == |b| && forall i :: 0 <= i < |a| ==> LowerChar(a[i]) == LowerChar(b[i])
    ensures SortKey(a) == SortKey(b)
  {
    assert ToLower(a) == ToLower(b);
  }

  /** The report's rows: as many pods as the limit allows, none using less
      of the sort key than a pod left out, all taken from the metrics, and
      every pod when there are no more than the limit. A metrics error is
      returned unchanged. */
  method TopResourceConsumers(
    metrics: Result<seq<PodMetrics>>, resource: string, limit: int, defaultLimit: nat)
    returns (r: Result<seq<PodUsage>>)
    ensures metrics.Err? ==> r == Err(metrics.error)
    ensures metrics.Ok? ==> r.Ok?
    ensures metrics.Ok? ==> |r.value| == Min(|metrics.value|, EffectiveLimit(limit, defaultLimit))
    ensures metrics.Ok? ==> SortedDesc(r.value, SortKey(resource))
    ensures metrics.Ok? ==> multiset(r.value) <= multiset(Usages(metrics.value))
    ensures metrics.Ok? && |metrics.value| <= EffectiveLimit(limit, defaultLimit) ==>
      multiset(r.value) == multiset(Usages(metrics.value))
    ensures metrics.Ok? ==> forall u :: u in multiset(Usages(metrics.value)) - multiset(r.value) ==>
      forall k :: 0 <= k < |r.value| ==> SortKey(resource)(r.value[k]) >= SortKey(resource)(u)
  {
    if metrics.Err? {
      return Err(metrics.error);
    }
    var usages := CollectUsages(metrics.value);
    var rows := TopRows(usages, SortKey(resource), EffectiveLimit(limit, defaultLimit));
    return Ok(rows);
  }

  /** Each pod's usage, in the order the metrics list the pods. */
  method CollectUsages(pods: seq<PodMetrics>) returns (usages: seq<PodUsage>)
    ensures usages == Usages(pods)
  {
    usages := [];
    for i := 0 to |pods|
      invariant usages == Usages(pods[..i])
    {
      assert pods[..i + 1][..i] == pods[..i];
      var u := TotalUsage(pods[i]);
      usages := usages + [u];
    }
    assert pods[..|pods|] == pods;
  }

  /** The usages sorted by `key`, largest first, cut to `n` rows. */
  method TopRows(usages: seq<PodUsage>, key: PodUsage -> int, n: nat) returns (top: seq<PodUsage>)
    ensures |top| == Min(|usages|, n)
    ensures SortedDesc(top, key)
    ensures multiset(top) <= multiset(usages)
    ensures |usages| <= n ==> multiset(top) == multiset(usages)
    ensures forall u :: u in multiset(usages) - multiset(top) ==>
      forall k :: 0 <= k < |top| ==> key(top[k]) >= key(u)
  {
    var rows := new PodUsage[|usages|](i requires 0 <= i < |usages| => usages[i]);
    assert rows[..] == usages;
    SortDescending(rows, key);
    var sorted := rows[..];
    var m := Min(|sorted|, n);
    PrefixOfSorted(sorted, m, key);
    DroppedRankLower(sorted, m, key);
    if |sorted| <= n {
      assert sorted[..m] == sorted;
    }
    top := sorted[..m];
  }

  function Min(a: int, b: int): (m: int)
    ensures m <= a && m <= b && (m == a || m == b)
  {
    if a <= b then a else b
  }

  /** What a cut leaves out of a sorted sequence ranks no higher than what
      it keeps. */
  lemma DroppedRankLower(sorted: seq<PodUsage>, n: nat, key: PodUsage -> int)
    requires SortedDesc(sorted, key) && n <= |sorted|
    ensures forall u :: u in multiset(sorted) - multiset(sorted[..n]) ==>
      forall k :: 0 <= k < n ==> key(sorted[k]) >= key(u)
  {
    assert sorted == sorted[..n] + sorted[n..];
    assert multiset(sorted) == multiset(sorted[..n]) + multiset(sorted[n..]);
    forall u | u in multiset(sorted) - multiset(sorted[..n])
      ensures forall k :: 0 <= k < n ==> key(sorted[k]) >= key(u)
    {
      assert u in multiset(sorted[n..]);
      var q :| 0 <= q < |sorted[n..]| && sorted[n..][q] == u;
      assert sorted[n + q] == u;
    }
  }
}
