/** Pod status helpers shared by every diagnosis: the status word shown for
    a pod, its ready/total/restart summary and the namespace scope label. */
module Pods {
  import opened Wrappers
  import opened Resources

  // ---------------------------------------------------------------------------
  // Status word
  // ---------------------------------------------------------------------------

  /** The reason one container status gives: a non-empty waiting reason,
      else a non-empty termination reason, else none. */
  function StatusReason(cs: ContainerStatus): (r: Option<string>)
    ensures cs.state.waiting.Some? && cs.state.waiting.value != "" ==> r == Some(cs.state.waiting.value)
    ensures (cs.state.waiting.None? || cs.state.waiting.value == "")
      && cs.state.terminated.Some? && cs.state.terminated.value.reason != ""
      ==> r == Some(cs.state.terminated.value.reason)
    ensures r.Some? ==> r.value != ""
    ensures r.None? <==>
      (cs.state.waiting.None? || cs.state.waiting.value == "")
      && (cs.state.terminated.None? || cs.state.terminated.value.reason == "")
  {
    if cs.state.waiting.Some? && cs.state.waiting.value != "" then Some(cs.state.waiting.value)
    else if cs.state.terminated.Some? && cs.state.terminated.value.reason != "" then
      Some(cs.state.terminated.value.reason)
    else None
  }

  /** The reason of the first status, in order, that gives one. */
  function FirstReason(statuses: seq<ContainerStatus>): Option<string> {
    if statuses == [] then None
    else if StatusReason(statuses[0]).Some? then StatusReason(statuses[0])
    else FirstReason(statuses[1..])
  }

  /** `FirstReason` finds the reason of the status at `i` when no earlier
      status gives one. */
  lemma {:induction false} FirstReasonAt(statuses: seq<ContainerStatus>, i: nat)
    requires i < |statuses| && StatusReason(statuses[i]).Some?
    requires forall j :: 0 <= j < i ==> StatusReason(statuses[j]).None?
    ensures FirstReason(statuses) == StatusReason(statuses[i])
  {
    if i > 0 {
      assert forall j :: 0 <= j < i - 1 ==> statuses[1..][j] == statuses[j + 1];
      FirstReasonAt(statuses[1..], i - 1);
    }
  }

  /** `FirstReason` finds nothing when no status gives a reason. */
  lemma {:induction false} FirstReasonNone(statuses: seq<ContainerStatus>)
    requires forall j :: 0 <= j < |statuses| ==> StatusReason(statuses[j]).None?
    ensures FirstReason(statuses).None?
  {
    if statuses != [] {
      assert forall j :: 0 <= j < |statuses| - 1 ==> statuses[1..][j] == statuses[j + 1];
      FirstReasonNone(statuses[1..]);
    }
  }

  /** The status word of a pod. */
  function PodPhaseReason(p: Pod): string {
    match FirstReason(p.statuses)
    case Some(r) => r
    case None =>
      match FirstReason(p.initStatuses)
      case Some(r) => "Init:" + r
      case None => if p.reason != "" then p.reason else p.phase
  }

  /** The first main container that gives a reason decides the word. */
  lemma PodPhaseReasonMain(p: Pod, i: nat)
    requires i < |p.statuses| && StatusReason(p.statuses[i]).Some?
    requires forall j :: 0 <= j < i ==> StatusReason(p.statuses[j]).None?
    ensures PodPhaseReason(p) == StatusReason(p.statuses[i]).value
  {
    FirstReasonAt(p.statuses, i);
  }

  /** Init containers are consulted only when no main container gives a
      reason; their reason is marked with "Init:". */
  lemma PodPhaseReasonInit(p: Pod, i: nat)
    requires forall j :: 0 <= j < |p.statuses| ==> StatusReason(p.statuses[j]).None?
    requires i < |p.initStatuses| && StatusReason(p.initStatuses[i]).Some?
    requires forall j :: 0 <= j < i ==> StatusReason(p.initStatuses[j]).None?
    ensures PodPhaseReason(p) == "Init:" + StatusReason(p.initStatuses[i]).value
  {
    FirstReasonNone(p.statuses);
    FirstReasonAt(p.initStatuses, i);
  }

  /** Without any container reason the pod's own reason is shown, else its
      phase. */
  lemma PodPhaseReasonFallback(p: Pod)
    requires forall j :: 0 <= j < |p.statuses| ==> StatusReason(p.statuses[j]).None?
    requires forall j :: 0 <= j < |p.initStatuses| ==> StatusReason(p.initStatuses[j]).None?
    ensures PodPhaseReason(p) == if p.reason != "" then p.reason else p.phase
  {
    FirstReasonNone(p.statuses);
    FirstReasonNone(p.initStatuses);
  }

  // ---------------------------------------------------------------------------
  // Container summary
  // ---------------------------------------------------------------------------

  const TwoTo31: int := 0x8000_0000
  const TwoTo32: int := 0x1_0000_0000

  /** The int32 value an integer wraps to. */
  function Wrap32(x: int): (r: int)
    ensures -TwoTo31 <= r < TwoTo31
    ensures (x - r) % TwoTo32 == 0
    ensures -TwoTo31 <= x < TwoTo31 ==> r == x
  {
    (x + TwoTo31) % TwoTo32 - TwoTo31
  }

  /** Wrapping after every addition is wrapping once at the end. */
  lemma WrapAdd(a: int, b: int)
    ensures Wrap32(Wrap32(a) + b) == Wrap32(a + b)
  {
    var k := (a + TwoTo31) / TwoTo32;
    assert Wrap32(a) == a - k * TwoTo32;
    ModShift(a + b + TwoTo31, k);
  }

  lemma ModShift(x: int, k: int)
    ensures (x - k * TwoTo32) % TwoTo32 == x % TwoTo32
  {
    var q := x / TwoTo32;
    assert x - k * TwoTo32 == (q - k) * TwoTo32 + x % TwoTo32;
  }

  function CountReady(statuses: seq<ContainerStatus>): (n: nat)
    ensures n <= |statuses|
  {
    if statuses == [] then 0
    else CountReady(statuses[..|statuses| - 1]) + (if statuses[|statuses| - 1].ready then 1 else 0)
  }

  /** The exact sum of the restart counts. */
  function SumRestarts(statuses: seq<ContainerStatus>): int {
    if statuses == [] then 0
    else SumRestarts(statuses[..|statuses| - 1]) + statuses[|statuses| - 1].restartCount
  }

  datatype Summary = Summary(ready: nat, total: nat, restarts: int)

  /** Ready containers, containers in the spec, and restarts. The total
      counts the spec's containers whatever statuses exist; the restarts
      are summed in int32 and wrap as the Go sum does. */
  method PodContainerSummary(p: Pod) returns (s: Summary)
    ensures s.total == |p.containers|
    ensures s.ready == CountReady(p.statuses) && s.ready <= |p.statuses|
    ensures s.restarts == Wrap32(SumRestarts(p.statuses))
    ensures -TwoTo31 <= s.restarts < TwoTo31
  {
    var total := |p.containers|;
    var ready := 0;
    var restarts := 0;
    for i := 0 to |p.statuses|
      invariant ready == CountReady(p.statuses[..i])
      invariant restarts == Wrap32(SumRestarts(p.statuses[..i]))
    {
      assert p.statuses[..i + 1][..i] == p.statuses[..i];
      var cs := p.statuses[i];
      if cs.ready {
        ready := ready + 1;
      }
      WrapAdd(SumRestarts(p.statuses[..i]), cs.restartCount);
      restarts := Wrap32(restarts + cs.restartCount);
    }
    assert p.statuses[..|p.statuses|] == p.statuses;
    s := Summary(ready, total, restarts);
  }

  // ---------------------------------------------------------------------------
  // Scope label
  // ---------------------------------------------------------------------------

  /** "all" for the empty name, "all" and "*"; any other name unchanged. */
  function DisplayNS(ns: string): (r: string)
    ensures ns == "" || ns == "all" || ns == "*" ==> r == "all"
    ensures ns != "" && ns != "all" && ns != "*" ==> r == ns
  {
    if ns == "" || ns == "all" || ns == "*" then "all" else ns
  }

  lemma DisplayNSIdempotent(ns: string)
    ensures DisplayNS(DisplayNS(ns)) == DisplayNS(ns)
  {
  }
}
