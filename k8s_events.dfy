/** Event listing: the events of a namespace, most recent first, cut to at
    most `maxEvents`. */
module K8sEvents {
  import opened Wrappers
  import opened StrUtil
  import opened Resources
  import opened Sorting

  /** When an event happened: its last timestamp, or its creation timestamp
      when the last timestamp is the zero time. */
  function EffectiveTime(e: Event): (t: int)
    ensures e.lastTimestamp != 0 ==> t == e.lastTimestamp
    ensures e.lastTimestamp == 0 ==> t == e.creationTimestamp
  {
    if e.lastTimestamp == 0 then e.creationTimestamp else e.lastTimestamp
  }

  /** The listing sorted most recent first and cut to `maxEvents`: the
      result is ordered by effective time, no event it drops is more recent
      than one it keeps, it takes nothing that was not listed, and it is
      the whole listing, reordered, when that has at most `maxEvents`
      events. A listing error is returned unchanged. */
  method ListEvents(listed: Result<seq<Event>>, maxEvents: nat) returns (r: Result<seq<Event>>)
    ensures listed.Err? ==> r == Err(listed.error)
    ensures listed.Ok? ==> r.Ok?
    ensures listed.Ok? ==> |r.value| == if |listed.value| > maxEvents then maxEvents else |listed.value|
    ensures listed.Ok? ==> SortedDesc(r.value, EffectiveTime)
    ensures listed.Ok? ==> multiset(r.value) <= multiset(listed.value)
    ensures listed.Ok? && |listed.value| <= maxEvents ==> multiset(r.value) == multiset(listed.value)
    ensures listed.Ok? ==> forall e :: e in multiset(listed.value) - multiset(r.value) ==>
      forall k :: 0 <= k < |r.value| ==> EffectiveTime(r.value[k]) >= EffectiveTime(e)
  {
    if listed.Err? {
      return Err(listed.error);
    }
    var items := new Event[|listed.value|](i requires 0 <= i < |listed.value| => listed.value[i]);
    assert items[..] == listed.value;
    SortDescending(items, EffectiveTime);
    var sorted := items[..];
    var n := if |sorted| > maxEvents then maxEvents else |sorted|;
    PrefixOfSorted(sorted, n, EffectiveTime);
    DroppedAreOlder(sorted, n);
    if |sorted| > maxEvents {
      return Ok(sorted[..maxEvents]);
    }
    assert sorted[..n] == sorted;
    return Ok(sorted);
  }

  /** What a cut leaves out of a sorted listing is never more recent than
      what it keeps. */
  lemma DroppedAreOlder(sorted: seq<Event>, n: nat)
    requires SortedDesc(sorted, EffectiveTime) && n <= |sorted|
    ensures forall e :: e in multiset(sorted) - multiset(sorted[..n]) ==>
      forall k :: 0 <= k < n ==> EffectiveTime(sorted[k]) >= EffectiveTime(e)
  {
    assert sorted == sorted[..n] + sorted[n..];
    assert multiset(sorted) == multiset(sorted[..n]) + multiset(sorted[n..]);
    forall e | e in multiset(sorted) - multiset(sorted[..n])
      ensures forall k :: 0 <= k < n ==> EffectiveTime(sorted[k]) >= EffectiveTime(e)
    {
      assert e in multiset(sorted[n..]);
      var q :| 0 <= q < |sorted[n..]| && sorted[n..][q] == e;
      assert sorted[n + q] == e;
    }
  }

  const InvolvedObjectField: string := "involvedObject.name="

  /** The field selector that asks for the events of one object. */
  function EventSelector(objectName: string): (sel: string)
    ensures HasPrefix(sel, InvolvedObjectField)
    ensures TrimPrefix(sel, InvolvedObjectField) == objectName
  {
    InvolvedObjectField + objectName
  }

  /** The events the API returns for a field selector on the involved
      object's name: those whose involved object has exactly that name. */
  function SelectEvents(events: seq<Event>, objectName: string): (r: seq<Event>)
    ensures forall e :: e in r <==> e in events && e.involvedName == objectName
    ensures multiset(r) <= multiset(events)
  {
    if events == [] then []
    else
      var rest := SelectEvents(events[..|events| - 1], objectName);
      var last := events[|events| - 1];
      assert events == events[..|events| - 1] + [last];
      if last.involvedName == objectName then rest + [last] else rest
  }

  /** The selector tells objects apart: an event passes the selector built
      for `objectName` exactly when the selector built for its own involved
      object's name is the same string, so `SelectEvents` keeps exactly the
      events the field selector `EventSelector(objectName)` asks for. */
  lemma SelectorSelects(events: seq<Event>, objectName: string)
    ensures forall e :: e in SelectEvents(events, objectName) <==>
      e in events && EventSelector(e.involvedName) == EventSelector(objectName)
  {
    forall e | e in events && EventSelector(e.involvedName) == EventSelector(objectName)
      ensures e.involvedName == objectName
    {
      assert TrimPrefix(EventSelector(e.involvedName), InvolvedObjectField) == e.involvedName;
    }
  }

  /** The events of one object: the namespace's events under the selector
      `EventSelector(objectName)`, listed as `ListEvents` lists them — the
      most recent of them first, as many as `maxEvents` allows, all of them
      when they fit, and none dropped that is more recent than one kept. */
  method GetEventsForObject(namespaceEvents: Result<seq<Event>>, objectName: string, maxEvents: nat)
    returns (r: Result<seq<Event>>)
    ensures namespaceEvents.Err? ==> r == Err(namespaceEvents.error)
    ensures namespaceEvents.Ok? ==> r.Ok?
    ensures namespaceEvents.Ok? ==> var sel := SelectEvents(namespaceEvents.value, objectName);
      |r.value| == (if |sel| > maxEvents then maxEvents else |sel|)
      && multiset(r.value) <= multiset(sel)
      && (|sel| <= maxEvents ==> multiset(r.value) == multiset(sel))
      && (forall e :: e in multiset(sel) - multiset(r.value) ==>
            forall k :: 0 <= k < |r.value| ==> EffectiveTime(r.value[k]) >= EffectiveTime(e))
    ensures namespaceEvents.Ok? ==> SortedDesc(r.value, EffectiveTime)
    ensures namespaceEvents.Ok? ==> forall e :: e in r.value ==> e in namespaceEvents.value && e.involvedName == objectName
  {
    var listed: Result<seq<Event>> := match namespaceEvents
      case Err(msg) => Err(msg)
      case Ok(evs) => Ok(SelectEvents(evs, objectName));
    r := ListEvents(listed, maxEvents);
    if r.Ok? {
      forall e | e in r.value ensures e in listed.value {
        assert e in multiset(r.value);
      }
    }
  }
}
