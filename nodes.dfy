/** Node status helpers: the readiness word and the roles a node's labels
    declare. */
module Nodes {
  import opened Wrappers
  import opened StrUtil
  import opened Resources

  const NodeReady: string := "Ready"
  const ConditionTrue: string := "True"
  const RolePrefix: string := "node-role.kubernetes.io/"

  /** The first condition of type Ready, if any. */
  function FirstReady(conds: seq<Condition>): (r: Option<nat>)
    ensures r.Some? ==> r.value < |conds| && conds[r.value].kind == NodeReady
    ensures r.Some? ==> forall j :: 0 <= j < r.value ==> conds[j].kind != NodeReady
    ensures r.None? ==> forall j :: 0 <= j < |conds| ==> conds[j].kind != NodeReady
  {
    if conds == [] then None
    else if conds[0].kind == NodeReady then Some(0)
    else match FirstReady(conds[1..])
      case None => None
      case Some(k) => Some(k + 1)
  }

  /** "Ready" when the first Ready condition is True, "NotReady" when it has
      any other status (Unknown included), "Unknown" when there is none. */
  function NodeStatus(n: Node): (r: string)
    ensures r == "Ready" <==> exists i :: IsFirstReady(n.conditions, i) && n.conditions[i].status == ConditionTrue
    ensures r == "NotReady" <==> exists i :: IsFirstReady(n.conditions, i) && n.conditions[i].status != ConditionTrue
    ensures r == "Unknown" <==> forall j :: 0 <= j < |n.conditions| ==> n.conditions[j].kind != NodeReady
  {
    match FirstReady(n.conditions)
    case Some(i) =>
      assert IsFirstReady(n.conditions, i);
      FirstReadyUnique(n.conditions, i);
      if n.conditions[i].status == ConditionTrue then "Ready" else "NotReady"
    case None => "Unknown"
  }

  /** Condition `i` is the first of type Ready. */
  ghost predicate IsFirstReady(conds: seq<Condition>, i: int) {
    0 <= i < |conds| && conds[i].kind == NodeReady && forall j :: 0 <= j < i ==> conds[j].kind != NodeReady
  }

  lemma FirstReadyUnique(conds: seq<Condition>, i: int)
    requires IsFirstReady(conds, i)
    ensures forall k :: IsFirstReady(conds, k) ==> k == i
  {
  }

  /** The role a label key declares, when it has the role prefix and a
      non-empty remainder. */
  function RoleOf(key: string): Option<string> {
    if HasPrefix(key, RolePrefix) && TrimPrefix(key, RolePrefix) != "" then Some(TrimPrefix(key, RolePrefix))
    else None
  }

  /** The roles of a node, each once, in map iteration order, and the text
      shown: the roles joined by "," or "<none>" when there are none. */
  method NodeRoles(n: Node) returns (roles: seq<string>, text: string)
    ensures forall r :: r in roles <==> r != "" && RolePrefix + r in n.labels
    ensures forall i, j :: 0 <= i < j < |roles| ==> roles[i] != roles[j]
    ensures roles == [] <==> forall k :: k in n.labels ==> RoleOf(k).None?
    ensures text == if roles == [] then "<none>" else Join(roles, ",")
  {
    roles := [];
    var remaining := n.labels.Keys;
    while remaining != {}
      invariant remaining <= n.labels.Keys
      invariant forall r :: r in roles <==> r != "" && RolePrefix + r in n.labels.Keys - remaining
      invariant forall i, j :: 0 <= i < j < |roles| ==> roles[i] != roles[j]
      decreases remaining
    {
      var k :| k in remaining;
      if HasPrefix(k, RolePrefix) {
        var role := TrimPrefix(k, RolePrefix);
        assert RolePrefix + role == k;
        if role != "" {
          forall r | r in roles ensures r != role {
            assert RolePrefix + r != k;
          }
          roles := roles + [role];
        }
      } else {
        forall r: string ensures RolePrefix + r != k {
          assert HasPrefix(RolePrefix + r, RolePrefix);
        }
      }
      remaining := remaining - {k};
    }
    if roles == [] {
      forall k | k in n.labels ensures RoleOf(k).None? {
        if HasPrefix(k, RolePrefix) {
          assert RolePrefix + TrimPrefix(k, RolePrefix) == k;
        }
      }
    } else {
      assert RolePrefix + roles[0] in n.labels;
      assert RoleOf(RolePrefix + roles[0]).Some?;
    }
    if |roles| == 0 {
      text := "<none>";
    } else {
      text := Join(roles, ",");
    }
  }
}
