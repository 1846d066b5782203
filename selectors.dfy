/** Label selectors with match expressions, as a network policy's pod
    selector is converted and evaluated: a selector whose expressions are
    malformed cannot be converted, and a converted selector matches a label
    set that meets every label and every expression. */
module Selectors {
  import opened Resources

  const OpIn: string := "In"
  const OpNotIn: string := "NotIn"
  const OpExists: string := "Exists"
  const OpDoesNotExist: string := "DoesNotExist"

  /** "In" and "NotIn" need at least one value, "Exists" and
      "DoesNotExist" none; any other operator is rejected. */
  predicate RequirementValid(req: Requirement) {
    ((req.operator == OpIn || req.operator == OpNotIn) && req.values != [])
    || ((req.operator == OpExists || req.operator == OpDoesNotExist) && req.values == [])
  }

  /** The selector converts without error. */
  predicate SelectorValid(sel: LabelSelector) {
    forall i :: 0 <= i < |sel.matchExpressions| ==> RequirementValid(sel.matchExpressions[i])
  }

  predicate RequirementMatches(req: Requirement, labels: Labels) {
    if req.operator == OpIn then req.key in labels && labels[req.key] in req.values
    else if req.operator == OpNotIn then req.key !in labels || labels[req.key] !in req.values
    else if req.operator == OpExists then req.key in labels
    else req.key !in labels
  }

  /** The converted selector matches: every match label is present with its
      value and every expression holds. */
  predicate LabelSelectorMatches(sel: LabelSelector, labels: Labels) {
    SelectorMatches(sel.matchLabels, labels)
    && forall i :: 0 <= i < |sel.matchExpressions| ==> RequirementMatches(sel.matchExpressions[i], labels)
  }
}
