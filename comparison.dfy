/** `renderComparison`: the badge beside each top stat that shows how it
    changed against the previous period. Only the decision is modelled: the
    arrow follows the sign of the change, and its colour says whether the
    change is good news, which for the bounce rate is a fall. */
module Comparison {

  import opened Wrappers

  const Green := "text-green-500"
  const Red := "text-red-400"

  datatype Badge = Arrow(up: bool, color: string) | NotApplicable

  /** Good news: a rise, except for the bounce rate, where a fall is. */
  predicate IsImprovement(name: string, change: int) {
    if name == "Bounce rate" then change < 0 else change > 0
  }

  /** The badge for a stat's change; no badge when the change is missing
      (none of the three comparisons holds for null or undefined). */
  function RenderComparison(name: string, change: Option<int>): (r: Option<Badge>)
    ensures r.None? <==> change.None?
    ensures r == Some(NotApplicable) <==> change == Some(0)
    ensures r.Some? && r.value.Arrow? ==>
      && (r.value.up <==> change.value > 0)
      && (r.value.color == Green <==> IsImprovement(name, change.value))
      && (r.value.color == Green || r.value.color == Red)
  {
    match change
    case None => None
    case Some(c) =>
      if c > 0 then Some(Arrow(true, if name == "Bounce rate" then Red else Green))
      else if c < 0 then Some(Arrow(false, if name == "Bounce rate" then Green else Red))
      else Some(NotApplicable)
  }

  /** The bounce rate's colours are the reverse of every other stat's. */
  lemma BounceRateInverted(other: string, change: int)
    requires other != "Bounce rate" && change != 0
    ensures RenderComparison("Bounce rate", Some(change)).value.color != RenderComparison(other, Some(change)).value.color
    ensures RenderComparison("Bounce rate", Some(change)).value.up == RenderComparison(other, Some(change)).value.up
  {
  }

  /** Opposite changes of a stat get opposite arrows in opposite colours. */
  lemma OppositeChanges(name: string, change: int)
    requires change != 0
    ensures RenderComparison(name, Some(-change)).value.up != RenderComparison(name, Some(change)).value.up
    ensures RenderComparison(name, Some(-change)).value.color != RenderComparison(name, Some(change)).value.color
  {
  }
}
