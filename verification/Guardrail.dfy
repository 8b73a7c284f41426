/** When a guardrail metric counts as deteriorated; both deciding agents use the same rule. */
module Guardrail {
  import opened Text
  import opened AgentStates

  const NEGATIVE_TERMS := [
    "retry", "error", "unsubscribe", "complaint", "support", "refund", "zero_result", "latency", "load", "time", "p95",
    "seconds"]
  const POSITIVE_TERMS := [
    "completion", "success", "conversion", "intent", "click", "save", "margin", "revenue", "order", "purchase",
    "reactivation", "cart", "trial", "qualified"]

  /** `_guardrail_deteriorated` */
  predicate Deteriorated(metric: Comparison) {
    var name := Lower(metric.metricName);
    if ContainsAny(name, NEGATIVE_TERMS) then metric.treatmentValue > metric.controlValue
    else if ContainsAny(name, POSITIVE_TERMS) then metric.treatmentValue < metric.controlValue
    else false
  }

  function Detail(metric: Comparison): string {
    "Guardrail metric " + metric.metricName + " moved in a riskier direction."
  }

  /** The details of the deteriorated guardrails, in order. */
  function DeterioratedDetails(guardrails: seq<Comparison>): seq<string> {
    if guardrails == [] then []
    else
      var last := guardrails[|guardrails| - 1];
      DeterioratedDetails(guardrails[..|guardrails| - 1]) + (if Deteriorated(last) then [Detail(last)] else [])
  }

  lemma {:induction false} DetailsNonEmpty(guardrails: seq<Comparison>)
    ensures DeterioratedDetails(guardrails) == [] <==> forall g :: g in guardrails ==> !Deteriorated(g)
    ensures forall d :: d in DeterioratedDetails(guardrails) ==> d != "" && Strip(d) == d
  {
    if guardrails != [] {
      hide Deteriorated, Strip;
      var n := |guardrails| - 1;
      DetailsNonEmpty(guardrails[..n]);
      assert guardrails == guardrails[..n] + [guardrails[n]];
      StripFixed(Detail(guardrails[n]));
    }
  }
}
