/** What the generative model hands back to the monitor, treated as oracle input, and the
    fixed alert threshold both front ends apply to it. */
module Risk {
  import opened Wrappers

  /** One supply dependency: a material and the country it comes from. */
  datatype Dependency = Dependency(material: string, location: string)

  /** The outcome of the search call: the response's `text` (which may be None), or the
      message of the exception the call raised. */
  datatype SearchReply = Answered(text: Option<string>) | Raised(error: string)

  /** The JSON object the scoring call returns. The three documented keys are optional;
      `otherKeys` counts any further keys the model adds. */
  datatype Assessment = Assessment(
    riskScore: Option<real>,
    reason: Option<string>,
    actionNeeded: Option<bool>,
    otherKeys: nat)
  {
    /** Python truthiness of the dictionary: it is true exactly when it has some key. */
    predicate Truthy() {
      riskScore.Some? || reason.Some? || actionNeeded.Some? || otherKeys > 0
    }

    /** `risk_data.get('risk_score', 0)` */
    function Score(): real {
      riskScore.GetOr(0.0)
    }

    /** `risk_data.get('reason', 'Unknown')` */
    function Reason(): string {
      reason.GetOr("Unknown")
    }
  }

  /** The oracle answers consumed while checking one dependency. */
  datatype ItemReplies = ItemReplies(search: SearchReply, scoring: Option<Assessment>)

  const AlertThreshold: real := 7.0

  predicate IsCritical(score: real) {
    score >= AlertThreshold
  }

  /** `if risk_data:` on the analyst's result, which is None or a dictionary. */
  predicate RiskPresent(risk: Option<Assessment>) {
    risk.Some? && risk.value.Truthy()
  }

  /** A present assessment whose score reaches the threshold. */
  predicate CriticalRisk(risk: Option<Assessment>) {
    RiskPresent(risk) && IsCritical(risk.value.Score())
  }
}
