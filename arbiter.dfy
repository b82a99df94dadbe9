/**
 * The final arbiter (Pipelines/final_decision.py): combines the classifier's
 * project label, the ML fraud model's prediction and, optionally, the rule-based
 * decision into one verdict.
 */
module Arbiter {
  import opened Common
  import opened Cnn
  import opened Features
  import opened FraudRules

  datatype FinalVerdict = Rejected | Fraud | SuspiciousVerdict | AcceptedVerdict

  /** The dict make_final_decision returns: a REJECTED verdict carries the
      classifier's confidence, every other verdict the ML fraud probability. */
  datatype FinalDecision = FinalDecision(verdict: FinalVerdict, reason: string,
                                         confidence: Option<real>, fraudProbability: Option<real>)

  /** `fraud_rule_out.get("decision")`, None without a rule-based assessment. */
  function RuleDecisionOf(rule: Option<FraudAssessment>): Option<RuleDecision> {
    if rule.Some? then Some(rule.value.decision) else None
  }

  /** The two models point different ways: a forged-looking card with clean data, or
      a genuine-looking card with inconsistent data. */
  predicate Conflicting(cnn: CnnResult, ml: MlResult) {
    (cnn.projectLabel == FakeAadhaar && ml.prediction == MlReal)
    || (cnn.projectLabel == RealAadhaar && ml.prediction == MlFake)
  }

  /** make_final_decision. */
  function MakeFinalDecision(cnn: CnnResult, ml: MlResult, rule: Option<FraudAssessment>): (r: FinalDecision)
    ensures r.verdict == Rejected <==> cnn.projectLabel == NonAadhaar
    ensures r.verdict == Fraud <==> cnn.projectLabel == FakeAadhaar && ml.prediction == MlFake
    ensures r.verdict == SuspiciousVerdict <==>
      cnn.projectLabel != NonAadhaar && !(cnn.projectLabel == FakeAadhaar && ml.prediction == MlFake)
      && (Conflicting(cnn, ml) || RuleDecisionOf(rule) == Some(Suspicious))
    ensures r.verdict == Rejected ==> r.confidence == Some(cnn.confidence) && r.fraudProbability.None?
    ensures r.verdict != Rejected ==> r.fraudProbability == Some(ml.fraudProbability) && r.confidence.None?
  {
    var ruleDecision := RuleDecisionOf(rule);
    if cnn.projectLabel == NonAadhaar then
      FinalDecision(Rejected, "Document is not Aadhaar", Some(cnn.confidence), None)
    else if cnn.projectLabel == FakeAadhaar && ml.prediction == MlFake then
      FinalDecision(Fraud, "Visual forgery + data inconsistency", None, Some(ml.fraudProbability))
    else if Conflicting(cnn, ml) || ruleDecision == Some(Suspicious) then
      FinalDecision(SuspiciousVerdict, "Conflicting fraud signals", None, Some(ml.fraudProbability))
    else
      FinalDecision(AcceptedVerdict, "No fraud indicators detected", None, Some(ml.fraudProbability))
  }

  /** Only a rule decision of SUSPICIOUS is looked at: FAKE (and ACCEPTED) from the
      rule-based scorer decide exactly what no rule-based assessment decides. */
  lemma RuleFakeIsIgnored(cnn: CnnResult, ml: MlResult, rule: FraudAssessment)
    requires rule.decision != Suspicious
    ensures MakeFinalDecision(cnn, ml, Some(rule)) == MakeFinalDecision(cnn, ml, None)
  {
  }

  /** A low-confidence (UNCERTAIN) or unmapped (UNKNOWN) classification is accepted
      unless the rule-based scorer says SUSPICIOUS, whatever the ML model says. */
  lemma UncertainIsAccepted(cnn: CnnResult, ml: MlResult, rule: Option<FraudAssessment>)
    requires cnn.projectLabel == Uncertain || cnn.projectLabel == Unknown
    ensures MakeFinalDecision(cnn, ml, rule).verdict ==
      if RuleDecisionOf(rule) == Some(Suspicious) then SuspiciousVerdict else AcceptedVerdict
  {
  }

  /** A card the rule-based scorer calls FAKE with a failed ML model and a failed
      classifier is ACCEPTED: both models fail open and the FAKE is not read. */
  lemma FailuresAreFailOpen(rule: FraudAssessment, threshold: real)
    requires rule.decision == Fake
    ensures MakeFinalDecision(CnnPredict(None, threshold), FailedResult, Some(rule)).verdict == AcceptedVerdict
  {
    FailureIsFailOpen(threshold);
  }

  /** A verdict of FRAUD needs both models to agree; a failed ML model never leads
      to FRAUD. */
  lemma FraudNeedsBothModels(cnn: CnnResult, rule: Option<FraudAssessment>)
    ensures MakeFinalDecision(cnn, FailedResult, rule).verdict != Fraud
  {
  }
}
