/**
 * The rule-based fraud scorer (Pipelines/fraud_assement.py): adds up penalties for
 * an invalid number, an unreadable QR, an OCR/QR disagreement and suspected
 * tampering, turns the total into ACCEPTED / SUSPICIOUS / FAKE, and overrides
 * the verdict when both the number and the name disagree with the QR.
 */
module FraudRules {
  import opened Common
  import opened Text
  import Rules
  import Consistency
  import Forensics

  /** What assess_fraud reads from its input dicts, each None when the key is
      absent (then the `.get` default applies). */
  datatype FraudSignals = FraudSignals(
    aadhaarValid: Option<bool>,
    qrExpectedButFailed: Option<bool>,
    consistencyScore: Option<real>,
    consistencyReason: Option<string>,
    tamperingSuspected: Option<bool>)

  datatype RuleDecision = Accepted | Suspicious | Fake

  /** The dict assess_fraud returns. */
  datatype FraudAssessment = FraudAssessment(fraudScore: int, decision: RuleDecision, reasons: seq<string>)

  function GetOr<T>(v: Option<T>, default: T): T {
    if v.Some? then v.value else default
  }

  /** The signals of one run of the pipeline: every key is present. */
  function SignalsOf(validation: Rules.ValidationResult, consistency: Consistency.ConsistencyResult,
                     forensics: Forensics.ForensicReport): FraudSignals
  {
    FraudSignals(
      Some(validation.aadhaarValid), Some(validation.qrExpectedButFailed),
      Some(consistency.score), Some(consistency.reason), Some(forensics.tamperingSuspected))
  }

  predicate InvalidId(s: FraudSignals) { !GetOr(s.aadhaarValid, true) }
  predicate QrFailed(s: FraudSignals) { GetOr(s.qrExpectedButFailed, false) }
  predicate Tampered(s: FraudSignals) { GetOr(s.tamperingSuspected, false) }
  function ConsScore(s: FraudSignals): real { GetOr(s.consistencyScore, 1.0) }
  function ConsReason(s: FraudSignals): string { GetOr(s.consistencyReason, "") }

  /** The special rule: the consistency reason names both a number and a name mismatch. */
  predicate DoubleMismatch(s: FraudSignals) {
    Contains(ConsReason(s), "Aadhaar Number mismatch") && Contains(ConsReason(s), "Name mismatch")
  }

  /** The penalty total before the special rule: 20 for an invalid number, 20 for an
      unreadable QR, 100 for a consistency score of 0.0 or 30 for 0.5, 15 for
      suspected tampering. */
  function Penalty(s: FraudSignals): (p: int)
    ensures 0 <= p <= 155
  {
    (if InvalidId(s) then 20 else 0)
    + (if QrFailed(s) then 20 else 0)
    + (if ConsScore(s) == 0.0 then 100 else if ConsScore(s) == 0.5 then 30 else 0)
    + (if Tampered(s) then 15 else 0)
  }

  /** The reasons, one per rule that fired, in rule order: the invalid number first,
      then the unreadable QR, then the consistency reason, then tampering, and the
      double-mismatch flag last. */
  function Reasons(s: FraudSignals): (r: seq<string>)
    ensures |r| == (if InvalidId(s) then 1 else 0) + (if QrFailed(s) then 1 else 0)
      + (if ConsScore(s) == 0.0 || ConsScore(s) == 0.5 then 1 else 0) + (if Tampered(s) then 1 else 0)
      + (if DoubleMismatch(s) then 1 else 0)
    ensures var k1 := if InvalidId(s) then 1 else 0;
      var k2 := k1 + (if QrFailed(s) then 1 else 0);
      var k3 := k2 + (if ConsScore(s) == 0.0 || ConsScore(s) == 0.5 then 1 else 0);
      && (InvalidId(s) ==> r[0] == "Invalid Aadhaar Format")
      && (QrFailed(s) ==> r[k1] == "QR Code Unreadable")
      && (ConsScore(s) == 0.0 ==> r[k2] == "DATA MISMATCH: " + ConsReason(s))
      && (ConsScore(s) == 0.5 ==> r[k2] == ConsReason(s))
      && (Tampered(s) ==> r[k3] == "Digital Tampering Detected")
      && (DoubleMismatch(s) ==> r[|r| - 1] == "Flagged as Suspicious due to double mismatch")
  {
    (if InvalidId(s) then ["Invalid Aadhaar Format"] else [])
    + (if QrFailed(s) then ["QR Code Unreadable"] else [])
    + (if ConsScore(s) == 0.0 then ["DATA MISMATCH: " + ConsReason(s)]
       else if ConsScore(s) == 0.5 then [ConsReason(s)] else [])
    + (if Tampered(s) then ["Digital Tampering Detected"] else [])
    + (if DoubleMismatch(s) then ["Flagged as Suspicious due to double mismatch"] else [])
  }

  /** A rule's reason text is not evidence that the rule fired: at consistency
      score 0.5 the consistency reason is copied verbatim, so it can spell any
      other rule's message. */
  lemma EchoedReasonIsNotARule()
    ensures var s := FraudSignals(Some(true), Some(false), Some(0.5), Some("Invalid Aadhaar Format"), Some(false));
      !InvalidId(s) && "Invalid Aadhaar Format" in Reasons(s)
  {
  }

  /** The verdict a score earns: FAKE from 60, SUSPICIOUS from 25, else ACCEPTED. */
  function Band(score: int): RuleDecision {
    if score >= 60 then Fake else if score >= 25 then Suspicious else Accepted
  }

  /** What assess_fraud returns, as a function of the signals. */
  function FraudOf(s: FraudSignals): (r: FraudAssessment)
    ensures 0 <= r.fraudScore <= 100
    ensures DoubleMismatch(s) ==> r.fraudScore == 45 && r.decision == Suspicious
    ensures !DoubleMismatch(s) ==> r.decision == Band(Penalty(s))
    ensures !DoubleMismatch(s) ==> r.fraudScore == if Penalty(s) > 100 then 100 else Penalty(s)
  {
    var score := if DoubleMismatch(s) then 45 else Penalty(s);
    FraudAssessment(
      if score > 100 then 100 else score,
      if DoubleMismatch(s) then Suspicious else Band(Penalty(s)),
      Reasons(s))
  }

  /** assess_fraud. The `qr` argument of the source is never read. */
  method AssessFraud(s: FraudSignals) returns (r: FraudAssessment)
    ensures r == FraudOf(s)
  {
    var reasons: seq<string> := [];
    var fraudScore := 0;
    var decision := Accepted;

    if !GetOr(s.aadhaarValid, true) {
      fraudScore := fraudScore + 20;
      reasons := reasons + ["Invalid Aadhaar Format"];
    }
    if GetOr(s.qrExpectedButFailed, false) {
      fraudScore := fraudScore + 20;
      reasons := reasons + ["QR Code Unreadable"];
    }
    ghost var validationReasons := reasons;
    assert validationReasons == (if InvalidId(s) then ["Invalid Aadhaar Format"] else [])
      + (if QrFailed(s) then ["QR Code Unreadable"] else []);

    var consScore := GetOr(s.consistencyScore, 1.0);
    var consReason := GetOr(s.consistencyReason, "");
    if consScore == 0.0 {
      fraudScore := fraudScore + 100;
      reasons := reasons + ["DATA MISMATCH: " + consReason];
      decision := Fake;
    } else if consScore == 0.5 {
      fraudScore := fraudScore + 30;
      reasons := reasons + [consReason];
    }
    ghost var consistencyReasons := reasons;
    assert consistencyReasons == validationReasons
      + (if ConsScore(s) == 0.0 then ["DATA MISMATCH: " + ConsReason(s)]
         else if ConsScore(s) == 0.5 then [ConsReason(s)] else []);

    if GetOr(s.tamperingSuspected, false) {
      fraudScore := fraudScore + 15;
      reasons := reasons + ["Digital Tampering Detected"];
    }
    assert fraudScore == Penalty(s);
    assert reasons == consistencyReasons + (if Tampered(s) then ["Digital Tampering Detected"] else []);

    if fraudScore >= 60 {
      decision := Fake;
    } else if fraudScore >= 25 {
      decision := Suspicious;
    }
    // a score of 100 or more was reached only through the consistency rule,
    // which already set FAKE; below 60 that rule did not fire
    assert decision == Band(fraudScore);

    if Contains(consReason, "Aadhaar Number mismatch") && Contains(consReason, "Name mismatch") {
      decision := Suspicious;
      fraudScore := 45;
      reasons := reasons + ["Flagged as Suspicious due to double mismatch"];
    }
    assert reasons == Reasons(s);

    return FraudAssessment(if fraudScore < 100 then fraudScore else 100, decision, reasons);
  }

  /** With every key absent the card is accepted with a score of 0 and no reasons. */
  lemma MissingKeysAddNothing()
    ensures FraudOf(FraudSignals(None, None, None, None, None)) == FraudAssessment(0, Accepted, [])
  {
    var s := FraudSignals(None, None, None, None, None);
    assert !Contains("", "Aadhaar Number mismatch");
  }

  /** Suspected tampering alone (15) or an invalid number alone (20) stays below the
      SUSPICIOUS band; the two together (35) reach it. */
  lemma SingleWeakSignalIsAccepted(s: FraudSignals)
    requires ConsScore(s) != 0.0 && ConsScore(s) != 0.5 && !QrFailed(s) && !DoubleMismatch(s)
    ensures !(InvalidId(s) && Tampered(s)) ==> FraudOf(s).decision == Accepted
    ensures InvalidId(s) && Tampered(s) ==> FraudOf(s).decision == Suspicious && FraudOf(s).fraudScore == 35
  {
  }

  /** A disagreement with the QR (score 0.0) makes the card FAKE with the capped
      score of 100, unless both the number and the name disagree. */
  lemma MismatchIsFake(s: FraudSignals)
    requires ConsScore(s) == 0.0 && !DoubleMismatch(s)
    ensures FraudOf(s).decision == Fake && FraudOf(s).fraudScore == 100
    ensures "DATA MISMATCH: " + ConsReason(s) in FraudOf(s).reasons
  {
    var r := Reasons(s);
    var pre := (if InvalidId(s) then ["Invalid Aadhaar Format"] else [])
      + (if QrFailed(s) then ["QR Code Unreadable"] else []);
    assert r == pre + ["DATA MISMATCH: " + ConsReason(s)] + (if Tampered(s) then ["Digital Tampering Detected"] else []);
    assert r[|pre|] == "DATA MISMATCH: " + ConsReason(s);
  }

  /** An unreadable QR (score 0.5, +30) is SUSPICIOUS by itself, and FAKE with an
      invalid number and a failed QR read on top (70). */
  lemma UnreadQrBands(s: FraudSignals)
    requires ConsScore(s) == 0.5 && !DoubleMismatch(s)
    ensures !InvalidId(s) && !QrFailed(s) ==> FraudOf(s).decision == Suspicious
    ensures InvalidId(s) && QrFailed(s) ==> FraudOf(s).decision == Fake && FraudOf(s).fraudScore == 70 + (if Tampered(s) then 15 else 0)
  {
  }

  /** On a run of the pipeline, a number mismatch together with a name mismatch turns
      the would-be FAKE into SUSPICIOUS with score 45. */
  lemma DoubleMismatchOverridesFake(validation: Rules.ValidationResult, consistency: Consistency.ConsistencyResult,
                                    forensics: Forensics.ForensicReport)
    requires Contains(consistency.reason, "Aadhaar Number mismatch") && Contains(consistency.reason, "Name mismatch")
    ensures FraudOf(SignalsOf(validation, consistency, forensics)).decision == Suspicious
    ensures FraudOf(SignalsOf(validation, consistency, forensics)).fraudScore == 45
    ensures "Flagged as Suspicious due to double mismatch" in FraudOf(SignalsOf(validation, consistency, forensics)).reasons
  {
    var s := SignalsOf(validation, consistency, forensics);
    var r := Reasons(s);
    assert r[|r| - 1] == "Flagged as Suspicious due to double mismatch";
  }
}
