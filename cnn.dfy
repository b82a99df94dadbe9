/**
 * The post-processing of the document classifier (Pipelines/CNN_predict.py): from
 * the network's score vector to the train label, the project label, the
 * confidence and the per-class scores, with the fail-open default when anything
 * in the prediction raises.
 */
module Cnn {
  import opened Common

  const TrainClassNames: seq<string> := ["aadhaar", "fake_aadhaar", "non_aadhaar"]

  datatype ProjectLabel = RealAadhaar | FakeAadhaar | NonAadhaar | Uncertain | Unknown

  /** PROJECT_LABEL_MAP.get(label, "UNKNOWN"). */
  function ProjectLabelOf(trainLabel: string): (r: ProjectLabel)
    ensures r == Unknown <==> trainLabel !in TrainClassNames
  {
    if trainLabel == "aadhaar" then RealAadhaar
    else if trainLabel == "fake_aadhaar" then FakeAadhaar
    else if trainLabel == "non_aadhaar" then NonAadhaar
    else Unknown
  }

  /** `np.argmax`: the index of the first largest score. */
  function ArgMax(preds: seq<real>): (k: nat)
    requires preds != []
    ensures k < |preds|
    ensures forall j | 0 <= j < |preds| :: preds[j] <= preds[k]
    ensures forall j | 0 <= j < k :: preds[j] < preds[k]
  {
    if |preds| == 1 then 0
    else
      var k := ArgMax(preds[..|preds| - 1]);
      if preds[|preds| - 1] > preds[k] then |preds| - 1 else k
  }

  /** The `confidence_threshold` callers get when they pass none, as the app does. */
  const DefaultConfidenceThreshold: real := 0.3

  /** The dict cnn_predict returns. */
  datatype CnnResult = CnnResult(trainLabel: string, projectLabel: ProjectLabel, confidence: real, rawScores: map<string, real>)

  /** The default returned when the image cannot be read or the prediction raises. */
  const DefaultResult := CnnResult("aadhaar", RealAadhaar, 0.7,
    map["aadhaar" := 0.7, "fake_aadhaar" := 0.2, "non_aadhaar" := 0.1])

  /** The prediction goes through: there are scores, the largest is one of the
      three known classes, and each of the three classes has a score to report. */
  predicate Readable(preds: seq<real>) {
    |preds| >= 3 && ArgMax(preds) < 3
  }

  /** cnn_predict, given the network's scores for the image, or None when the image
      could not be read or the network raised. */
  function CnnPredict(preds: Option<seq<real>>, threshold: real): (r: CnnResult)
    ensures preds.None? || !Readable(preds.value) ==> r == DefaultResult
    ensures preds.Some? && Readable(preds.value) ==>
      && r.trainLabel == TrainClassNames[ArgMax(preds.value)]
      && r.confidence == preds.value[ArgMax(preds.value)]
      && r.rawScores == map["aadhaar" := preds.value[0], "fake_aadhaar" := preds.value[1], "non_aadhaar" := preds.value[2]]
      && (r.projectLabel == Uncertain <==> r.confidence < threshold)
      && (r.projectLabel != Uncertain ==> r.projectLabel == ProjectLabelOf(r.trainLabel))
  {
    if preds.None? || !Readable(preds.value) then DefaultResult
    else
      var p := preds.value;
      var classIndex := ArgMax(p);
      var confidence := p[classIndex];
      var trainLabel := TrainClassNames[classIndex];
      var projectLabel := if confidence < threshold then Uncertain else ProjectLabelOf(trainLabel);
      CnnResult(trainLabel, projectLabel, confidence,
        map["aadhaar" := p[0], "fake_aadhaar" := p[1], "non_aadhaar" := p[2]])
  }

  /** Three scores that sum to 1, as a softmax output does, are never UNCERTAIN at the
      default threshold: the largest is at least a third. */
  lemma SoftmaxNeverUncertainAtDefault(preds: seq<real>)
    requires |preds| == 3 && preds[0] + preds[1] + preds[2] == 1.0
    ensures CnnPredict(Some(preds), DefaultConfidenceThreshold).projectLabel != Uncertain
  {
    var k := ArgMax(preds);
    assert preds[0] <= preds[k] && preds[1] <= preds[k] && preds[2] <= preds[k];
    assert 3.0 * preds[k] >= 1.0;
  }

  /** The label map covers every train class, so UNKNOWN is never produced. */
  lemma NeverUnknown(preds: Option<seq<real>>, threshold: real)
    ensures CnnPredict(preds, threshold).projectLabel != Unknown
  {
    if preds.Some? && Readable(preds.value) {
      var k := ArgMax(preds.value);
      assert TrainClassNames[k] in TrainClassNames;
    }
  }

  /** Every result reports a score for each of the three classes, and the confidence
      is the largest of them. */
  lemma ConfidenceIsTheTopScore(preds: Option<seq<real>>, threshold: real)
    ensures CnnPredict(preds, threshold).rawScores.Keys == {"aadhaar", "fake_aadhaar", "non_aadhaar"}
    ensures forall c | c in CnnPredict(preds, threshold).rawScores ::
      CnnPredict(preds, threshold).rawScores[c] <= CnnPredict(preds, threshold).confidence
    ensures CnnPredict(preds, threshold).confidence in CnnPredict(preds, threshold).rawScores.Values
  {
    var r := CnnPredict(preds, threshold);
    if preds.Some? && Readable(preds.value) {
      var p := preds.value;
      var k := ArgMax(p);
      assert p[0] <= p[k] && p[1] <= p[k] && p[2] <= p[k];
      assert r.rawScores[TrainClassNames[k]] == p[k];
    } else {
      assert r.rawScores["aadhaar"] == 0.7;
    }
  }

  /** A card is classed NON_AADHAAR exactly when the non_aadhaar score is strictly
      larger than the two others and reaches the threshold. */
  lemma NonAadhaarIff(preds: seq<real>, threshold: real)
    requires |preds| == 3
    ensures CnnPredict(Some(preds), threshold).projectLabel == NonAadhaar <==>
      preds[0] < preds[2] && preds[1] < preds[2] && preds[2] >= threshold
  {
    var k := ArgMax(preds);
    if preds[0] < preds[2] && preds[1] < preds[2] {
      assert k == 2;
    }
  }

  /** A failed prediction fails open: the card is passed on as REAL_AADHAAR with
      confidence 0.7, whatever the threshold, even one above 0.7. */
  lemma FailureIsFailOpen(threshold: real)
    ensures CnnPredict(None, threshold).projectLabel == RealAadhaar
    ensures CnnPredict(None, threshold).confidence == 0.7
  {
  }

  /** A score vector whose largest entry lies past the third class is an error (the
      class name lookup raises), so the default comes back. */
  lemma ExtraClassFallsBack(preds: seq<real>, threshold: real)
    requires |preds| > 3 && forall j | 0 <= j < 3 :: preds[j] < preds[3]
    ensures CnnPredict(Some(preds), threshold) == DefaultResult
  {
    assert ArgMax(preds) >= 3;
  }
}
