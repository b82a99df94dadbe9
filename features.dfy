/**
 * The ML fraud model's input side (Pipelines/model_json.py): the 17-column
 * feature row built from a pipeline record, the alignment of that row to the
 * columns the trained model expects, and the fallback when prediction fails.
 * The trained classifier's `predict_proba` is an opaque partial function.
 */
module Features {
  import opened Common
  import opened QrValidator

  /** What json_to_model_input reads from the record; None where a key (or the
      whole sub-dict) is absent. */
  datatype MlRecord = MlRecord(
    aadhaarValid: Option<bool>,
    dobValid: Option<bool>,
    nameValid: Option<bool>,
    genderValid: Option<bool>,
    qrExpectedButFailed: Option<bool>,
    matchingPerformed: Option<bool>,
    consistencyScore: Option<real>,
    elaScore: Option<real>,
    edgeDensity: Option<real>,
    sharpness: Option<real>,
    ocrName: Option<string>,
    ocrDob: Option<string>,
    ocrGender: Option<string>,
    ocrAadhaar: Option<string>,
    qrStatus: Option<QrStatus>)

  /** A one-row frame: column names with their values, in column order. */
  type Frame = seq<(string, real)>

  const FeatureNames: seq<string> := [
    "aadhaar_valid", "dob_valid", "name_valid", "gender_valid", "qr_expected_but_failed",
    "qr_match", "consistency_score", "consistency_failed",
    "ela_score", "edge_density", "sharpness", "high_ela_flag", "low_sharpness_flag",
    "ocr_field_count", "missing_fields_ratio", "ocr_failure_count",
    "qr_decoded"]

  /** `1 if v else 0`. */
  function Flag(b: bool): real {
    if b then 1.0 else 0.0
  }

  function BoolOr(v: Option<bool>, default: bool): bool {
    if v.Some? then v.value else default
  }

  function RealOr(v: Option<real>, default: real): real {
    if v.Some? then v.value else default
  }

  /** The OCR values looked at, in the order name, dob, gender, aadhaar_number. */
  function OcrValues(rec: MlRecord): seq<Option<string>> {
    [rec.ocrName, rec.ocrDob, rec.ocrGender, rec.ocrAadhaar]
  }

  /** `sum(1 for v in vals if v)`. */
  function PresentCount(vals: seq<Option<string>>): (n: nat)
    ensures n <= |vals|
  {
    if vals == [] then 0
    else PresentCount(vals[..|vals| - 1]) + (if Truthy(vals[|vals| - 1]) then 1 else 0)
  }

  /** The row json_to_model_input builds, column by column. */
  function FeatureRow(rec: MlRecord): (row: Frame)
    ensures |row| == |FeatureNames|
    ensures forall i | 0 <= i < |row| :: row[i].0 == FeatureNames[i]
  {
    var cons := RealOr(rec.consistencyScore, 0.0);
    var ela := RealOr(rec.elaScore, 0.0);
    var sharp := RealOr(rec.sharpness, 0.0);
    var present := PresentCount(OcrValues(rec));
    [("aadhaar_valid", Flag(BoolOr(rec.aadhaarValid, false))),
     ("dob_valid", Flag(BoolOr(rec.dobValid, false))),
     ("name_valid", Flag(BoolOr(rec.nameValid, false))),
     ("gender_valid", Flag(BoolOr(rec.genderValid, false))),
     ("qr_expected_but_failed", Flag(BoolOr(rec.qrExpectedButFailed, false))),
     ("qr_match", Flag(BoolOr(rec.matchingPerformed, false))),
     ("consistency_score", cons),
     ("consistency_failed", Flag(cons < 0.5)),
     ("ela_score", ela),
     ("edge_density", RealOr(rec.edgeDensity, 0.0)),
     ("sharpness", sharp),
     ("high_ela_flag", Flag(ela > 0.8)),
     ("low_sharpness_flag", Flag(sharp < 50.0)),
     ("ocr_field_count", present as real),
     ("missing_fields_ratio", (4 - present) as real / 4.0),
     ("ocr_failure_count", (4 - present) as real),
     ("qr_decoded", Flag(BoolOr(if rec.qrStatus.Some? then Some(rec.qrStatus.value == Decoded) else None, false)))]
  }

  /** The `# Validation` columns. */
  function ValidationColumns(rec: MlRecord): Frame {
    [("aadhaar_valid", Flag(BoolOr(rec.aadhaarValid, false))),
     ("dob_valid", Flag(BoolOr(rec.dobValid, false))),
     ("name_valid", Flag(BoolOr(rec.nameValid, false))),
     ("gender_valid", Flag(BoolOr(rec.genderValid, false))),
     ("qr_expected_but_failed", Flag(BoolOr(rec.qrExpectedButFailed, false)))]
  }

  /** The `# Consistency` columns. */
  function ConsistencyColumns(rec: MlRecord): Frame {
    var cons := RealOr(rec.consistencyScore, 0.0);
    [("qr_match", Flag(BoolOr(rec.matchingPerformed, false))),
     ("consistency_score", cons),
     ("consistency_failed", Flag(cons < 0.5))]
  }

  /** The `# Forensics` columns. */
  function ForensicColumns(rec: MlRecord): Frame {
    var ela := RealOr(rec.elaScore, 0.0);
    var sharp := RealOr(rec.sharpness, 0.0);
    [("ela_score", ela),
     ("edge_density", RealOr(rec.edgeDensity, 0.0)),
     ("sharpness", sharp),
     ("high_ela_flag", Flag(ela > 0.8)),
     ("low_sharpness_flag", Flag(sharp < 50.0))]
  }

  /** The `# OCR` columns for a count of present fields. */
  function OcrColumns(present: nat): Frame {
    [("ocr_field_count", present as real),
     ("missing_fields_ratio", (4 - present) as real / 4.0),
     ("ocr_failure_count", (4 - present) as real)]
  }

  lemma FeatureRowSections(rec: MlRecord)
    ensures FeatureRow(rec) == ValidationColumns(rec) + ConsistencyColumns(rec) + ForensicColumns(rec)
      + OcrColumns(PresentCount(OcrValues(rec)))
      + [("qr_decoded", Flag(BoolOr(if rec.qrStatus.Some? then Some(rec.qrStatus.value == Decoded) else None, false)))]
  {
  }

  /** The validation part of json_to_model_input. */
  method AddValidationColumns(rec: MlRecord) returns (cols: Frame)
    ensures cols == ValidationColumns(rec)
  {
    cols := [("aadhaar_valid", if BoolOr(rec.aadhaarValid, false) then 1.0 else 0.0)];
    cols := cols + [("dob_valid", if BoolOr(rec.dobValid, false) then 1.0 else 0.0)];
    cols := cols + [("name_valid", if BoolOr(rec.nameValid, false) then 1.0 else 0.0)];
    cols := cols + [("gender_valid", if BoolOr(rec.genderValid, false) then 1.0 else 0.0)];
    cols := cols + [("qr_expected_but_failed", if BoolOr(rec.qrExpectedButFailed, false) then 1.0 else 0.0)];
  }

  /** The consistency part of json_to_model_input. */
  method AddConsistencyColumns(rec: MlRecord) returns (cols: Frame)
    ensures cols == ConsistencyColumns(rec)
  {
    cols := [("qr_match", if BoolOr(rec.matchingPerformed, false) then 1.0 else 0.0)];
    var consistencyScore := RealOr(rec.consistencyScore, 0.0);
    cols := cols + [("consistency_score", consistencyScore)];
    cols := cols + [("consistency_failed", if consistencyScore < 0.5 then 1.0 else 0.0)];
  }

  /** The forensics part of json_to_model_input. */
  method AddForensicColumns(rec: MlRecord) returns (cols: Frame)
    ensures cols == ForensicColumns(rec)
  {
    var elaScore := RealOr(rec.elaScore, 0.0);
    var sharpness := RealOr(rec.sharpness, 0.0);
    cols := [("ela_score", elaScore)];
    cols := cols + [("edge_density", RealOr(rec.edgeDensity, 0.0))];
    cols := cols + [("sharpness", sharpness)];
    cols := cols + [("high_ela_flag", if elaScore > 0.8 then 1.0 else 0.0)];
    cols := cols + [("low_sharpness_flag", if sharpness < 50.0 then 1.0 else 0.0)];
  }

  /** The count of present OCR fields, counted one value at a time. */
  method CountPresent(vals: seq<Option<string>>) returns (n: nat)
    ensures n == PresentCount(vals)
  {
    n := 0;
    for i := 0 to |vals|
      invariant n == PresentCount(vals[..i])
    {
      assert vals[..i + 1][..i] == vals[..i];
      if Truthy(vals[i]) {
        n := n + 1;
      }
    }
    assert vals[..|vals|] == vals;
  }

  /** json_to_model_input. */
  method JsonToModelInput(rec: MlRecord) returns (row: Frame)
    ensures row == FeatureRow(rec)
  {
    var validation := AddValidationColumns(rec);
    var consistency := AddConsistencyColumns(rec);
    var forensics := AddForensicColumns(rec);
    var presentFields := CountPresent([rec.ocrName, rec.ocrDob, rec.ocrGender, rec.ocrAadhaar]);
    var ocr := [("ocr_field_count", presentFields as real),
                ("missing_fields_ratio", (4 - presentFields) as real / 4.0),
                ("ocr_failure_count", (4 - presentFields) as real)];
    var qrStatus := if rec.qrStatus.Some? then rec.qrStatus.value else NotDetected;
    row := validation + consistency + forensics + ocr + [("qr_decoded", if qrStatus == Decoded then 1.0 else 0.0)];
    FeatureRowSections(rec);
  }

  /** The indices of the 0/1 columns. */
  const FlagColumns: set<nat> := {0, 1, 2, 3, 4, 5, 7, 11, 12, 16}

  /** The promises of the feature row: every flag column is 0 or 1; the failure flag
      is set exactly below 0.5 (so a missing score, read as 0.0, counts as failed);
      the field count and the failure count add up to 4 and the ratio is the
      failure count over 4, between 0 and 1; the image flags follow their
      thresholds; qr_decoded is set exactly for a decoded QR. */
  lemma FeatureRowProperties(rec: MlRecord)
    ensures forall i | i in FlagColumns :: FeatureRow(rec)[i].1 == 0.0 || FeatureRow(rec)[i].1 == 1.0
    ensures FeatureRow(rec)[7].1 == 1.0 <==> FeatureRow(rec)[6].1 < 0.5
    ensures rec.consistencyScore.None? ==> FeatureRow(rec)[7].1 == 1.0
    ensures FeatureRow(rec)[13].1 + FeatureRow(rec)[15].1 == 4.0
    ensures FeatureRow(rec)[14].1 == FeatureRow(rec)[15].1 / 4.0
    ensures 0.0 <= FeatureRow(rec)[14].1 <= 1.0
    ensures FeatureRow(rec)[11].1 == 1.0 <==> FeatureRow(rec)[8].1 > 0.8
    ensures FeatureRow(rec)[12].1 == 1.0 <==> FeatureRow(rec)[10].1 < 50.0
    ensures FeatureRow(rec)[16].1 == 1.0 <==> rec.qrStatus == Some(Decoded)
  {
    var present := PresentCount(OcrValues(rec));
    assert present <= 4;
  }

  // ---------------------------------------------------------------------------
  // column alignment

  /** `df[name]`: the value of the last column of that name, if any. */
  function Lookup(frame: Frame, name: string): Option<real> {
    if frame == [] then None
    else if frame[|frame| - 1].0 == name then Some(frame[|frame| - 1].1)
    else Lookup(frame[..|frame| - 1], name)
  }

  /** A column the row has keeps its value; one it lacks is 0. */
  function ColumnOrZero(row: Frame, name: string): real {
    var v := Lookup(row, name);
    if v.Some? then v.value else 0.0
  }

  /** The frame handed to the model: with no declared feature names the row as it
      is; otherwise exactly the declared columns, in the declared order, those the
      row lacks filled with 0 and the row's other columns dropped. */
  function AlignedFrame(row: Frame, names: Option<seq<string>>): (frame: Frame)
    ensures names.None? ==> frame == row
    ensures names.Some? ==> |frame| == |names.value|
    ensures names.Some? ==> forall i | 0 <= i < |frame| :: frame[i] == (names.value[i], ColumnOrZero(row, names.value[i]))
  {
    if names.None? then row
    else seq(|names.value|, i requires 0 <= i < |names.value| => (names.value[i], ColumnOrZero(row, names.value[i])))
  }

  /** The alignment step of predict_fraud: add each missing declared column as 0,
      then select the declared columns in order. */
  method AlignColumns(row: Frame, names: Option<seq<string>>) returns (frame: Frame)
    ensures frame == AlignedFrame(row, names)
  {
    if names.None? {
      return row;
    }
    var cols := names.value;
    var df := row;
    for i := 0 to |cols|
      invariant forall j | 0 <= j < i :: Lookup(df, cols[j]).Some?
      invariant forall n :: Lookup(row, n).Some? ==> Lookup(df, n).Some?
      invariant forall n :: Lookup(df, n).Some? ==> Lookup(df, n).value == ColumnOrZero(row, n)
    {
      if Lookup(df, cols[i]).None? {
        df := df + [(cols[i], 0.0)];
        assert df[..|df| - 1] + [(cols[i], 0.0)] == df;
      }
    }
    frame := [];
    for k := 0 to |cols|
      invariant |frame| == k
      invariant forall j | 0 <= j < k :: frame[j] == (cols[j], ColumnOrZero(row, cols[j]))
    {
      frame := frame + [(cols[k], Lookup(df, cols[k]).value)];
    }
  }

  // ---------------------------------------------------------------------------
  // predict_fraud

  /** The trained classifier as far as predict_fraud uses it: the column names it
      was fitted on, when it declares them. */
  datatype MlModel = MlModel(featureNames: Option<seq<string>>)

  /** `model.predict_proba(df)[0][1]`: the probability of the fraud class for the
      one-row frame, None where the call raises. */
  type Proba = Frame -> Option<real>

  datatype MlLabel = MlReal | MlFake
  datatype ModelStatus = Success | Failed

  /** The dict predict_fraud returns. */
  datatype MlResult = MlResult(prediction: MlLabel, fraudProbability: real, status: ModelStatus)

  const FailedResult := MlResult(MlReal, 0.0, Failed)

  /** The `threshold` callers get when they pass none, as the app does. */
  const DefaultFraudThreshold: real := 0.5

  /** predict_fraud. A missing model (None) fails like a model that raises. */
  method PredictFraud(model: Option<MlModel>, proba: Proba, rec: MlRecord, threshold: real) returns (r: MlResult)
    ensures model.None? ==> r == FailedResult
    ensures model.Some? ==>
      var p := proba(AlignedFrame(FeatureRow(rec), model.value.featureNames));
      r == if p.None? then FailedResult else MlResult(if p.value >= threshold then MlFake else MlReal, p.value, Success)
    ensures r.prediction == MlFake <==> r.status == Success && r.fraudProbability >= threshold
    ensures r.status == Failed ==> r == FailedResult
  {
    var features := JsonToModelInput(rec);
    if model.None? {
      return FailedResult;
    }
    var df := AlignColumns(features, model.value.featureNames);
    var prob := proba(df);
    if prob.None? {
      return FailedResult;
    }
    return MlResult(if prob.value >= threshold then MlFake else MlReal, prob.value, Success);
  }
}
