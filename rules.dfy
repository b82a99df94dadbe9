/**
 * The rule validator (Pipelines/rule_validator.py): format checks on each
 * extracted field, the list of missing fields and the overall verdict.
 */
module Rules {
  import opened Common
  import opened Text
  import opened Dates
  import opened Extract
  import opened QrValidator

  /** validate_aadhaar: non-empty and `re.fullmatch(r"\d{12}", ...)`. */
  function ValidateAadhaar(aadhaar: Option<string>): (r: bool)
    ensures r <==> aadhaar.Some? && |aadhaar.value| == 12 && AllDigits(aadhaar.value)
  {
    if !Truthy(aadhaar) then false
    else |aadhaar.value| == 12 && AllDigits(aadhaar.value)
  }

  /** `re.fullmatch(r"(19\d{2}|20\d{2})", s)`. */
  predicate IsYearString(s: string) {
    |s| == 4 && ((s[0] == '1' && s[1] == '9') || (s[0] == '2' && s[1] == '0')) && IsDigit(s[2]) && IsDigit(s[3])
  }

  /** validate_dob: a non-empty value that `strptime(..., "%d/%m/%Y")` accepts, or
      failing that a bare 19xx or 20xx year. */
  function ValidateDob(dob: Option<string>): (r: bool)
    ensures r ==> dob.Some? && dob.value != []
    ensures r <==> dob.Some? && (ParseDmy(dob.value).Some? || IsYearString(dob.value))
  {
    if !Truthy(dob) then false
    else if ParseDmy(dob.value).Some? then true
    else IsYearString(dob.value)
  }

  /** validate_name: non-empty, no digit, at least two whitespace-separated tokens. */
  function ValidateName(name: Option<string>): (r: bool)
    ensures r <==> name.Some? && !HasDigit(name.value) && WordCount(name.value) >= 2
  {
    if !Truthy(name) then false
    else if HasDigit(name.value) then false
    else if WordCount(name.value) < 2 then false
    else true
  }

  /** validate_gender: exactly "Male" or "Female". */
  function ValidateGender(gender: Option<string>): (r: bool)
    ensures r <==> gender == Some("Male") || gender == Some("Female")
  {
    gender in [Some("Male"), Some("Female")]
  }

  /** `fields.items()` for the record extract_fields returns, in its key order. */
  function FieldItems(f: ExtractedFields): seq<(string, Option<string>)> {
    [("name", f.name), ("dob", f.dob), ("gender", f.gender), ("aadhaar_number", f.aadhaarNumber)]
  }

  /** `[k for k, v in items if v is None and k != "aadhaar_number"]`. */
  function MissingKeys(items: seq<(string, Option<string>)>): (r: seq<string>)
    ensures forall k | k in r :: k != "aadhaar_number"
    ensures |r| <= |items|
  {
    if items == [] then []
    else
      var rest := MissingKeys(items[1..]);
      if items[0].1.None? && items[0].0 != "aadhaar_number" then [items[0].0] + rest else rest
  }

  /** The dict rule_validation returns. */
  datatype ValidationResult = ValidationResult(
    aadhaarValid: bool,
    dobValid: bool,
    nameValid: bool,
    genderValid: bool,
    missingFields: seq<string>,
    overallValid: bool,
    qrExpectedButFailed: bool)

  /** rule_validation. */
  function RuleValidation(fields: ExtractedFields, qrStatus: QrStatus): (r: ValidationResult)
    ensures r.overallValid <==> r.aadhaarValid && r.dobValid && r.nameValid && r.genderValid
    ensures r.qrExpectedButFailed <==> qrStatus == LikelyPresentButUnreadable
    ensures r.missingFields == MissingKeys(FieldItems(fields))
  {
    var aadhaarValid := ValidateAadhaar(fields.aadhaarNumber);
    var dobValid := ValidateDob(fields.dob);
    var nameValid := ValidateName(fields.name);
    var genderValid := ValidateGender(fields.gender);
    ValidationResult(
      aadhaarValid, dobValid, nameValid, genderValid,
      MissingKeys(FieldItems(fields)),
      aadhaarValid && dobValid && nameValid && genderValid,
      qrStatus == LikelyPresentButUnreadable)
  }

  /** The missing fields are the absent ones among name, dob and gender, in that
      order; an empty string is present, and the number is never listed. */
  lemma MissingFieldsAreAbsentOnes(f: ExtractedFields)
    ensures MissingKeys(FieldItems(f)) ==
      (if f.name.None? then ["name"] else []) + (if f.dob.None? then ["dob"] else [])
      + (if f.gender.None? then ["gender"] else [])
  {
    var items := FieldItems(f);
    var last := [("aadhaar_number", f.aadhaarNumber)];
    assert last[1..] == [];
    assert MissingKeys(last) == [];
    var i3 := [("gender", f.gender)] + last;
    assert i3[1..] == last;
    assert "gender" != "aadhaar_number";
    var gs: seq<string> := if f.gender.None? then ["gender"] else [];
    assert MissingKeys(i3) == gs;
    var i2 := [("dob", f.dob)] + i3;
    assert i2[1..] == i3;
    assert "dob" != "aadhaar_number";
    var ds: seq<string> := if f.dob.None? then ["dob"] else [];
    assert MissingKeys(i2) == ds + gs;
    assert items[1..] == i2;
    assert "name" != "aadhaar_number";
    var ns: seq<string> := if f.name.None? then ["name"] else [];
    assert MissingKeys(items) == ns + (ds + gs);
  }

  /** A record that passes every check has no missing field. */
  lemma ValidMeansNothingMissing(f: ExtractedFields, qrStatus: QrStatus)
    requires RuleValidation(f, qrStatus).overallValid
    ensures RuleValidation(f, qrStatus).missingFields == []
  {
    MissingFieldsAreAbsentOnes(f);
  }

  /** A bare year is never a `DD/MM/YYYY` date, so the fallback is what accepts it. */
  lemma YearIsNotAFullDate(s: string)
    requires IsYearString(s)
    ensures ParseDmy(s).None? && ValidateDob(Some(s))
  {
    assert '/' !in s;
    SplitCount(s, '/');
  }
}
