/**
 * Properties that span the stages of the pipeline (Pipelines/extract_Aadhaar.py
 * feeding Pipelines/rule_validator.py): whatever the extractor returns for a field
 * passes the validator's format check for that field, so a record the validator
 * rejects is one with a field the extractor could not find.
 */
module Pipeline {
  import opened Common
  import opened Text
  import opened Dates
  import opened Extract
  import opened QrValidator
  import opened Rules

  /** A four-digit value strictly between 1900 and 2025 is written 19xx or 20xx. */
  lemma BirthYearIsYearString(y: string)
    requires IsBirthYear(y)
    ensures IsYearString(y)
  {
    var d0, d1, d2, d3 := DigitValue(y[0]), DigitValue(y[1]), DigitValue(y[2]), DigitValue(y[3]);
    assert y[..1][..0] == [] && y[..2][..1] == y[..1] && y[..3][..2] == y[..2] && y[..4][..3] == y[..3];
    assert DigitsValue(y[..1]) == d0;
    assert DigitsValue(y[..2]) == d0 * 10 + d1;
    assert DigitsValue(y[..3]) == (d0 * 10 + d1) * 10 + d2;
    assert y[..4] == y;
    assert d0 * 10 + d1 == 19 || d0 * 10 + d1 == 20;
  }

  /** A date of birth found by the extractor is accepted by validate_dob: a full date
      comes back in DD/MM/YYYY, which strptime reads back to the same date, and a
      bare year matches the 19xx/20xx fallback. */
  lemma ExtractedDobIsValid(entries: seq<string>, dob: Option<string>)
    requires IsOldestDob(entries, dob)
    ensures ValidateDob(dob) <==> dob.Some?
  {
    var dates, years := AllDates(entries), AllYears(entries);
    if dates != [] {
      var dt :| dt in dates && dob == Some(FormatDmy(dt)) && forall e | e in dates :: Ordinal(dt) <= Ordinal(e);
      FormatParseRoundTrip(dt);
    } else if years != [] {
      BirthYearIsYearString(dob.value);
    }
  }

  /** The splitting of stuck names adds only spaces: a name line without digits
      stays without digits, and gains one token per split. */
  lemma SplitNameKeepsChecks(t: string)
    requires IsNameLine(t)
    ensures !HasDigit(SplitStuckName(t)) && WordCount(SplitStuckName(t)) >= 2
  {
    var r := SplitStuckName(t);
    SplitStuckNameWordCount(t, true);
    forall i | 0 <= i < |r|
      ensures !IsDigit(r[i])
    {
      assert r[i] in r;
    }
  }

  /** Every name candidate passes validate_name. */
  lemma {:induction false} CandidatesAreValidNames(lines: seq<string>)
    ensures forall c | c in NameCandidates(lines) :: ValidateName(Some(c))
  {
    if lines != [] {
      CandidatesAreValidNames(lines[..|lines| - 1]);
      var t := CleanText(lines[|lines| - 1]);
      if IsNameLine(t) {
        SplitNameKeepsChecks(t);
      }
    }
  }

  /** A name found by the extractor is accepted by validate_name. */
  lemma ExtractedNameIsValid(lines: seq<string>, name: Option<string>)
    requires IsLongestCandidate(NameCandidates(lines), name)
    ensures ValidateName(name) <==> name.Some?
  {
    CandidatesAreValidNames(lines);
    if name.Some? {
      assert name.value in NameCandidates(lines);
    }
  }

  /** A number found by the extractor in a text whose only whitespace is the plain
      space is accepted by validate_aadhaar. */
  lemma ExtractedNumberIsValid(fullText: string)
    requires forall c | c in fullText && IsSpace(c) :: c == ' '
    ensures ValidateAadhaar(AadhaarNumber(fullText)) <==> AadhaarNumber(fullText).Some?
  {
    AadhaarNumberShape(fullText);
  }

  /** For the record extract_fields returns, rule_validation fails a field exactly
      when the extractor did not find it (for the number: provided the recognised
      text holds no whitespace but plain spaces), and the verdict is valid exactly
      when nothing is missing and a number was found. */
  lemma ExtractedRecordValidation(flat: seq<string>, fields: ExtractedFields, qrStatus: QrStatus)
    requires IsOldestDob(flat, fields.dob)
    requires IsLongestCandidate(NameCandidates(flat), fields.name)
    requires fields.gender == ExtractGender(JoinWith(flat, " "))
    requires fields.aadhaarNumber == AadhaarNumber(JoinWith(flat, " "))
    requires forall c | c in JoinWith(flat, " ") && IsSpace(c) :: c == ' '
    ensures RuleValidation(fields, qrStatus).dobValid <==> fields.dob.Some?
    ensures RuleValidation(fields, qrStatus).nameValid <==> fields.name.Some?
    ensures RuleValidation(fields, qrStatus).genderValid <==> fields.gender.Some?
    ensures RuleValidation(fields, qrStatus).aadhaarValid <==> fields.aadhaarNumber.Some?
    ensures RuleValidation(fields, qrStatus).overallValid <==>
      RuleValidation(fields, qrStatus).missingFields == [] && fields.aadhaarNumber.Some?
  {
    ExtractedDobIsValid(flat, fields.dob);
    ExtractedNameIsValid(flat, fields.name);
    ExtractedNumberIsValid(JoinWith(flat, " "));
    MissingFieldsAreAbsentOnes(fields);
  }

  /** A name printed without its space, such as "RamjeetSingh", is a single token,
      so the line is dropped before the stuck-name split is reached, although the
      split would have made two tokens of it. */
  lemma StuckNameLineIsDropped(s: string)
    requires s != [] && StuckCount(s) >= 1
    requires forall i | 0 <= i < |s| :: !IsSpace(s[i])
    ensures !IsNameLine(s)
    ensures WordCount(SplitStuckName(s)) >= 2
  {
    SolidRuns(s, true);
    SplitStuckNameWordCount(s, true);
  }

  lemma RamjeetSinghIsDropped()
    ensures !IsNameLine("RamjeetSingh")
  {
    SolidRuns("RamjeetSingh", true);
  }
}
