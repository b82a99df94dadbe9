# Aadhaar verification pipeline — a Dafny model

This project models the decision pipeline that checks an uploaded Aadhaar card
image. The pipeline has these stages:

1. **OCR field extraction.** Regular-expression scanning turns the recognised text
   lines into a name, a date of birth, a gender and a 12-digit Aadhaar number.
2. **QR parsing.** A cascade tries an XML-attribute parser, then a pipe-delimited
   parser, then the secure-QR decoder, and finally falls back to the raw text. The
   QR status is one of DECODED, LIKELY_PRESENT_BUT_UNREADABLE or NOT_DETECTED.
3. **Rule validation.** Format checks run on each extracted field. The stage also
   lists the missing fields and gives an overall verdict.
4. **Consistency check.** The OCR number and name are compared with the QR record
   after normalisation. The score is 0.0 for a mismatch, 0.5 when there is no
   record to compare with, and 1.0 for a match.
5. **Forensic verdict.** The image metrics give a tampering flag and its reasons.
6. **Rule-based fraud score.** Penalties are added up and turned into ACCEPTED,
   SUSPICIOUS or FAKE, with a special rule for a double mismatch.
7. **Feature projection for the ML fraud model.** A 17-column feature row is built
   and aligned to the model's own column list. A failed prediction fails open.
8. **Document-classifier post-processing.** The steps are argmax, the label map, the
   low-confidence UNCERTAIN relabel and a fail-open default.
9. **Final arbiter.** A first-match table yields REJECTED, FRAUD, SUSPICIOUS or
   ACCEPTED.

## Modules

| module | file |
|---|---|
| `Common` | `common.dfy` |
| `Text` | `text.dfy` |
| `Dates` | `dates.dfy` |
| `Extract` | `extract.dfy` |
| `QrValidator` | `qr.dfy` |
| `Rules` | `rules.dfy` |
| `Consistency` | `consistency.dfy` |
| `Forensics` | `forensics.dfy` |
| `FraudRules` | `fraud.dfy` |
| `Features` | `features.dfy` |
| `Cnn` | `cnn.dfy` |
| `Arbiter` | `arbiter.dfy` |
| `Pipeline` | `pipeline.dfy` |

- **Shared helpers.** `Common` holds an `Option` type and Python truthiness. `Text`
  holds the character classes, `strip`, `split` and `join`, the whitespace-token
  count and decimal digits. `Dates` holds the Gregorian calendar and
  `strptime(…, "%d/%m/%Y")`.
- **Stage modules.** Each source file of the pipeline becomes one module.
- **Cross-stage facts.** `Pipeline` holds the lemmas that connect the extractor to
  the rule validator.

**Imperative stages.** Stages that build their result step by step become methods
with loops. Examples are the date and year scans, the name-candidate loop, the
flattening of the recognised text, the XML parser, the fraud scorer, the feature
row and the column alignment. Each method is proved equal to a declarative
function, and the properties are proved as lemmas about that function.

**Pure stages.** Stages that only compute a value become functions and lemmas.
Examples are `normalize`, the pipe parser, `split_stuck_name`, `extract_gender`,
the classifier post-processing and the arbiter.

**External code.** The secure-QR decoder, the ML model's `predict_proba` and the
classifier network are opaque to this model. The first two become function-typed
parameters that may fail (`Option` results). The network becomes its score vector,
or `None` when the prediction raises.

### Source behaviour worth noting

The model follows the code in each of these cases.

- **Forensic tampering flag.** The flag first computed with an ELA threshold of 25
  (Pipelines/forensic_analyzer.py:82-85) is overwritten at line 94. The returned
  flag is therefore "low sharpness (< 60) or ELA > 0.25". This is
  `Forensics.SuspectedIffLowSharpnessOrHighEla`, and `Forensics.SmallElaIsFlagged`
  shows an ELA of 1 being flagged.
- **Stuck names.** A single stuck token such as "RamjeetSingh" is not split into
  "Ramjeet Singh". `extract_name` counts the tokens before it splits, so the line
  is dropped. This is `Pipeline.StuckNameLineIsDropped` and
  `Pipeline.RamjeetSinghIsDropped`.
- **Missing arbiter cases.** The arbiter has no case for an UNCERTAIN or UNKNOWN
  label, or for a rule decision of FAKE. These inputs end as ACCEPTED unless the
  rule decision is SUSPICIOUS. This is `Arbiter.UncertainIsAccepted`,
  `Arbiter.RuleFakeIsIgnored` and `Arbiter.FailuresAreFailOpen`.

## Model

| member | source | states |
|---|---|---|
| Common.OrElse | Pipelines/consistency_checker.py:26 | Python `a or b` on optional strings: the result is truthy iff either side is, and it is the first side whenever that side is truthy |
| Text.StripLeft | Pipelines/qr_validator.py:15 | `lstrip()` removes exactly the leading whitespace: the result is a suffix of the input, everything before it is whitespace, and it starts with a non-space |
| Text.StripRight | Pipelines/qr_validator.py:15 | `rstrip()` removes exactly the trailing whitespace: the result is a prefix of the input, everything after it is whitespace, and it ends with a non-space |
| Text.SplitOn | Pipelines/qr_validator.py:15 | `str.split(sep)` yields at least one piece, and no piece contains the separator |
| Text.SplitJoin | Pipelines/qr_validator.py:15 | joining the pieces of `split(sep)` with `sep` gives back the original text |
| Text.JoinSplit | Pipelines/qr_validator.py:15 | splitting pieces joined by a separator they do not contain gives back exactly those pieces |
| Text.SplitCount | Pipelines/qr_validator.py:15-16 | splitting on the bar character gives at least two pieces iff the text contains a bar |
| Text.StripLeftPadded | Pipelines/qr_validator.py:15 | `lstrip()` of whitespace followed by a text that starts with a non-space is that text |
| Text.StripRightPadded | Pipelines/qr_validator.py:15 | `rstrip()` of a text that ends with a non-space followed by whitespace is that text |
| Text.StripIsInfix | Pipelines/qr_validator.py:15 | `strip()` keeps what lies between a whitespace prefix and a whitespace suffix, and what it keeps starts and ends with a non-space |
| Text.StripPadded | Pipelines/qr_validator.py:15 | `strip()` of whitespace, a trimmed core and whitespace is exactly the core |
| Text.CountRunsAppend | Pipelines/extract_Aadhaar.py:76 | the whitespace-token count of a concatenation is the sum of the counts of its parts, seen from the character before each part |
| Text.SolidRuns | Pipelines/extract_Aadhaar.py:76 | a text without whitespace has exactly one token when it is non-empty |
| Text.DecimalStringRoundTrip | Pipelines/extract_Aadhaar.py:39 | the decimal rendering of a number reads back as that number and has four digits for a four-digit year |
| Text.RemoveChar | Pipelines/extract_Aadhaar.py:122 | `replace(" ", "")` leaves no space and adds no character |
| Dates.OrdinalIsChronological | Pipelines/extract_Aadhaar.py:55-58 | on real calendar dates, the day number orders dates exactly as (year, month, day) ordering does, and two dates with equal day numbers are the same date |
| Dates.ParseDmy | Pipelines/rule_validator.py:14-15 | `strptime(s, "%d/%m/%Y")` succeeds only on three `/`-separated fields forming a real calendar date |
| Dates.Pad2IsToken | Pipelines/extract_Aadhaar.py:39 | a zero-padded day 1-31 (or month 1-12) is a token that `%d` (or `%m`) accepts and that reads back as the same number |
| Dates.FormatParseRoundTrip | Pipelines/extract_Aadhaar.py:39 | every real date from year 1000 on, written as `DD/MM/YYYY`, parses back to the same date |
| Extract.AsciiOnly | Pipelines/extract_Aadhaar.py:7 | removing non-ASCII runs leaves only ASCII characters, never lengthens the text, and leaves an all-ASCII text unchanged |
| Extract.AsciiOnlyAppend | Pipelines/extract_Aadhaar.py:7 | the removal works piece by piece: on a concatenation it is the concatenation of the results |
| Extract.AsciiOnlyDropsNonAscii | Pipelines/extract_Aadhaar.py:7 | a non-ASCII character anywhere in the text leaves no trace in the result |
| Extract.CleanText | Pipelines/extract_Aadhaar.py:5-7 | `clean_text` yields only ASCII characters, starts and ends with a non-space, and is the ASCII-only text with a whitespace prefix and a whitespace suffix removed |
| Extract.CleanTextOfPadded | Pipelines/extract_Aadhaar.py:5-7 | an ASCII text made of whitespace, a trimmed core and whitespace is cleaned to exactly the core |
| Extract.SplitStuckName | Pipelines/extract_Aadhaar.py:9-11 | `split_stuck_name` inserts one space at every lower→upper boundary and changes nothing else: the first character stays, the length grows by the number of boundaries, removing spaces gives the input with its spaces removed, no boundary is left, and a text without a boundary is unchanged |
| Extract.SplitStuckNameAppend | Pipelines/extract_Aadhaar.py:9-11 | splitting a concatenation splits each part and adds one space at the join exactly when the join is a lower→upper boundary |
| Extract.SplitStuckNameWordCount | Pipelines/extract_Aadhaar.py:9-11 | splitting stuck names adds exactly one whitespace token per lower→upper boundary |
| Extract.SepRun | Pipelines/extract_Aadhaar.py:21 | `[\s/.-]+` matches the longest run of separators at a position |
| Extract.DateMatchAt | Pipelines/extract_Aadhaar.py:21-30 | a date match at a position ends after that position and inside the text |
| Extract.KeepDobDates | Pipelines/extract_Aadhaar.py:31-42 | the matches kept are exactly the real dates strictly between 1900 and 2025 |
| Extract.AllDates | Pipelines/extract_Aadhaar.py:26-42 | every collected full date is a real date strictly between 1900 and 2025 |
| Extract.YearMatchesFrom | Pipelines/extract_Aadhaar.py:24-46 | every whole-word year match is four digits |
| Extract.AllYears | Pipelines/extract_Aadhaar.py:44-50 | every collected bare year is a 19xx/20xx year strictly between 1900 and 2025 |
| Extract.ScanLineDates | Pipelines/extract_Aadhaar.py:30-42 | the scan of one line keeps exactly its valid full dates, in match order |
| Extract.ScanLineYears | Pipelines/extract_Aadhaar.py:46-50 | the scan of one line keeps exactly its whole-word birth years, in match order |
| Extract.OldestDate | Pipelines/extract_Aadhaar.py:55-58 | `sort(...)[0]` is a collected date no later than any other |
| Extract.SmallestYear | Pipelines/extract_Aadhaar.py:61-64 | `sort(key=int)[0]` is a collected year numerically no larger than any other |
| Extract.FindDobOldest | Pipelines/extract_Aadhaar.py:14-66 | the result is the oldest valid full date as zero-padded `DD/MM/YYYY` when there is one (years ignored), else the smallest valid bare year, else None |
| Extract.FourDigitsInjective | Pipelines/extract_Aadhaar.py:63 | two equally long digit strings with the same value are equal |
| Extract.OldestDobIsUnique | Pipelines/extract_Aadhaar.py:14-66 | the date of birth is determined by the text: two results that both satisfy the rule are equal |
| Extract.CollectNameCandidates | Pipelines/extract_Aadhaar.py:70-79 | the candidate list holds, in line order and after stuck-name splitting, exactly the cleaned lines of length ≥ 3 with no digit, no excluded word and at least two tokens |
| Extract.LongestIndex | Pipelines/extract_Aadhaar.py:80 | `max(key=len)` picks a longest candidate, and the first of equally long ones |
| Extract.ExtractName | Pipelines/extract_Aadhaar.py:69-80 | the name is the first longest candidate, or None when there is none |
| Extract.ExtractGender | Pipelines/extract_Aadhaar.py:83-94 | the result is "Female" iff the whole word female or fem appears (case-insensitive), even when male also appears; it is None iff none of the three words appears; otherwise it is "Male" |
| Extract.MaleIsNotAWordOfFemale | Pipelines/extract_Aadhaar.py:87-91 | the "male" inside "female" is not a whole-word match, and "female" standing alone is one |
| Extract.AadhaarMatchAt | Pipelines/extract_Aadhaar.py:121 | a 4-4-4 digit match spans 12 to 14 characters |
| Extract.FirstAadhaarMatch | Pipelines/extract_Aadhaar.py:121 | `re.search` returns the leftmost match: no match starts earlier, and None means there is no match anywhere |
| Extract.AadhaarNumberShape | Pipelines/extract_Aadhaar.py:120-122 | the extracted number is three groups of four digits with at most one whitespace character kept between groups, and exactly 12 digits when plain spaces are the only whitespace |
| Extract.SubTexts | Pipelines/extract_Aadhaar.py:105-109 | a nested list contributes one text per element |
| Extract.OtherSubRepeatsText | Pipelines/extract_Aadhaar.py:103-108 | an element that is neither a tuple nor a string repeats the text of the element before it |
| Extract.SubTextIsCurrent | Pipelines/extract_Aadhaar.py:103-108 | each element's text is the last text set so far in its list |
| Extract.NestedTexts | Pipelines/extract_Aadhaar.py:103-109 | the inner loop appends exactly the texts of a nested list |
| Extract.FlattenRecTexts | Pipelines/extract_Aadhaar.py:98-113 | the flattening loop yields exactly the flattened texts of the recognised items |
| Extract.ExtractFields | Pipelines/extract_Aadhaar.py:97-130 | the record holds the oldest date of birth, the first number match of the space-joined text, the gender of that text and the longest name candidate |
| QrValidator.StripAll | Pipelines/qr_validator.py:15 | each piece is stripped, and the count is kept |
| QrValidator.PipeRecord | Pipelines/qr_validator.py:17-22 | the pipe record has exactly the keys aadhaar, name, dob and gender; aadhaar is piece 0 iff that piece is twelve digits and None otherwise; the name is piece 1; dob and gender are pieces 2 and 3 when those pieces exist and None otherwise |
| QrValidator.ParsePipeFormat | Pipelines/qr_validator.py:10-25 | there is a record iff the text splits into at least two pieces, iff it contains a bar; the record is the pipe record of the stripped pieces, so its name is the stripped second piece |
| QrValidator.StripIsSlice | Pipelines/qr_validator.py:15 | stripping never adds a character |
| QrValidator.StripOfStripped | Pipelines/qr_validator.py:15 | stripping a text without surrounding whitespace changes nothing |
| QrValidator.PipeRoundTrip | Pipelines/qr_validator.py:10-22 | two or more bar-free pieces joined with bars parse to the pipe record of those pieces, each stripped |
| QrValidator.TrimmedPipeRoundTrip | Pipelines/qr_validator.py:10-22 | pieces without surrounding whitespace, such as the GUI-style number, name, date of birth and gender joined with bars, are read back unchanged |
| QrValidator.ClassRun | Pipelines/qr_validator.py:37-56 | an attribute value is the longest run of its character class |
| QrValidator.AttrAt | Pipelines/qr_validator.py:37-56 | an attribute match at a position yields a non-empty value of the attribute's class, one letter for the gender |
| QrValidator.AttrSearch | Pipelines/qr_validator.py:37-56 | `re.search` for an attribute yields a non-empty value of its class |
| QrValidator.AttributeRoundTrip | Pipelines/qr_validator.py:37-56 | `key="v"` is read back as `v` for any value of the attribute's class |
| QrValidator.XmlRecord | Pipelines/qr_validator.py:34-58 | the XML record holds a key exactly when its attribute was found, with the found value, and no other key |
| QrValidator.XmlFields | Pipelines/qr_validator.py:60 | a record is returned only when it is non-empty |
| QrValidator.XmlNoneIffNoAttribute | Pipelines/qr_validator.py:34-60 | the XML parser returns None iff none of uid, name, gender, dob and yob matches |
| QrValidator.XmlRecordShape | Pipelines/qr_validator.py:34-60 | the XML record holds only the keys aadhaar, name, gender and dob; every value is present and non-empty; gender is Male or Female; the id is digits |
| QrValidator.FillXmlRecord | Pipelines/qr_validator.py:34-58 | the attribute-by-attribute updates build exactly the XML record |
| QrValidator.ParseXmlFormat | Pipelines/qr_validator.py:30-62 | `parse_xml_format` returns the XML record when non-empty, else None |
| QrValidator.XmlDobBeatsYob | Pipelines/qr_validator.py:52-58 | when `dob` is present, it is the date taken, and `yob` is not used |
| QrValidator.TryDecodeSecureQr | Pipelines/qr_validator.py:67-78 | the secure parser succeeds iff the decoder does; its record has exactly name, dob, gender and aadhaar, and aadhaar is the decoder's uid, or its aadhaar when uid is falsy |
| QrValidator.ScannedText | Pipelines/qr_validator.py:88-104 | the scanned text is pyzbar's whenever that is truthy, else OpenCV's whenever that is non-empty, and it is None iff both are empty |
| QrValidator.ParseCascade | Pipelines/qr_validator.py:107-121 | the cascade always yields a non-empty record, and a text with a bar that no XML attribute matches yields the pipe record |
| QrValidator.PipeRecordHasName | Pipelines/qr_validator.py:10-22 | a text with a bar always gives a pipe record with a name, so the cascade never looks past it |
| QrValidator.XmlWins | Pipelines/qr_validator.py:108-109 | an XML record, when found, is the cascade's result |
| QrValidator.PipeTextSkipsSecureDecoder | Pipelines/qr_validator.py:111-117 | text with a bar that fails XML gives the pipe record, whatever the secure decoder would do |
| QrValidator.SecureDecoderSettlesOtherText | Pipelines/qr_validator.py:115-117 | a text that is neither XML nor pipe-delimited and that the secure decoder accepts gives the secure decoder's record |
| QrValidator.RawFallback | Pipelines/qr_validator.py:119-121 | when every parser fails, the result is `{"raw_text": text}` |
| QrValidator.ValidateQr | Pipelines/qr_validator.py:83-131 | an unreadable image gives NOT_DETECTED; a readable image with text gives DECODED with the cascade's record; a readable image without text gives LIKELY_PRESENT_BUT_UNREADABLE; the data is present iff the status is DECODED, and is then non-empty |
| Rules.ValidateAadhaar | Pipelines/rule_validator.py:5-8 | valid iff present and exactly 12 digits |
| Rules.ValidateDob | Pipelines/rule_validator.py:10-18 | valid iff present and either a real `DD/MM/YYYY` date or a bare 19xx/20xx year; an empty value is never valid |
| Rules.ValidateName | Pipelines/rule_validator.py:20-27 | valid iff present, digit-free and of at least two whitespace tokens |
| Rules.ValidateGender | Pipelines/rule_validator.py:29-30 | valid iff exactly "Male" or "Female" |
| Rules.MissingKeys | Pipelines/rule_validator.py:44-47 | the missing-field list never names aadhaar_number |
| Rules.RuleValidation | Pipelines/rule_validator.py:32-64 | overall_valid is the conjunction of the four checks; qr_expected_but_failed holds iff the status is LIKELY_PRESENT_BUT_UNREADABLE; missing_fields is the missing-key list of the record |
| Rules.MissingFieldsAreAbsentOnes | Pipelines/rule_validator.py:44-47 | the missing fields are exactly the absent ones among name, dob and gender, in that order; empty strings are not missing |
| Rules.ValidMeansNothingMissing | Pipelines/rule_validator.py:44-54 | a record that passes every check has no missing field |
| Rules.YearIsNotAFullDate | Pipelines/rule_validator.py:14-18 | a bare year fails `strptime` and is accepted by the year fallback |
| Consistency.AlnumOnly | Pipelines/consistency_checker.py:7 | only ASCII letters and digits remain |
| Consistency.Normalize | Pipelines/consistency_checker.py:3-7 | `normalize` gives "" for a falsy value and otherwise only lower-case letters and digits |
| Consistency.AlnumOnlyKeeps | Pipelines/consistency_checker.py:7 | an all-alphanumeric text is kept unchanged |
| Consistency.NormalizeIdempotent | Pipelines/consistency_checker.py:3-7 | normalising twice is the same as normalising once |
| Consistency.AlnumOnlyAppend | Pipelines/consistency_checker.py:7 | the filter distributes over concatenation |
| Consistency.NormalizeIgnoresSeparator | Pipelines/consistency_checker.py:3-7 | a non-alphanumeric character never affects the normalised value |
| Consistency.Mismatches | Pipelines/consistency_checker.py:22-40 | the list has one entry per failed check, so it is empty iff neither the number nor the name mismatches; the number's message comes first and the name's last |
| Consistency.ConsistencyOf | Pipelines/consistency_checker.py:9-59 | without a decoded record the result is the fixed not-read result with score 0.5 and no comparison; the score is 0.0 iff there is a record and the number or the name mismatches, and the reason is then the mismatch messages joined by "; "; at score 1.0 the reason is "OCR and QR data matched" |
| Consistency.BuildConsistency | Pipelines/consistency_checker.py:9-59 | `build_consistency` computes exactly that result |
| Consistency.GenderIsIgnored | Pipelines/consistency_checker.py:42-49 | changing the gender on either side never changes the result |
| Consistency.MissingOcrFieldsMatch | Pipelines/consistency_checker.py:24-59 | with the OCR number and name both missing, a decoded record always matches with score 1.0 |
| Consistency.ContainedNameMatches | Pipelines/consistency_checker.py:37-40 | an OCR name whose normalised form lies inside the QR name's is never a mismatch |
| Consistency.TwoMessagesNameBoth | Pipelines/consistency_checker.py:30-54 | a number message joined with a name message contains both labels |
| Consistency.JoinedReasonNamesBoth | Pipelines/consistency_checker.py:52-55 | the `"; "`-joined reason for both mismatches contains both labels |
| Consistency.DoubleMismatchReason | Pipelines/consistency_checker.py:22-55 | when both the number and the name mismatch, the score is 0.0 and the reason names both, which the fraud scorer's special rule looks for |
| Forensics.TamperingReasons | Pipelines/forensic_analyzer.py:86-92 | "Low sharpness" is a reason iff sharpness < 60, "High ELA" iff ELA > 0.25; there is one reason per failed test, and with two they come in that order |
| Forensics.AnalyzeImageForensics | Pipelines/forensic_analyzer.py:63-102 | an unreadable image gives all-zero metrics, noise_level and no flag; a readable one gives its metrics, the reasons, no noise_level, and a flag that is set iff some reason was recorded |
| Forensics.SuspectedIffLowSharpnessOrHighEla | Pipelines/forensic_analyzer.py:82-94 | the returned flag is set iff sharpness < 60 or ELA > 0.25 |
| Forensics.SmallElaIsFlagged | Pipelines/forensic_analyzer.py:82-94 | a sharp image with ELA 1 is flagged, although the overwritten first test with 25 would not flag it |
| FraudRules.Penalty | Pipelines/fraud_assement.py:9-35 | the accumulated penalty lies in [0, 155] |
| FraudRules.Reasons | Pipelines/fraud_assement.py:9-48 | there is one reason per rule that fired, in rule order: the invalid number, the unreadable QR, the consistency reason (prefixed by DATA MISMATCH at 0.0, verbatim at 0.5), tampering, and the double-mismatch flag last |
| FraudRules.EchoedReasonIsNotARule | Pipelines/fraud_assement.py:27-29 | at consistency score 0.5 the consistency reason is copied verbatim, so "Invalid Aadhaar Format" can be listed for a valid number |
| FraudRules.FraudOf | Pipelines/fraud_assement.py:1-54 | the score lies in [0, 100]; a double mismatch gives SUSPICIOUS with 45; otherwise the decision is the band of the penalty and the score is the penalty capped at 100 |
| FraudRules.AssessFraud | Pipelines/fraud_assement.py:1-54 | `assess_fraud` computes exactly that assessment |
| FraudRules.MissingKeysAddNothing | Pipelines/fraud_assement.py:9-41 | with every key absent, the defaults add no penalty: ACCEPTED, 0, no reasons |
| FraudRules.SingleWeakSignalIsAccepted | Pipelines/fraud_assement.py:10-41 | tampering alone (15) or an invalid id alone (20) stays ACCEPTED, and the two together (35) are SUSPICIOUS |
| FraudRules.MismatchIsFake | Pipelines/fraud_assement.py:18-51 | a consistency score of 0.0 without a double mismatch gives FAKE with a capped score of 100 and the DATA MISMATCH reason |
| FraudRules.UnreadQrBands | Pipelines/fraud_assement.py:14-41 | score 0.5 alone is SUSPICIOUS, and with an invalid id and a failed QR read it is FAKE with 70 (85 with tampering) |
| FraudRules.DoubleMismatchOverridesFake | Pipelines/fraud_assement.py:43-48 | a reason naming both mismatches gives SUSPICIOUS with score 45 and the double-mismatch reason, whatever was accumulated |
| Features.PresentCount | Pipelines/model_json.py:32 | at most as many fields are present as there are fields |
| Features.FeatureRow | Pipelines/model_json.py:5-41 | the row has the 17 feature columns in their fixed order |
| Features.FeatureRowSections | Pipelines/model_json.py:12-39 | the row is the validation, consistency, forensic, OCR and QR columns in that order |
| Features.AddValidationColumns | Pipelines/model_json.py:12-17 | the five validation columns are 1 where the flag is truthy and 0 where it is false or absent |
| Features.AddConsistencyColumns | Pipelines/model_json.py:19-22 | qr_match is the matching flag, the score defaults to 0.0, and consistency_failed is 1 iff the score is below 0.5 |
| Features.AddForensicColumns | Pipelines/model_json.py:24-29 | the metrics default to 0.0; the ELA flag is 1 iff ELA > 0.8, and the sharpness flag is 1 iff sharpness < 50 |
| Features.CountPresent | Pipelines/model_json.py:32 | the loop counts the truthy OCR fields |
| Features.JsonToModelInput | Pipelines/model_json.py:5-41 | `json_to_model_input` builds exactly the feature row |
| Features.FeatureRowProperties | Pipelines/model_json.py:13-39 | every flag feature is 0 or 1; consistency_failed is 1 iff the score is < 0.5 (so a missing score counts as failed); field count + failure count = 4; the missing ratio is failures / 4 and lies in [0, 1]; high_ela_flag is 1 iff ELA > 0.8; low_sharpness_flag is 1 iff sharpness < 50; qr_decoded is 1 iff the status is DECODED |
| Features.AlignedFrame | Pipelines/model_json.py:47-52 | with declared feature names, the frame is exactly those columns in that order; a column the row lacks is 0 and other columns are dropped; without names the row is unchanged |
| Features.AlignColumns | Pipelines/model_json.py:47-52 | the add-missing-then-select loop yields exactly that frame |
| Features.PredictFraud | Pipelines/model_json.py:43-67 | a missing model or a failing `predict_proba` gives {REAL, 0.0, FAILED}; otherwise the probability of the aligned row; FAKE iff the call succeeded and prob ≥ threshold |
| Cnn.ProjectLabelOf | Pipelines/CNN_predict.py:9-13 | the label map gives UNKNOWN iff the train label is not one of the three class names |
| Cnn.ArgMax | Pipelines/CNN_predict.py:51 | `np.argmax` is a position of the largest score, and the first one on ties |
| Cnn.CnnPredict | Pipelines/CNN_predict.py:38-79 | a failed or out-of-range prediction gives the fixed default; otherwise the train label is the argmax class, confidence is its score, raw_scores has one entry per class, and the label is UNCERTAIN iff confidence < threshold and else the mapped label |
| Cnn.NeverUnknown | Pipelines/CNN_predict.py:54-59 | the project label is never UNKNOWN |
| Cnn.ConfidenceIsTheTopScore | Pipelines/CNN_predict.py:52-68 | raw_scores has exactly the three class keys, the confidence is one of its values and no value exceeds it |
| Cnn.NonAadhaarIff | Pipelines/CNN_predict.py:51-59 | with three scores, NON_AADHAAR iff the non_aadhaar score is strictly above both others and reaches the threshold |
| Cnn.FailureIsFailOpen | Pipelines/CNN_predict.py:71-79 | a failed prediction gives REAL_AADHAAR with confidence 0.7, whatever the threshold |
| Cnn.SoftmaxNeverUncertainAtDefault | Pipelines/CNN_predict.py:38-59 | three scores that sum to 1 are never UNCERTAIN at the default threshold of 0.3, since the largest is at least a third |
| Cnn.ExtraClassFallsBack | Pipelines/CNN_predict.py:51-79 | a score vector whose maximum lies past the third class raises and gives the default |
| Arbiter.MakeFinalDecision | Pipelines/final_decision.py:2-57 | REJECTED iff the label is NON_AADHAAR (carrying the classifier confidence); FRAUD iff FAKE_AADHAAR with ML FAKE; SUSPICIOUS iff neither, and the models conflict or the rule decision is SUSPICIOUS; every other verdict carries the ML probability unchanged |
| Arbiter.RuleFakeIsIgnored | Pipelines/final_decision.py:12-42 | a rule decision other than SUSPICIOUS, FAKE included, decides exactly as no rule decision does |
| Arbiter.UncertainIsAccepted | Pipelines/final_decision.py:39-57 | an UNCERTAIN or UNKNOWN label is ACCEPTED unless the rule decision is SUSPICIOUS |
| Arbiter.FailuresAreFailOpen | Pipelines/final_decision.py:39-57 | with both models failed, even a rule decision of FAKE ends ACCEPTED |
| Arbiter.FraudNeedsBothModels | Pipelines/final_decision.py:29-34 | without a successful ML prediction, the verdict is never FRAUD |
| Pipeline.BirthYearIsYearString | Pipelines/extract_Aadhaar.py:24-49 | every bare year the extractor keeps passes the validator's year pattern |
| Pipeline.ExtractedDobIsValid | Pipelines/extract_Aadhaar.py:14-66 | the extracted date of birth passes `validate_dob` iff one was found |
| Pipeline.SplitNameKeepsChecks | Pipelines/extract_Aadhaar.py:73-78 | a line that passes the name filters still has no digit and at least two tokens after splitting |
| Pipeline.CandidatesAreValidNames | Pipelines/extract_Aadhaar.py:70-79 | every name candidate passes `validate_name` |
| Pipeline.ExtractedNameIsValid | Pipelines/extract_Aadhaar.py:69-80 | the extracted name passes `validate_name` iff one was found |
| Pipeline.ExtractedNumberIsValid | Pipelines/extract_Aadhaar.py:120-122 | when plain spaces are the only whitespace, the extracted number passes `validate_aadhaar` iff one was found |
| Pipeline.ExtractedRecordValidation | Pipelines/extract_Aadhaar.py:97-130 | on a record from `extract_fields`, each rule check holds iff its field was found, and overall_valid holds iff nothing is missing and a number was found |
| Pipeline.StuckNameLineIsDropped | Pipelines/extract_Aadhaar.py:76-78 | a single stuck token is dropped by the token-count filter, although splitting would have given two tokens |
| Pipeline.RamjeetSinghIsDropped | Pipelines/extract_Aadhaar.py:76-78 | the line "RamjeetSingh" is not a name candidate |

## Left out

- **Unicode digits in the pipe parser.** `isdigit()` at
  Pipelines/qr_validator.py:18 also accepts non-ASCII digits; IsTwelveDigits
  accepts ASCII digits only.
- **Default thresholds.** `cnn_predict` and `predict_fraud` take their thresholds
  as parameters. Their defaults, 0.3 and 0.5, are the constants
  Cnn.DefaultConfidenceThreshold and Features.DefaultFraudThreshold; the app's
  calls use the defaults.
- **Regular-expression character classes.** `\d`, `\w` and `\b` are modelled on
  ASCII only. Python also matches non-ASCII digits and letters with them.
  Whitespace (`\s`, `split()`, `strip()`) uses Python's full `isspace()` set.
- **Number extraction with other whitespace.** Extract.AadhaarNumberShape and
  Pipeline.ExtractedNumberIsValid assume plain spaces are the only whitespace for
  the 12-digit result. `replace(" ", "")` keeps a tab or newline between groups,
  and the model states that too, as a kept gap.
- **`round(…)`.** The rounding of forensic metrics, of the ML probability and of
  the classifier confidence and scores is not modelled. Values are passed through
  as real numbers.
- **Floating point.** NaN and float32 behaviour are not modelled; comparisons are
  on real numbers.
- **Sorting.** The stable sorts in `find_dob_oldest` are modelled only through
  their element 0, as a first-minimum selection. This is all the source reads.
- **Model failures.** The `error` text of a failed ML prediction is left out; the
  rest of the failure dict is modelled.
- **Unused argument.** The `qr` argument of `assess_fraud` is never read, so the
  model leaves it out.
- **Recognised-text items.** Only strings, tuples whose first element is a string,
  and other items are distinguished. `str(t)` of non-string values inside
  `clean_text` is not modelled.
- **I/O and image processing.** Image reading, pyzbar and OpenCV QR detection are
  inputs: the scan result is a `QrScan` value. The secure-QR decoder and
  `predict_proba` are opaque function parameters. The classifier's
  `model.predict` is its score vector, and `preprocess_single_image` is
  not modelled.
- **Forensic metrics.** `compute_sharpness`, `compute_edge_density`,
  `compute_noise_level` and `compute_ela_score` use OpenCV arithmetic; their
  results are inputs.
- **Debug output.** Debug prints are left out, including the gender-mismatch
  warning of `build_consistency`.
- **Status default in `build_consistency`.** The `"UNKNOWN"` status default
  applies to a QR dict without a status. `validate_qr` always sets one, so the
  model's QR result always carries a status.
- **Empty rule-based dict.** The arbiter receives the rule-based assessment or
  nothing. An empty dict, which counts as no assessment, is the same as nothing
  here.
- **Rest of the repository.** The web application (`app.py`), the database layer
  (`database.py`), the browser script (`static/js/script.js`), face matching,
  image preprocessing and the OCR engine call are not part of this model.
