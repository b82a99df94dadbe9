/**
 * The OCR-versus-QR cross-check (Pipelines/consistency_checker.py): compares the
 * extracted number and name with the decoded QR record after normalisation and
 * scores the agreement 0.0 (mismatch), 0.5 (no QR to compare with) or 1.0.
 */
module Consistency {
  import opened Common
  import opened Text
  import opened Extract
  import opened QrValidator

  predicate IsAsciiAlnum(c: char) {
    IsDigit(c) || IsLower(c) || IsUpper(c)
  }

  /** `re.sub(r'[^a-zA-Z0-9]', '', s)`. */
  function AlnumOnly(s: string): (r: string)
    ensures forall i | 0 <= i < |r| :: IsAsciiAlnum(r[i])
  {
    if s == [] then [] else (if IsAsciiAlnum(s[0]) then [s[0]] else []) + AlnumOnly(s[1..])
  }

  /** normalize: "" for a missing or empty value, otherwise the ASCII letters and
      digits only, lower-cased. */
  function Normalize(text: Option<string>): (r: string)
    ensures forall i | 0 <= i < |r| :: IsDigit(r[i]) || IsLower(r[i])
    ensures !Truthy(text) ==> r == ""
  {
    if !Truthy(text) then "" else ToLower(AlnumOnly(text.value))
  }

  lemma {:induction false} AlnumOnlyKeeps(s: string)
    requires forall i | 0 <= i < |s| :: IsAsciiAlnum(s[i])
    ensures AlnumOnly(s) == s
  {
    if s != [] {
      AlnumOnlyKeeps(s[1..]);
      assert [s[0]] + s[1..] == s;
    }
  }

  /** Normalising twice is normalising once. */
  lemma NormalizeIdempotent(text: Option<string>)
    ensures Normalize(Some(Normalize(text))) == Normalize(text)
  {
    var n := Normalize(text);
    if n != "" {
      AlnumOnlyKeeps(n);
    }
  }

  lemma {:induction false} AlnumOnlyAppend(a: string, b: string)
    ensures AlnumOnly(a + b) == AlnumOnly(a) + AlnumOnly(b)
  {
    if a == [] {
      assert a + b == b;
    } else {
      assert (a + b)[0] == a[0] && (a + b)[1..] == a[1..] + b;
      AlnumOnlyAppend(a[1..], b);
    }
  }

  /** Spaces, punctuation and other separators never affect the comparison: a
      number printed as "1234 5678 9012" compares equal to "123456789012". */
  lemma NormalizeIgnoresSeparator(a: string, c: char, b: string)
    requires !IsAsciiAlnum(c)
    ensures Normalize(Some(a + [c] + b)) == Normalize(Some(a + b))
  {
    AlnumOnlyAppend(a + [c], b);
    AlnumOnlyAppend(a, [c]);
    AlnumOnlyAppend(a, b);
    assert [c][1..] == [];
    assert AlnumOnly([c]) == [];
    assert AlnumOnly(a + [c]) == AlnumOnly(a);
  }

  /** The dict build_consistency returns. */
  datatype ConsistencyResult = ConsistencyResult(matchingPerformed: bool, score: real, reason: string)

  const NotReadResult := ConsistencyResult(false, 0.5, "QR Code could not be read")

  /** `qr_status == "DECODED" and qr_data`: there is a decoded record to compare with. */
  predicate HasQrRecord(qr: QrResult) {
    qr.status == Decoded && !IsEmptyData(qr.decodedData)
  }

  /** `qr_data.get("aadhaar") or qr_data.get("uid")`. */
  function QrUid(d: QrData): Option<string> {
    OrElse(Get(d, "aadhaar"), Get(d, "uid"))
  }

  /** `str(v)` of a value that is present. */
  function Shown(v: Option<string>): string {
    if v.Some? then v.value else "None"
  }

  /** The number check: both sides present and non-empty, and different after normalising. */
  predicate IdMismatch(ocr: ExtractedFields, d: QrData) {
    Truthy(ocr.aadhaarNumber) && Truthy(QrUid(d)) && Normalize(ocr.aadhaarNumber) != Normalize(QrUid(d))
  }

  /** The name check: both sides present and non-empty, and neither normalised name
      occurs inside the other. */
  predicate NameMismatch(ocr: ExtractedFields, d: QrData) {
    && Truthy(ocr.name) && Truthy(Get(d, "name"))
    && !Contains(Normalize(Get(d, "name")), Normalize(ocr.name))
    && !Contains(Normalize(ocr.name), Normalize(Get(d, "name")))
  }

  /** The number's entry of the mismatch list: the label, then both values. */
  function IdMessage(ocr: ExtractedFields, d: QrData): string {
    "Aadhaar Number mismatch" + Compared(ocr.aadhaarNumber, QrUid(d))
  }

  /** The name's entry of the mismatch list. */
  function NameMessage(ocr: ExtractedFields, d: QrData): string {
    "Name mismatch" + Compared(ocr.name, Get(d, "name"))
  }

  /** ` (<card value> vs <QR value>)`. */
  function Compared(a: Option<string>, b: Option<string>): string {
    " (" + Shown(a) + " vs " + Shown(b) + ")"
  }

  /** The `mismatches` list: the number's entry before the name's. */
  function Mismatches(ocr: ExtractedFields, d: QrData): (r: seq<string>)
    ensures |r| == (if IdMismatch(ocr, d) then 1 else 0) + (if NameMismatch(ocr, d) then 1 else 0)
    ensures r == [] <==> !IdMismatch(ocr, d) && !NameMismatch(ocr, d)
    ensures IdMismatch(ocr, d) ==> r[0] == IdMessage(ocr, d)
    ensures NameMismatch(ocr, d) ==> r[|r| - 1] == NameMessage(ocr, d)
  {
    (if IdMismatch(ocr, d) then [IdMessage(ocr, d)] else [])
    + (if NameMismatch(ocr, d) then [NameMessage(ocr, d)] else [])
  }

  /** What build_consistency returns, as a function of its inputs. The gender is
      looked at by the source only to print a warning, so it plays no part. */
  function ConsistencyOf(ocr: ExtractedFields, qr: QrResult): (r: ConsistencyResult)
    ensures r.score == 0.0 || r.score == 0.5 || r.score == 1.0
    ensures r.score == 0.5 <==> !r.matchingPerformed
    ensures r.score == 0.5 <==> !HasQrRecord(qr)
    ensures r.score == 0.0 <==> HasQrRecord(qr) && (IdMismatch(ocr, qr.decodedData.value) || NameMismatch(ocr, qr.decodedData.value))
    ensures !HasQrRecord(qr) ==> r == NotReadResult
    ensures r.score == 1.0 ==> r.reason == "OCR and QR data matched"
    ensures r.score == 0.0 ==> r.reason == JoinWith(Mismatches(ocr, qr.decodedData.value), "; ")
  {
    if !HasQrRecord(qr) then NotReadResult
    else
      var ms := Mismatches(ocr, qr.decodedData.value);
      if ms != [] then ConsistencyResult(true, 0.0, JoinWith(ms, "; "))
      else ConsistencyResult(true, 1.0, "OCR and QR data matched")
  }

  /** build_consistency. */
  method BuildConsistency(ocr: ExtractedFields, qr: QrResult) returns (r: ConsistencyResult)
    ensures r == ConsistencyOf(ocr, qr)
  {
    if qr.status != Decoded || IsEmptyData(qr.decodedData) {
      return NotReadResult;
    }
    var qrData := qr.decodedData.value;
    var mismatches: seq<string> := [];

    var ocrUid := ocr.aadhaarNumber;
    var qrUid := OrElse(Get(qrData, "aadhaar"), Get(qrData, "uid"));
    if Truthy(ocrUid) && Truthy(qrUid) {
      if Normalize(ocrUid) != Normalize(qrUid) {
        mismatches := mismatches + [IdMessage(ocr, qrData)];
      }
    }

    var ocrName := ocr.name;
    var qrName := Get(qrData, "name");
    if Truthy(ocrName) && Truthy(qrName) {
      var nOcr := Normalize(ocrName);
      var nQr := Normalize(qrName);
      if !Contains(nQr, nOcr) && !Contains(nOcr, nQr) {
        mismatches := mismatches + [NameMessage(ocr, qrData)];
      }
    }

    if mismatches != [] {
      return ConsistencyResult(true, 0.0, JoinWith(mismatches, "; "));
    }
    return ConsistencyResult(true, 1.0, "OCR and QR data matched");
  }

  /** The genders on either side never change the outcome. */
  lemma GenderIsIgnored(ocr: ExtractedFields, qr: QrResult, g: Option<string>)
    ensures ConsistencyOf(ocr.(gender := g), qr) == ConsistencyOf(ocr, qr)
    ensures qr.decodedData.Some? && qr.decodedData.value != map[] ==>
      ConsistencyOf(ocr, qr.(decodedData := Some(qr.decodedData.value["gender" := g]))) == ConsistencyOf(ocr, qr)
  {
    if qr.decodedData.Some? && qr.decodedData.value != map[] {
      var d := qr.decodedData.value;
      var d' := d["gender" := g];
      assert "gender" in d';
      assert Get(d', "name") == Get(d, "name") && Get(d', "aadhaar") == Get(d, "aadhaar") && Get(d', "uid") == Get(d, "uid");
      assert QrUid(d') == QrUid(d);
      assert Mismatches(ocr, d') == Mismatches(ocr, d);
    }
  }

  /** A field missing (or empty) on the card side is never a mismatch: a decoded
      record then always scores 1.0. */
  lemma MissingOcrFieldsMatch(ocr: ExtractedFields, qr: QrResult)
    requires HasQrRecord(qr) && !Truthy(ocr.aadhaarNumber) && !Truthy(ocr.name)
    ensures ConsistencyOf(ocr, qr) == ConsistencyResult(true, 1.0, "OCR and QR data matched")
  {
  }

  /** A name that differs only in case, spacing or punctuation, or that is a part of
      the other side's name, is not a mismatch. */
  lemma ContainedNameMatches(ocr: ExtractedFields, d: QrData)
    requires Contains(Normalize(Get(d, "name")), Normalize(ocr.name))
    ensures !NameMismatch(ocr, d)
  {
  }

  /** A reason made of a number message and a name message names both. */
  lemma TwoMessagesNameBoth(idTail: string, nameTail: string)
    ensures Contains(("Aadhaar Number mismatch" + idTail) + "; " + ("Name mismatch" + nameTail), "Aadhaar Number mismatch")
    ensures Contains(("Aadhaar Number mismatch" + idTail) + "; " + ("Name mismatch" + nameTail), "Name mismatch")
  {
    var idm, nm := "Aadhaar Number mismatch" + idTail, "Name mismatch" + nameTail;
    assert idm + "; " + nm == "" + "Aadhaar Number mismatch" + (idTail + "; " + nm);
    ContainsWithin("", "Aadhaar Number mismatch", idTail + "; " + nm);
    assert idm + "; " + nm == (idm + "; ") + "Name mismatch" + nameTail;
    ContainsWithin(idm + "; ", "Name mismatch", nameTail);
  }

  /** The reason joined from a number message and a name message names both. */
  lemma JoinedReasonNamesBoth(ocr: ExtractedFields, d: QrData)
    ensures Contains(JoinWith([IdMessage(ocr, d), NameMessage(ocr, d)], "; "), "Aadhaar Number mismatch")
    ensures Contains(JoinWith([IdMessage(ocr, d), NameMessage(ocr, d)], "; "), "Name mismatch")
  {
    var idm, nm := IdMessage(ocr, d), NameMessage(ocr, d);
    assert [idm, nm][1..] == [nm];
    assert JoinWith([nm], "; ") == nm;
    assert JoinWith([idm, nm], "; ") == idm + "; " + nm;
    TwoMessagesNameBoth(Compared(ocr.aadhaarNumber, QrUid(d)), Compared(ocr.name, Get(d, "name")));
  }

  /** When both the number and the name disagree, the reason names both, which is
      what the fraud scorer's double-mismatch override looks for. */
  lemma DoubleMismatchReason(ocr: ExtractedFields, qr: QrResult)
    requires HasQrRecord(qr)
    requires IdMismatch(ocr, qr.decodedData.value) && NameMismatch(ocr, qr.decodedData.value)
    ensures Contains(ConsistencyOf(ocr, qr).reason, "Aadhaar Number mismatch")
    ensures Contains(ConsistencyOf(ocr, qr).reason, "Name mismatch")
    ensures ConsistencyOf(ocr, qr).score == 0.0
  {
    var d := qr.decodedData.value;
    assert Mismatches(ocr, d) == [IdMessage(ocr, d), NameMessage(ocr, d)];
    JoinedReasonNamesBoth(ocr, d);
  }
}
