/**
 * The QR stage (Pipelines/qr_validator.py): the payload parsers and the cascade
 * that turns a scanned QR text into the decoded record and a three-way status.
 * Reading the image and the two barcode decoders are inputs (`QrScan`), and the
 * secure-QR library is an opaque partial function.
 */
module QrValidator {
  import opened Common
  import opened Text

  /** A decoded payload: a dict whose values may be None. */
  type QrData = map<string, Option<string>>

  // ---------------------------------------------------------------------------
  // parse_pipe_format

  /** `len(p) == 12 and p.isdigit()`. */
  predicate IsTwelveDigits(p: string) {
    |p| == 12 && AllDigits(p)
  }

  function PartOrNone(parts: seq<string>, i: nat): Option<string> {
    if i < |parts| then Some(parts[i]) else None
  }

  /** `[p.strip() for p in pieces]`. */
  function StripAll(pieces: seq<string>): (r: seq<string>)
    ensures |r| == |pieces|
    ensures forall i | 0 <= i < |r| :: r[i] == Strip(pieces[i])
  {
    seq(|pieces|, i requires 0 <= i < |pieces| => Strip(pieces[i]))
  }

  /** The dict literal of parse_pipe_format, for two or more pieces: the number
      only when piece 0 is twelve digits, the name always, and the date of birth and
      the gender only when there are pieces for them. */
  function PipeRecord(parts: seq<string>): (r: QrData)
    requires |parts| >= 2
    ensures r.Keys == {"aadhaar", "name", "dob", "gender"}
    ensures r["aadhaar"].Some? <==> IsTwelveDigits(parts[0])
    ensures r["aadhaar"].Some? ==> r["aadhaar"].value == parts[0]
    ensures r["name"] == Some(parts[1])
    ensures r["dob"].Some? <==> |parts| > 2
    ensures r["dob"].Some? ==> r["dob"].value == parts[2]
    ensures r["gender"].Some? <==> |parts| > 3
    ensures r["gender"].Some? ==> r["gender"].value == parts[3]
  {
    map[
      "aadhaar" := if IsTwelveDigits(parts[0]) then Some(parts[0]) else None,
      "name" := PartOrNone(parts, 1),
      "dob" := PartOrNone(parts, 2),
      "gender" := PartOrNone(parts, 3)]
  }

  /** parse_pipe_format: the text split on `|`, each piece stripped; a record only
      when there are at least two pieces. Piece 0 is the number when it is exactly
      twelve digits, pieces 1-3 are the name, the date of birth and the gender. */
  function ParsePipeFormat(text: string): (r: Option<QrData>)
    ensures r.Some? <==> |SplitOn(text, '|')| >= 2
    ensures r.None? <==> '|' !in text
    ensures r.Some? ==> r == Some(PipeRecord(StripAll(SplitOn(text, '|'))))
    ensures r.Some? ==> r.value["name"] == Some(Strip(SplitOn(text, '|')[1]))
  {
    SplitCount(text, '|');
    var parts := StripAll(SplitOn(text, '|'));
    if |parts| >= 2 then Some(PipeRecord(parts)) else None
  }

  lemma StripIsSlice(s: string)
    ensures forall c | c in Strip(s) :: c in s
  {
    var l := StripLeft(s);
    var r := StripRight(l);
    assert forall i | 0 <= i < |r| :: r[i] == s[|s| - |l| + i];
  }

  lemma StripOfStripped(s: string)
    requires s == [] || (!IsSpace(s[0]) && !IsSpace(s[|s| - 1]))
    ensures Strip(s) == s
  {
  }

  /** A payload written as `p0|p1|...` from two or more pieces without `|` is read
      back as the record of those pieces, each one stripped. */
  lemma PipeRoundTrip(pieces: seq<string>)
    requires |pieces| >= 2
    requires forall i | 0 <= i < |pieces| :: '|' !in pieces[i]
    ensures ParsePipeFormat(JoinWith(pieces, "|")) == Some(PipeRecord(StripAll(pieces)))
  {
    JoinSplit(pieces, '|');
    SplitCount(JoinWith(pieces, "|"), '|');
  }

  /** With pieces that carry no surrounding whitespace, such as the GUI-style
      `id|name|dob|gender`, every piece is read back unchanged. */
  lemma TrimmedPipeRoundTrip(pieces: seq<string>)
    requires |pieces| >= 2
    requires forall i | 0 <= i < |pieces| :: '|' !in pieces[i]
    requires forall i | 0 <= i < |pieces| :: pieces[i] == [] || (!IsSpace(pieces[i][0]) && !IsSpace(pieces[i][|pieces[i]| - 1]))
    ensures ParsePipeFormat(JoinWith(pieces, "|")) == Some(PipeRecord(pieces))
  {
    PipeRoundTrip(pieces);
    StripAllOfStripped(pieces);
  }

  lemma StripAllOfStripped(pieces: seq<string>)
    requires forall i | 0 <= i < |pieces| :: pieces[i] == [] || (!IsSpace(pieces[i][0]) && !IsSpace(pieces[i][|pieces[i]| - 1]))
    ensures StripAll(pieces) == pieces
  {
    forall i | 0 <= i < |pieces| ensures Strip(pieces[i]) == pieces[i] {
      StripOfStripped(pieces[i]);
    }
  }

  // ---------------------------------------------------------------------------
  // parse_xml_format

  /** The character class of an attribute value: `\d`, `[^"]` or `[MF]`. */
  datatype ValueClass = DigitRun | NonQuoteRun | SexLetter

  predicate InClass(c: char, cls: ValueClass) {
    match cls
    case DigitRun => IsDigit(c)
    case NonQuoteRun => c != '"'
    case SexLetter => c == 'M' || c == 'F'
  }

  /** The length of the maximal run of class characters starting at i. */
  function ClassRun(s: string, i: nat, cls: ValueClass): (n: nat)
    requires i <= |s|
    ensures i + n <= |s|
    ensures forall k | i <= k < i + n :: InClass(s[k], cls)
    ensures i + n == |s| || !InClass(s[i + n], cls)
    decreases |s| - i
  {
    if i < |s| && InClass(s[i], cls) then 1 + ClassRun(s, i + 1, cls) else 0
  }

  /** `key="(value)"` tried at position p, where the value is one or more class
      characters (exactly one for `[MF]`) and the closing quote must follow. No
      class contains the quote, so the greedy run never needs to backtrack. */
  function AttrAt(s: string, p: nat, key: string, cls: ValueClass): (r: Option<string>)
    requires p <= |s|
    ensures r.Some? ==> r.value != [] && forall i | 0 <= i < |r.value| :: InClass(r.value[i], cls)
    ensures r.Some? && cls == SexLetter ==> |r.value| == 1
  {
    var open := key + "=\"";
    if p + |open| > |s| || s[p..p + |open|] != open then None
    else
      var v := p + |open|;
      var n := ClassRun(s, v, cls);
      var len := if cls == SexLetter && n > 1 then 1 else n;
      if len == 0 || v + len >= |s| || s[v + len] != '"' then None
      else Some(s[v..v + len])
  }

  /** `re.search(r'key="(...)"', s)` from position p: the leftmost match. */
  function AttrSearch(s: string, p: nat, key: string, cls: ValueClass): (r: Option<string>)
    requires p <= |s|
    ensures r.Some? ==> r.value != [] && forall i | 0 <= i < |r.value| :: InClass(r.value[i], cls)
    ensures r.Some? && cls == SexLetter ==> |r.value| == 1
    decreases |s| - p
  {
    match AttrAt(s, p, key, cls)
    case Some(v) => Some(v)
    case None => if p == |s| then None else AttrSearch(s, p + 1, key, cls)
  }

  function Attr(s: string, key: string, cls: ValueClass): Option<string> {
    AttrSearch(s, 0, key, cls)
  }

  /** An attribute written out as `key="v"` is found again by the search. */
  lemma AttributeRoundTrip(key: string, v: string, cls: ValueClass)
    requires v != [] && forall i | 0 <= i < |v| :: InClass(v[i], cls)
    requires cls == SexLetter ==> |v| == 1
    ensures Attr(key + "=\"" + v + "\"", key, cls) == Some(v)
  {
    var s := key + "=\"" + v + "\"";
    var open := key + "=\"";
    assert s[0..|open|] == open;
    var n := ClassRun(s, |open|, cls);
    forall k | |open| <= k < |open| + |v| ensures InClass(s[k], cls) {
      assert s[k] == v[k - |open|];
    }
    assert s[|open| + |v|] == '"';
    assert n == |v|;
    assert s[|open|..|open| + |v|] == v;
  }

  /** `if m: data[key] = value`. */
  function SetIfFound(d: QrData, key: string, v: Option<string>): QrData
  {
    if v.Some? then d[key := v] else d
  }

  /** The dict parse_xml_format fills from the values it found, each None when its
      search failed. */
  function XmlRecord(uid: Option<string>, name: Option<string>, gender: Option<string>, dob: Option<string>): (r: QrData)
    ensures r.Keys <= {"aadhaar", "name", "gender", "dob"}
    ensures ("aadhaar" in r <==> uid.Some?) && ("aadhaar" in r ==> r["aadhaar"] == uid)
    ensures ("name" in r <==> name.Some?) && ("name" in r ==> r["name"] == name)
    ensures ("gender" in r <==> gender.Some?) && ("gender" in r ==> r["gender"] == gender)
    ensures ("dob" in r <==> dob.Some?) && ("dob" in r ==> r["dob"] == dob)
  {
    var d1 := SetIfFound(map[], "aadhaar", uid);
    var d2 := SetIfFound(d1, "name", name);
    var d3 := SetIfFound(d2, "gender", gender);
    SetIfFound(d3, "dob", dob)
  }

  /** `"Male" if g == "M" else "Female"` for a gender that was found. */
  function SexOf(gen: Option<string>): Option<string> {
    if gen.Some? then Some(if gen.value == "M" then "Male" else "Female") else None
  }

  /** The date of birth: `dob` when present, `yob` otherwise. */
  function DobOrYob(text: string): Option<string> {
    var dob := Attr(text, "dob", NonQuoteRun);
    if dob.Some? then dob else Attr(text, "yob", DigitRun)
  }

  /** The record parse_xml_format builds: uid, name, gender (M or F mapped to
      "Male" or "Female"), and dob with `yob` used only when `dob` is absent;
      None when no attribute matched. */
  function XmlFields(text: string): (r: Option<QrData>)
    ensures r.Some? ==> r.value != map[]
  {
    var rec := XmlRecord(Attr(text, "uid", DigitRun), Attr(text, "name", NonQuoteRun),
                         SexOf(Attr(text, "gender", SexLetter)), DobOrYob(text));
    if rec != map[] then Some(rec) else None
  }

  /** parse_xml_format returns None exactly when none of the five attributes is found. */
  lemma XmlNoneIffNoAttribute(text: string)
    ensures XmlFields(text).None? <==>
      (&& Attr(text, "uid", DigitRun).None? && Attr(text, "name", NonQuoteRun).None?
       && Attr(text, "gender", SexLetter).None? && Attr(text, "dob", NonQuoteRun).None?
       && Attr(text, "yob", DigitRun).None?)
  {
  }

  /** The record holds only the four known keys, each with a non-empty value; the
      gender is "Male" or "Female" and the number is all digits. */
  lemma XmlRecordShape(text: string)
    requires XmlFields(text).Some?
    ensures XmlFields(text).value.Keys <= {"aadhaar", "name", "gender", "dob"}
    ensures forall k | k in XmlFields(text).value :: XmlFields(text).value[k].Some? && XmlFields(text).value[k].value != []
    ensures "gender" in XmlFields(text).value ==> XmlFields(text).value["gender"] in {Some("Male"), Some("Female")}
    ensures "aadhaar" in XmlFields(text).value ==> AllDigits(XmlFields(text).value["aadhaar"].value)
  {
    var uid, name := Attr(text, "uid", DigitRun), Attr(text, "name", NonQuoteRun);
    var sex, dob := SexOf(Attr(text, "gender", SexLetter)), DobOrYob(text);
    var r := XmlRecord(uid, name, sex, dob);
    assert XmlFields(text).value == r;
    assert dob.Some? ==> dob.value != [];
    forall k | k in r
      ensures r[k].Some? && r[k].value != []
    {
      assert k == "aadhaar" || k == "name" || k == "gender" || k == "dob";
    }
  }

  /** parse_xml_format: the record, or None when it stayed empty. */
  method ParseXmlFormat(text: string) returns (r: Option<QrData>)
    ensures r == XmlFields(text)
  {
    var data := FillXmlRecord(text);
    r := if data != map[] then Some(data) else None;
  }

  /** The body of parse_xml_format, filling the record key by key. */
  method FillXmlRecord(text: string) returns (data: QrData)
    ensures data == XmlRecord(Attr(text, "uid", DigitRun), Attr(text, "name", NonQuoteRun),
                              SexOf(Attr(text, "gender", SexLetter)), DobOrYob(text))
  {
    data := map[];
    var mUid := Attr(text, "uid", DigitRun);
    if mUid.Some? {
      data := data["aadhaar" := mUid];
    }
    ghost var d1 := data;
    assert d1 == SetIfFound(map[], "aadhaar", mUid);
    var mName := Attr(text, "name", NonQuoteRun);
    if mName.Some? {
      data := data["name" := mName];
    }
    ghost var d2 := data;
    assert d2 == SetIfFound(d1, "name", mName);
    var mGen := Attr(text, "gender", SexLetter);
    if mGen.Some? {
      data := data["gender" := SexOf(mGen)];
    }
    ghost var d3 := data;
    assert d3 == SetIfFound(d2, "gender", SexOf(mGen));
    var mDob := Attr(text, "dob", NonQuoteRun);
    if mDob.Some? {
      data := data["dob" := mDob];
    } else {
      var mYob := Attr(text, "yob", DigitRun);
      if mYob.Some? {
        data := data["dob" := mYob];
      }
    }
    assert data == SetIfFound(d3, "dob", DobOrYob(text));
  }

  /** The `dob` attribute wins over `yob` whenever both are present. */
  lemma XmlDobBeatsYob(text: string)
    requires Attr(text, "dob", NonQuoteRun).Some?
    ensures XmlFields(text).Some? && XmlFields(text).value["dob"] == Attr(text, "dob", NonQuoteRun)
  {
  }

  // ---------------------------------------------------------------------------
  // try_decode_secure_qr

  /** The secure-QR library: `AadhaarSecureQr(text).decoded_data()`, None where it raises. */
  type SecureDecoder = string -> Option<map<string, Option<string>>>

  /** try_decode_secure_qr: name, dob and gender copied from the decoded record, and
      the number taken from `uid`, or from `aadhaar` when `uid` is missing or empty. */
  function TryDecodeSecureQr(text: string, secure: SecureDecoder): (r: Option<QrData>)
    ensures r.Some? <==> secure(text).Some?
    ensures r.Some? ==> r.value.Keys == {"name", "dob", "gender", "aadhaar"}
    ensures r.Some? && Truthy(Get(secure(text).value, "uid")) ==> r.value["aadhaar"] == Get(secure(text).value, "uid")
    ensures r.Some? && !Truthy(Get(secure(text).value, "uid")) ==> r.value["aadhaar"] == Get(secure(text).value, "aadhaar")
  {
    match secure(text)
    case None => None
    case Some(d) =>
      Some(map[
        "name" := Get(d, "name"),
        "dob" := Get(d, "dob"),
        "gender" := Get(d, "gender"),
        "aadhaar" := OrElse(Get(d, "uid"), Get(d, "aadhaar"))])
  }

  // ---------------------------------------------------------------------------
  // validate_qr

  datatype QrStatus = NotDetected | LikelyPresentButUnreadable | Decoded

  /** The dict validate_qr returns. */
  datatype QrResult = QrResult(status: QrStatus, decodedData: Option<QrData>)

  /** What the image readers produced: the image could not be loaded, or it was
      loaded and pyzbar gave the text of its first symbol (None when it found none
      or raised) and OpenCV's detector gave its text ("" when nothing). */
  datatype QrScan = ImageUnreadable | ImageRead(pyzbarText: Option<string>, opencvText: string)

  /** `if not qr_data`: None or an empty dict. */
  predicate IsEmptyData(d: Option<QrData>) {
    d.None? || d.value == map[]
  }

  /** The decoded text the parsers see: pyzbar's when non-empty, else OpenCV's
      when non-empty, else none. */
  function ScannedText(pyzbarText: Option<string>, opencvText: string): (r: Option<string>)
    ensures r.Some? ==> r.value != []
    ensures r.None? <==> !Truthy(pyzbarText) && opencvText == ""
    ensures Truthy(pyzbarText) ==> r == pyzbarText
    ensures !Truthy(pyzbarText) && opencvText != "" ==> r == Some(opencvText)
  {
    if Truthy(pyzbarText) then pyzbarText
    else if opencvText != "" then Some(opencvText)
    else None
  }

  /** The parse cascade: XML, then pipe, then the secure decoder, then the raw text. */
  function ParseCascade(text: string, secure: SecureDecoder): (r: QrData)
    ensures r != map[]
    ensures '|' in text && XmlFields(text).None? ==> r == ParsePipeFormat(text).value
  {
    PipeRecordHasName(text);
    var x := XmlFields(text);
    if !IsEmptyData(x) then x.value
    else
      var p := ParsePipeFormat(text);
      if !IsEmptyData(p) then p.value
      else
        var s := TryDecodeSecureQr(text, secure);
        if !IsEmptyData(s) then s.value
        else
          var raw := map["raw_text" := Some(text)];
          assert "raw_text" in raw;
          raw
  }

  /** validate_qr over the scan results. */
  method ValidateQr(scan: QrScan, secure: SecureDecoder) returns (result: QrResult)
    ensures scan.ImageUnreadable? ==> result == QrResult(NotDetected, None)
    ensures scan.ImageRead? && ScannedText(scan.pyzbarText, scan.opencvText).Some? ==>
      result == QrResult(Decoded, Some(ParseCascade(ScannedText(scan.pyzbarText, scan.opencvText).value, secure)))
    ensures scan.ImageRead? && ScannedText(scan.pyzbarText, scan.opencvText).None? ==>
      result == QrResult(LikelyPresentButUnreadable, None)
    ensures result.status == Decoded <==> result.decodedData.Some?
    ensures result.decodedData.Some? ==> result.decodedData.value != map[]
  {
    if scan.ImageUnreadable? {
      return QrResult(NotDetected, None);
    }
    var decodedText: Option<string> := None;
    if scan.pyzbarText.Some? {
      decodedText := scan.pyzbarText;
    }
    if !Truthy(decodedText) {
      if scan.opencvText != "" {
        decodedText := Some(scan.opencvText);
      }
    }
    if Truthy(decodedText) {
      var text := decodedText.value;
      var qrData := ParseXmlFormat(text);
      if IsEmptyData(qrData) {
        qrData := ParsePipeFormat(text);
      }
      if IsEmptyData(qrData) {
        qrData := TryDecodeSecureQr(text, secure);
      }
      if IsEmptyData(qrData) {
        qrData := Some(map["raw_text" := Some(text)]);
      }
      return QrResult(Decoded, qrData);
    }
    return QrResult(LikelyPresentButUnreadable, None);
  }

  /** A pipe-delimited text always yields a record with a name, so it is never empty. */
  lemma PipeRecordHasName(text: string)
    ensures '|' in text ==> ParsePipeFormat(text).Some? && "name" in ParsePipeFormat(text).value
    ensures '|' in text ==> !IsEmptyData(ParsePipeFormat(text))
  {
    if '|' in text {
      SplitCount(text, '|');
      var parts := StripAll(SplitOn(text, '|'));
      assert ParsePipeFormat(text) == Some(PipeRecord(parts));
      assert "name" in ParsePipeFormat(text).value;
    }
  }

  /** A text containing `|` that no XML attribute matches is settled by the pipe
      parser's record: the secure decoder is never consulted, so any two decoders
      give the same record. */
  lemma PipeTextSkipsSecureDecoder(text: string, s1: SecureDecoder, s2: SecureDecoder)
    requires '|' in text && XmlFields(text).None?
    ensures ParseCascade(text, s1) == ParseCascade(text, s2) == ParsePipeFormat(text).value
  {
  }

  /** A text that is neither XML nor pipe-delimited and that the secure decoder
      accepts is settled by the secure decoder's record. */
  lemma SecureDecoderSettlesOtherText(text: string, secure: SecureDecoder)
    requires XmlFields(text).None? && '|' !in text && secure(text).Some?
    ensures ParseCascade(text, secure) == TryDecodeSecureQr(text, secure).value
  {
    assert "name" in TryDecodeSecureQr(text, secure).value;
  }

  /** A text that is neither XML, nor pipe-delimited, nor accepted by the secure
      decoder is kept raw. */
  lemma RawFallback(text: string, secure: SecureDecoder)
    requires XmlFields(text).None? && '|' !in text && secure(text).None?
    ensures ParseCascade(text, secure) == map["raw_text" := Some(text)]
  {
  }

  /** An XML payload is never handed to the other parsers. */
  lemma XmlWins(text: string, secure: SecureDecoder)
    requires XmlFields(text).Some?
    ensures ParseCascade(text, secure) == XmlFields(text).value
  {
  }
}
