/**
 * The field extractor (Pipelines/extract_Aadhaar.py): turns the recognised text
 * lines of a card into a name, a date of birth, a gender and a 12-digit number.
 * Each regular expression of the source is written out as a scanner over the text.
 */
module Extract {
  import opened Common
  import opened Text
  import opened Dates

  /** The four fields the extractor returns; None where a field was not found. */
  datatype ExtractedFields = ExtractedFields(
    name: Option<string>,
    dob: Option<string>,
    gender: Option<string>,
    aadhaarNumber: Option<string>)

  // ---------------------------------------------------------------------------
  // clean_text and split_stuck_name

  /** `re.sub(r"[^\x00-\x7F]+", "", t)`. */
  function AsciiOnly(t: string): (r: string)
    ensures forall i | 0 <= i < |r| :: IsAscii(r[i])
    ensures |r| <= |t|
    ensures (forall i | 0 <= i < |t| :: IsAscii(t[i])) ==> r == t
  {
    if t == [] then [] else (if IsAscii(t[0]) then [t[0]] else []) + AsciiOnly(t[1..])
  }

  lemma {:induction false} AsciiOnlyAppend(a: string, b: string)
    ensures AsciiOnly(a + b) == AsciiOnly(a) + AsciiOnly(b)
  {
    if a == [] {
      assert a + b == b;
    } else {
      assert (a + b)[0] == a[0] && (a + b)[1..] == a[1..] + b;
      AsciiOnlyAppend(a[1..], b);
    }
  }

  /** Removing the non-ASCII characters drops each of them and keeps the rest in
      order: a non-ASCII character anywhere in the text leaves no trace. */
  lemma AsciiOnlyDropsNonAscii(a: string, c: char, b: string)
    requires !IsAscii(c)
    ensures AsciiOnly(a + [c] + b) == AsciiOnly(a + b)
  {
    AsciiOnlyAppend(a + [c], b);
    AsciiOnlyAppend(a, [c]);
    AsciiOnlyAppend(a, b);
    assert [c][1..] == [];
    assert AsciiOnly([c]) == [];
  }

  /** `clean_text`: drop every non-ASCII character, then strip surrounding whitespace.
      The result is the ASCII text with a whitespace prefix and a whitespace suffix
      removed, and it starts and ends with a non-space. */
  function CleanText(t: string): (r: string)
    ensures forall i | 0 <= i < |r| :: IsAscii(r[i])
    ensures r == [] || (!IsSpace(r[0]) && !IsSpace(r[|r| - 1]))
    ensures exists i :: SpacePadded(AsciiOnly(t), r, i)
  {
    var a := AsciiOnly(t);
    StripIsInfix(a);
    AllAsciiInfix(a, Strip(a));
    Strip(a)
  }

  lemma AllAsciiInfix(a: string, r: string)
    requires forall k | 0 <= k < |a| :: IsAscii(a[k])
    requires exists i :: SpacePadded(a, r, i)
    ensures forall k | 0 <= k < |r| :: IsAscii(r[k])
  {
    var i :| SpacePadded(a, r, i);
    assert forall k | 0 <= k < |r| :: r[k] == a[i + k];
  }

  /** An ASCII text made of whitespace, a trimmed core and whitespace is cleaned to
      the core. */
  lemma CleanTextOfPadded(pre: string, core: string, post: string)
    requires forall i | 0 <= i < |pre + core + post| :: IsAscii((pre + core + post)[i])
    requires AllSpace(pre) && AllSpace(post)
    requires core == [] || (!IsSpace(core[0]) && !IsSpace(core[|core| - 1]))
    ensures CleanText(pre + core + post) == core
  {
    assert AsciiOnly(pre + core + post) == pre + core + post;
    StripPadded(pre, core, post);
  }

  /** The number of places where an ASCII lower-case letter is directly followed
      by an ASCII upper-case letter. */
  function StuckCount(s: string): nat {
    if |s| < 2 then 0
    else (if IsLower(s[0]) && IsUpper(s[1]) then 1 else 0) + StuckCount(s[1..])
  }

  /** `split_stuck_name`: `re.sub(r"([a-z])([A-Z])", r"\1 \2", name)`. The matches
      cannot overlap (no character is both lower- and upper-case), so every such
      boundary gets one space. */
  function SplitStuckName(s: string): (r: string)
    ensures |s| > 0 ==> |r| > 0 && r[0] == s[0]
    ensures |r| == |s| + StuckCount(s)
    ensures RemoveChar(r, ' ') == RemoveChar(s, ' ')
    ensures StuckCount(r) == 0
    ensures forall c | c in r :: c in s || c == ' '
    ensures StuckCount(s) == 0 ==> r == s
  {
    if |s| < 2 then s
    else if IsLower(s[0]) && IsUpper(s[1]) then
      var rest := SplitStuckName(s[1..]);
      assert ([s[0], ' '] + rest)[1..] == [' '] + rest;
      assert ([' '] + rest)[1..] == rest;
      [s[0], ' '] + rest
    else
      var rest := SplitStuckName(s[1..]);
      assert ([s[0]] + rest)[1..] == rest;
      [s[0]] + rest
  }

  /** What split_stuck_name puts between two adjacent parts of a text: a space
      exactly when the first ends in a lower-case and the second starts with an
      upper-case letter. */
  function StuckGap(a: string, b: string): string {
    if a != [] && b != [] && IsLower(a[|a| - 1]) && IsUpper(b[0]) then " " else ""
  }

  /** split_stuck_name works piece by piece: splitting a concatenation splits each
      part and adds one space where the join itself is a boundary. With the base
      case (a text without boundaries is unchanged) this fixes every character and
      every inserted space. */
  lemma {:induction false} SplitStuckNameAppend(a: string, b: string)
    ensures SplitStuckName(a + b) == SplitStuckName(a) + StuckGap(a, b) + SplitStuckName(b)
  {
    if a == [] {
      assert a + b == b;
    } else if b == [] {
      assert a + b == a;
    } else if |a| == 1 {
      var s := a + b;
      assert s[0] == a[0] && s[1] == b[0] && s[1..] == b;
      var h: string := if IsLower(a[0]) && IsUpper(b[0]) then [a[0], ' '] else [a[0]];
      assert SplitStuckName(s) == h + SplitStuckName(b);
      assert SplitStuckName(a) + StuckGap(a, b) == h;
    } else {
      var s := a + b;
      assert s[0] == a[0] && s[1] == a[1] && s[1..] == a[1..] + b;
      var h: string := if IsLower(a[0]) && IsUpper(a[1]) then [a[0], ' '] else [a[0]];
      assert SplitStuckName(s) == h + SplitStuckName(a[1..] + b);
      assert SplitStuckName(a) == h + SplitStuckName(a[1..]);
      SplitStuckNameAppend(a[1..], b);
      assert StuckGap(a[1..], b) == StuckGap(a, b);
    }
  }

  /** Splitting stuck words adds one token per boundary it splits. */
  lemma {:induction false} SplitStuckNameWordCount(s: string, afterSpace: bool)
    ensures CountRuns(SplitStuckName(s), afterSpace) == CountRuns(s, afterSpace) + StuckCount(s)
  {
    if |s| >= 2 {
      var rest := SplitStuckName(s[1..]);
      SplitStuckNameWordCount(s[1..], IsSpace(s[0]));
      if IsLower(s[0]) && IsUpper(s[1]) {
        var r := [s[0], ' '] + rest;
        assert r[1..] == [' '] + rest;
        assert ([' '] + rest)[1..] == rest;
        SplitStuckNameWordCount(s[1..], true);
        RunsAfterWordChar(s[1..]);
      } else {
        assert ([s[0]] + rest)[1..] == rest;
      }
    }
  }

  lemma RunsAfterWordChar(s: string)
    requires |s| > 0 && !IsSpace(s[0])
    ensures CountRuns(s, true) == CountRuns(s, false) + 1
  {
  }

  // ---------------------------------------------------------------------------
  // find_dob_oldest: the full-date pattern and the bare-year pattern

  /** The separator class `[\s\/\.-]` of the full-date pattern. */
  predicate IsDateSep(c: char) {
    IsSpace(c) || c == '/' || c == '.' || c == '-'
  }

  /** The length of the (greedy, maximal) run of separators that starts at i. */
  function SepRun(s: string, i: nat): (n: nat)
    requires i <= |s|
    ensures i + n <= |s|
    ensures forall k | i <= k < i + n :: IsDateSep(s[k])
    ensures i + n == |s| || !IsDateSep(s[i + n])
    decreases |s| - i
  {
    if i < |s| && IsDateSep(s[i]) then 1 + SepRun(s, i + 1) else 0
  }

  predicate DigitsAt(s: string, i: int, n: nat) {
    0 <= i && i + n <= |s| && AllDigits(s[i..i + n])
  }

  /** `(\d{2})[\s\/\.-]+(\d{2})[\s\/\.-]+(\d{4})` tried at position p: the three
      captured groups as numbers and where the match ends. Digits and separators
      are disjoint classes, so the greedy runs never need to backtrack. */
  function DateMatchAt(s: string, p: nat): (r: Option<(Date, nat)>)
    requires p <= |s|
    ensures r.Some? ==> p < r.value.1 <= |s|
  {
    if !DigitsAt(s, p, 2) then None
    else
      var q := p + 2 + SepRun(s, p + 2);
      if q == p + 2 || !DigitsAt(s, q, 2) then None
      else
        var q2 := q + 2 + SepRun(s, q + 2);
        if q2 == q + 2 || !DigitsAt(s, q2, 4) then None
        else
          var dt := Date(DigitsValue(s[p..p + 2]), DigitsValue(s[q..q + 2]), DigitsValue(s[q2..q2 + 4]));
          Some((dt, q2 + 4))
  }

  /** `re.findall` of the full-date pattern from position p: a failed attempt moves
      on by one character, a match resumes the scan where it ended. */
  function DateMatchesFrom(s: string, p: nat): seq<Date>
    requires p <= |s|
    decreases |s| - p
  {
    if p == |s| then []
    else
      match DateMatchAt(s, p)
      case Some((dt, e)) => [dt] + DateMatchesFrom(s, e)
      case None => DateMatchesFrom(s, p + 1)
  }

  /** The checks a full-date match must pass to be kept: a year strictly between
      1900 and 2025, a month in 1..12, a day in 1..31, and `datetime(y, m, d)`
      must not raise. */
  predicate IsDobDate(dt: Date) {
    1900 < dt.year < 2025 && 1 <= dt.month <= 12 && 1 <= dt.day <= 31 && IsRealDate(dt)
  }

  function KeepDobDates(ds: seq<Date>): (r: seq<Date>)
    ensures forall d | d in r :: IsDobDate(d)
    ensures forall d | d in ds && IsDobDate(d) :: d in r
    ensures forall d | d in r :: d in ds
  {
    if ds == [] then []
    else
      var last := ds[|ds| - 1];
      assert ds == ds[..|ds| - 1] + [last];
      KeepDobDates(ds[..|ds| - 1]) + (if IsDobDate(last) then [last] else [])
  }

  /** The full dates of one line that survive the checks, in the order found. */
  function LineDates(text: string): seq<Date> {
    KeepDobDates(DateMatchesFrom(text, 0))
  }

  /** The `full_dates` list after all lines were scanned. */
  function AllDates(entries: seq<string>): (r: seq<Date>)
    ensures forall d | d in r :: IsDobDate(d)
  {
    if entries == [] then []
    else AllDates(entries[..|entries| - 1]) + LineDates(entries[|entries| - 1])
  }

  /** `\b(19\d{2}|20\d{2})\b` at position p (ASCII word characters). */
  predicate YearAt(s: string, p: nat) {
    && p + 4 <= |s|
    && ((s[p] == '1' && s[p + 1] == '9') || (s[p] == '2' && s[p + 1] == '0'))
    && IsDigit(s[p + 2]) && IsDigit(s[p + 3])
    && (p == 0 || !IsWordChar(s[p - 1]))
    && (p + 4 == |s| || !IsWordChar(s[p + 4]))
  }

  /** `re.findall` of the bare-year pattern from position p. */
  function YearMatchesFrom(s: string, p: nat): (r: seq<string>)
    ensures forall y | y in r :: |y| == 4 && AllDigits(y)
    decreases |s| - p
  {
    if p + 4 > |s| then []
    else if YearAt(s, p) then [s[p..p + 4]] + YearMatchesFrom(s, p + 4)
    else YearMatchesFrom(s, p + 1)
  }

  /** A bare year that is kept: four digits whose value is strictly between 1900 and 2025. */
  predicate IsBirthYear(y: string) {
    |y| == 4 && AllDigits(y) && 1900 < DigitsValue(y) < 2025
  }

  function KeepBirthYears(ys: seq<string>): (r: seq<string>)
    ensures forall y | y in r :: IsBirthYear(y)
  {
    if ys == [] then []
    else
      var last := ys[|ys| - 1];
      KeepBirthYears(ys[..|ys| - 1]) + (if IsBirthYear(last) then [last] else [])
  }

  function LineYears(text: string): seq<string> {
    KeepBirthYears(YearMatchesFrom(text, 0))
  }

  /** The `year_dates` list after all lines were scanned. */
  function AllYears(entries: seq<string>): (r: seq<string>)
    ensures forall y | y in r :: IsBirthYear(y)
  {
    if entries == [] then []
    else AllYears(entries[..|entries| - 1]) + LineYears(entries[|entries| - 1])
  }

  /** What find_dob_oldest returns: the oldest valid full date as DD/MM/YYYY when
      there is one (bare years are then ignored); otherwise the smallest bare year;
      otherwise None. */
  ghost predicate IsOldestDob(entries: seq<string>, dob: Option<string>) {
    var dates, years := AllDates(entries), AllYears(entries);
    if dates != [] then
      exists dt | dt in dates ::
        && dob == Some(FormatDmy(dt))
        && forall e | e in dates :: Ordinal(dt) <= Ordinal(e)
    else if years != [] then
      && dob.Some?
      && dob.value in years
      && forall y | y in years :: DigitsValue(dob.value) <= DigitsValue(y)
    else
      dob == None
  }

  /** The kept full dates of one line, in the order `re.findall` finds them. */
  method ScanLineDates(text: string) returns (kept: seq<Date>)
    ensures kept == LineDates(text)
  {
    var matches := DateMatchesFrom(text, 0);
    kept := [];
    for j := 0 to |matches|
      invariant kept == KeepDobDates(matches[..j])
    {
      assert matches[..j + 1][..j] == matches[..j];
      if IsDobDate(matches[j]) {
        kept := kept + [matches[j]];
      }
    }
    assert matches[..|matches|] == matches;
  }

  /** The kept bare years of one line, in the order `re.findall` finds them. */
  method ScanLineYears(text: string) returns (kept: seq<string>)
    ensures kept == LineYears(text)
  {
    var matches := YearMatchesFrom(text, 0);
    kept := [];
    for j := 0 to |matches|
      invariant kept == KeepBirthYears(matches[..j])
    {
      assert matches[..j + 1][..j] == matches[..j];
      if IsBirthYear(matches[j]) {
        kept := kept + [matches[j]];
      }
    }
    assert matches[..|matches|] == matches;
  }

  /** `full_dates.sort(key=lambda x: x[0])` then `[0]`: the first oldest date. */
  method OldestDate(dates: seq<Date>) returns (oldest: Date)
    requires dates != []
    ensures oldest in dates
    ensures forall e | e in dates :: Ordinal(oldest) <= Ordinal(e)
  {
    oldest := dates[0];
    for k := 1 to |dates|
      invariant oldest in dates
      invariant forall j | 0 <= j < k :: Ordinal(oldest) <= Ordinal(dates[j])
    {
      if Ordinal(dates[k]) < Ordinal(oldest) {
        oldest := dates[k];
      }
    }
  }

  /** `year_dates.sort(key=int)` then `[0]`: the first numerically smallest year. */
  method SmallestYear(years: seq<string>) returns (earliest: string)
    requires years != []
    requires forall j | 0 <= j < |years| :: AllDigits(years[j])
    ensures earliest in years && AllDigits(earliest)
    ensures forall j | 0 <= j < |years| :: DigitsValue(earliest) <= DigitsValue(years[j])
  {
    earliest := years[0];
    for k := 1 to |years|
      invariant earliest in years && AllDigits(earliest)
      invariant forall j | 0 <= j < k :: DigitsValue(earliest) <= DigitsValue(years[j])
    {
      if DigitsValue(years[k]) < DigitsValue(earliest) {
        earliest := years[k];
      }
    }
  }

  /** find_dob_oldest. */
  method FindDobOldest(entries: seq<string>) returns (dob: Option<string>)
    ensures IsOldestDob(entries, dob)
  {
    var fullDates: seq<Date> := [];
    var yearDates: seq<string> := [];
    for i := 0 to |entries|
      invariant fullDates == AllDates(entries[..i])
      invariant yearDates == AllYears(entries[..i])
    {
      assert entries[..i + 1][..i] == entries[..i];
      var lineDates := ScanLineDates(entries[i]);
      var lineYears := ScanLineYears(entries[i]);
      fullDates := fullDates + lineDates;
      yearDates := yearDates + lineYears;
    }
    assert entries[..|entries|] == entries;

    if fullDates != [] {
      var oldest := OldestDate(fullDates);
      return Some(FormatDmy(oldest));
    }
    if yearDates != [] {
      forall j | 0 <= j < |yearDates|
        ensures AllDigits(yearDates[j])
      {
        assert yearDates[j] in yearDates;
      }
      var earliest := SmallestYear(yearDates);
      assert forall y | y in yearDates :: DigitsValue(earliest) <= DigitsValue(y);
      return Some(earliest);
    }
    return None;
  }

  /** A decimal numeral's last digit and the rest are determined by its value. */
  lemma DecimalStep(x: nat, d: nat, y: nat, e: nat)
    requires d < 10 && e < 10 && 10 * x + d == 10 * y + e
    ensures x == y && d == e
  {
  }

  lemma {:induction false} FourDigitsInjective(a: string, b: string)
    requires |a| == |b| && AllDigits(a) && AllDigits(b) && DigitsValue(a) == DigitsValue(b)
    ensures a == b
  {
    if a != [] {
      var n := |a|;
      assert AllDigits(a[..n - 1]) && AllDigits(b[..n - 1]);
      DecimalStep(DigitsValue(a[..n - 1]), DigitValue(a[n - 1]), DigitsValue(b[..n - 1]), DigitValue(b[n - 1]));
      FourDigitsInjective(a[..n - 1], b[..n - 1]);
      assert a == a[..n - 1] + [a[n - 1]] && b == b[..n - 1] + [b[n - 1]];
    }
  }

  /** The description of find_dob_oldest's result leaves no choice: ties among the
      oldest dates or the smallest years name the same string. */
  lemma OldestDobIsUnique(entries: seq<string>, a: Option<string>, b: Option<string>)
    requires IsOldestDob(entries, a) && IsOldestDob(entries, b)
    ensures a == b
  {
    var dates, years := AllDates(entries), AllYears(entries);
    if dates != [] {
      var da :| da in dates && a == Some(FormatDmy(da)) && forall e | e in dates :: Ordinal(da) <= Ordinal(e);
      var db :| db in dates && b == Some(FormatDmy(db)) && forall e | e in dates :: Ordinal(db) <= Ordinal(e);
      OrdinalIsChronological(da, db);
    } else if years != [] {
      FourDigitsInjective(a.value, b.value);
    }
  }

  // ---------------------------------------------------------------------------
  // extract_name

  /** The seven exclusion words, tested against the upper-cased line. */
  const ExclusionWords: seq<string> := ["INDIA", "GOV", "DOB", "MALE", "FEMALE", "AADHAAR", "VID"]

  predicate HasExcludedWord(upper: string) {
    exists w | w in ExclusionWords :: Contains(upper, w)
  }

  /** The filter a cleaned line must pass to become a name candidate: at least three
      characters, no digit, no exclusion word as a case-insensitive substring, and
      at least two whitespace-separated tokens. */
  predicate IsNameLine(t: string) {
    |t| >= 3 && !HasDigit(t) && !HasExcludedWord(ToUpper(t)) && WordCount(t) >= 2
  }

  /** The `candidates` list: the surviving lines, cleaned, after stuck-name splitting. */
  function NameCandidates(lines: seq<string>): seq<string> {
    if lines == [] then []
    else
      var t := CleanText(lines[|lines| - 1]);
      NameCandidates(lines[..|lines| - 1]) + (if IsNameLine(t) then [SplitStuckName(t)] else [])
  }

  /** `max(candidates, key=len) if candidates else None`: the longest candidate,
      the first one among equally long ones. */
  ghost predicate IsLongestCandidate(cands: seq<string>, name: Option<string>) {
    if cands == [] then name == None
    else
      exists k | 0 <= k < |cands| ::
        && name == Some(cands[k])
        && (forall j | 0 <= j < |cands| :: |cands[j]| <= |cands[k]|)
        && (forall j | 0 <= j < k :: |cands[j]| < |cands[k]|)
  }

  /** One more line extends the candidate list by at most that line's candidate. */
  lemma NameCandidatesStep(lines: seq<string>, i: nat)
    requires i < |lines|
    ensures var t := CleanText(lines[i]);
      NameCandidates(lines[..i + 1]) == NameCandidates(lines[..i]) + (if IsNameLine(t) then [SplitStuckName(t)] else [])
  {
    assert lines[..i + 1][..i] == lines[..i];
  }

  /** The candidate loop of extract_name. */
  method CollectNameCandidates(lines: seq<string>) returns (candidates: seq<string>)
    ensures candidates == NameCandidates(lines)
  {
    candidates := [];
    for i := 0 to |lines|
      invariant candidates == NameCandidates(lines[..i])
    {
      var t := CleanText(lines[i]);
      NameCandidatesStep(lines, i);
      if |t| < 3 || HasDigit(t) {
        continue;
      }
      if HasExcludedWord(ToUpper(t)) {
        continue;
      }
      if WordCount(t) < 2 {
        continue;
      }
      t := SplitStuckName(t);
      candidates := candidates + [t];
    }
    assert lines[..|lines|] == lines;
  }

  /** `max(candidates, key=len)`: the index of the first longest candidate. */
  method LongestIndex(cands: seq<string>) returns (best: nat)
    requires cands != []
    ensures best < |cands|
    ensures forall j | 0 <= j < |cands| :: |cands[j]| <= |cands[best]|
    ensures forall j | 0 <= j < best :: |cands[j]| < |cands[best]|
  {
    best := 0;
    for k := 1 to |cands|
      invariant 0 <= best < k
      invariant forall j | 0 <= j < k :: |cands[j]| <= |cands[best]|
      invariant forall j | 0 <= j < best :: |cands[j]| < |cands[best]|
    {
      if |cands[k]| > |cands[best]| {
        best := k;
      }
    }
  }

  /** extract_name. */
  method ExtractName(lines: seq<string>) returns (name: Option<string>)
    ensures IsLongestCandidate(NameCandidates(lines), name)
  {
    var candidates := CollectNameCandidates(lines);
    if candidates == [] {
      return None;
    }
    var best := LongestIndex(candidates);
    return Some(candidates[best]);
  }

  // ---------------------------------------------------------------------------
  // extract_gender

  /** `\b` w `\b` at position p, for a word w that starts and ends with word characters. */
  predicate WholeWordAt(s: string, p: nat, w: string) {
    && p + |w| <= |s|
    && s[p..p + |w|] == w
    && (p == 0 || !IsWordChar(s[p - 1]))
    && (p + |w| == |s| || !IsWordChar(s[p + |w|]))
  }

  predicate HasWholeWord(s: string, w: string) {
    exists p | 0 <= p <= |s| - |w| :: WholeWordAt(s, p, w)
  }

  /** extract_gender: on the lower-cased text, the whole word "female" or "fem"
      gives "Female" (even when "male" also occurs), else the whole word "male"
      gives "Male", else None. */
  function ExtractGender(fullText: string): (r: Option<string>)
    ensures r == None || r == Some("Male") || r == Some("Female")
    ensures r == Some("Female") <==> HasWholeWord(ToLower(fullText), "female") || HasWholeWord(ToLower(fullText), "fem")
    ensures r == None <==> !HasWholeWord(ToLower(fullText), "female") && !HasWholeWord(ToLower(fullText), "fem") && !HasWholeWord(ToLower(fullText), "male")
  {
    var lower := ToLower(fullText);
    if HasWholeWord(lower, "female") || HasWholeWord(lower, "fem") then Some("Female")
    else if HasWholeWord(lower, "male") then Some("Male")
    else None
  }

  /** "male" inside "female" is not a whole word, so a card reading only "Female"
      is never taken for "Male". */
  lemma MaleIsNotAWordOfFemale(pre: string, post: string)
    requires pre == [] || !IsWordChar(pre[|pre| - 1])
    requires post == [] || !IsWordChar(post[0])
    ensures HasWholeWord(pre + "female" + post, "female")
    ensures !WholeWordAt(pre + "female" + post, |pre| + 2, "male")
  {
    var s := pre + "female" + post;
    assert s[|pre|..|pre| + 6] == "female";
    assert WholeWordAt(s, |pre|, "female");
    assert s[|pre| + 1] == 'e';
  }

  // ---------------------------------------------------------------------------
  // the 12-digit number

  /** `\b\d{4}\s?\d{4}\s?\d{4}\b` tried at position p: where the match ends. The
      optional whitespace is taken when present; dropping it could only leave a
      whitespace character where a digit is needed, so no other match exists. */
  function AadhaarMatchAt(s: string, p: nat): (r: Option<nat>)
    requires p <= |s|
    ensures r.Some? ==> p + 12 <= r.value <= p + 14 && r.value <= |s|
  {
    if !(p == 0 || !IsWordChar(s[p - 1])) || !DigitsAt(s, p, 4) then None
    else
      var q := if p + 4 < |s| && IsSpace(s[p + 4]) then p + 5 else p + 4;
      if !DigitsAt(s, q, 4) then None
      else
        var q2 := if q + 4 < |s| && IsSpace(s[q + 4]) then q + 5 else q + 4;
        if !DigitsAt(s, q2, 4) then None
        else if q2 + 4 < |s| && IsWordChar(s[q2 + 4]) then None
        else Some(q2 + 4)
  }

  /** `re.search` of that pattern from position p: the leftmost match. */
  function FirstAadhaarMatch(s: string, p: nat): (r: Option<(nat, nat)>)
    requires p <= |s|
    ensures r.Some? ==> p <= r.value.0 <= |s| && AadhaarMatchAt(s, r.value.0) == Some(r.value.1)
    ensures r.Some? ==> forall b | p <= b < r.value.0 :: AadhaarMatchAt(s, b) == None
    ensures r.None? ==> forall b | p <= b <= |s| :: AadhaarMatchAt(s, b) == None
    decreases |s| - p
  {
    match AadhaarMatchAt(s, p)
    case Some(e) => Some((p, e))
    case None => if p == |s| then None else FirstAadhaarMatch(s, p + 1)
  }

  /** `m.group().replace(" ", "")` of the first match, or None. */
  function AadhaarNumber(fullText: string): Option<string> {
    match FirstAadhaarMatch(fullText, 0)
    case None => None
    case Some((b, e)) => Some(RemoveChar(fullText[b..e], ' '))
  }

  lemma {:induction false} RemoveCharAppend(a: string, b: string, c: char)
    ensures RemoveChar(a + b, c) == RemoveChar(a, c) + RemoveChar(b, c)
  {
    if a == [] {
      assert a + b == b;
    } else {
      assert (a + b)[0] == a[0] && (a + b)[1..] == a[1..] + b;
      RemoveCharAppend(a[1..], b, c);
      if a[0] != c {
        assert [a[0]] + (RemoveChar(a[1..], c) + RemoveChar(b, c))
          == ([a[0]] + RemoveChar(a[1..], c)) + RemoveChar(b, c);
      }
    }
  }

  lemma {:induction false} RemoveCharKeepsDigits(g: string)
    requires AllDigits(g)
    ensures RemoveChar(g, ' ') == g
  {
    if g != [] {
      assert AllDigits(g[1..]);
      RemoveCharKeepsDigits(g[1..]);
    }
  }

  /** The optional `\s?` between two groups, after `.replace(" ", "")`. */
  predicate IsKeptGap(g: string) {
    g == [] || (|g| == 1 && IsSpace(g[0]) && g[0] != ' ')
  }

  lemma GapAfterRemoval(s: string, i: nat, j: nat)
    requires i <= j <= |s| && (j == i || (j == i + 1 && IsSpace(s[i])))
    ensures IsKeptGap(RemoveChar(s[i..j], ' '))
    ensures (j == i || s[i] == ' ') ==> RemoveChar(s[i..j], ' ') == []
  {
    if j == i + 1 {
      assert s[i..j] == [s[i]];
      assert s[i..j][1..] == [];
    }
  }

  /** A match of the number pattern at b is three digit groups with an optional
      whitespace character after the first and after the second. */
  lemma MatchParts(s: string, b: nat, e: nat) returns (q: nat, q2: nat)
    requires b <= |s| && AadhaarMatchAt(s, b) == Some(e)
    ensures b + 4 <= q <= b + 5 && q + 4 <= q2 <= q + 5 && e == q2 + 4 <= |s|
    ensures q == b + 5 ==> IsSpace(s[b + 4])
    ensures q2 == q + 5 ==> IsSpace(s[q + 4])
    ensures AllDigits(s[b..b + 4]) && AllDigits(s[q..q + 4]) && AllDigits(s[q2..q2 + 4])
    ensures s[b..e] == s[b..b + 4] + s[b + 4..q] + s[q..q + 4] + s[q + 4..q2] + s[q2..q2 + 4]
  {
    q := if b + 4 < |s| && IsSpace(s[b + 4]) then b + 5 else b + 4;
    q2 := if q + 4 < |s| && IsSpace(s[q + 4]) then q + 5 else q + 4;
    assert s[b..e] == s[b..q2] + s[q2..e];
    assert s[b..q2] == s[b..q + 4] + s[q + 4..q2];
    assert s[b..q + 4] == s[b..q] + s[q..q + 4];
    assert s[b..q] == s[b..b + 4] + s[b + 4..q];
  }

  lemma RemoveSpacesFromGroups(g1: string, s1: string, g2: string, s2: string, g3: string)
    requires AllDigits(g1) && AllDigits(g2) && AllDigits(g3)
    ensures RemoveChar(g1 + s1 + g2 + s2 + g3, ' ')
      == g1 + RemoveChar(s1, ' ') + g2 + RemoveChar(s2, ' ') + g3
  {
    RemoveCharAppend(g1 + s1 + g2 + s2, g3, ' ');
    RemoveCharAppend(g1 + s1 + g2, s2, ' ');
    RemoveCharAppend(g1 + s1, g2, ' ');
    RemoveCharAppend(g1, s1, ' ');
    RemoveCharKeepsDigits(g1);
    RemoveCharKeepsDigits(g2);
    RemoveCharKeepsDigits(g3);
  }

  /** What `.replace(" ", "")` makes of one match: the three digit groups and what
      is left of the two optional gaps. */
  lemma MatchShape(s: string, b: nat, e: nat) returns (g1: string, s1: string, g2: string, s2: string, g3: string)
    requires b <= |s| && AadhaarMatchAt(s, b) == Some(e)
    ensures RemoveChar(s[b..e], ' ') == g1 + s1 + g2 + s2 + g3
    ensures |g1| == |g2| == |g3| == 4 && AllDigits(g1) && AllDigits(g2) && AllDigits(g3)
    ensures IsKeptGap(s1) && IsKeptGap(s2)
    ensures s1 != [] ==> s1[0] in s
    ensures s2 != [] ==> s2[0] in s
  {
    var q, q2 := MatchParts(s, b, e);
    g1, g2, g3 := s[b..b + 4], s[q..q + 4], s[q2..q2 + 4];
    RemoveSpacesFromGroups(g1, s[b + 4..q], g2, s[q + 4..q2], g3);
    GapAfterRemoval(s, b + 4, q);
    GapAfterRemoval(s, q + 4, q2);
    s1, s2 := RemoveChar(s[b + 4..q], ' '), RemoveChar(s[q + 4..q2], ' ');
  }

  lemma PlainSpacesVanish(s: string, s1: string, s2: string)
    requires IsKeptGap(s1) && IsKeptGap(s2)
    requires s1 != [] ==> s1[0] in s
    requires s2 != [] ==> s2[0] in s
    requires forall c | c in s && IsSpace(c) :: c == ' '
    ensures s1 == [] && s2 == []
  {
  }


  lemma TwelveDigits(g1: string, g2: string, g3: string)
    requires |g1| == |g2| == |g3| == 4 && AllDigits(g1) && AllDigits(g2) && AllDigits(g3)
    ensures |g1 + g2 + g3| == 12 && AllDigits(g1 + g2 + g3)
  {
    var n := g1 + g2 + g3;
    assert forall i | 0 <= i < 12 :: n[i] == (if i < 4 then g1[i] else if i < 8 then g2[i - 4] else g3[i - 8]);
  }

  /** The number found is three groups of four digits, joined by nothing or by a
      whitespace character other than a plain space (which `.replace(" ", "")`
      keeps); when the text has no whitespace but plain spaces, it is exactly
      twelve digits. */
  lemma AadhaarNumberShape(fullText: string)
    ensures AadhaarNumber(fullText).Some? ==>
      exists g1, s1, g2, s2, g3 ::
        && AadhaarNumber(fullText).value == g1 + s1 + g2 + s2 + g3
        && |g1| == |g2| == |g3| == 4 && AllDigits(g1) && AllDigits(g2) && AllDigits(g3)
        && IsKeptGap(s1) && IsKeptGap(s2)
    ensures AadhaarNumber(fullText).Some? && (forall c | c in fullText && IsSpace(c) :: c == ' ') ==>
      |AadhaarNumber(fullText).value| == 12 && AllDigits(AadhaarNumber(fullText).value)
  {
    var r := FirstAadhaarMatch(fullText, 0);
    if r.Some? {
      var b, e := r.value.0, r.value.1;
      assert AadhaarNumber(fullText) == Some(RemoveChar(fullText[b..e], ' '));
      var g1, s1, g2, s2, g3 := MatchShape(fullText, b, e);
      if forall c | c in fullText && IsSpace(c) :: c == ' ' {
        PlainSpacesVanish(fullText, s1, s2);
        TwelveDigits(g1, g2, g3);
      }
    }
  }

  // ---------------------------------------------------------------------------
  // extract_fields: flattening the recognised texts

  /** An element inside a nested list of `rec_texts`. */
  datatype SubItem = TupleItem(first: string) | StrItem(text: string) | OtherSub

  /** An element of `rec_texts`: a nested list, a string, or anything else (skipped). */
  datatype RecItem = ListItem(subs: seq<SubItem>) | StrLine(text: string) | OtherItem

  /** The value `txt` holds after the inner loop has seen `subs`: the text of the
      last tuple or string among them, or "" when there is none (the variable is
      reset for every list, and an element of any other kind leaves it as it was). */
  function CurrentText(subs: seq<SubItem>): string {
    if subs == [] then ""
    else
      match subs[|subs| - 1]
      case TupleItem(f) => f
      case StrItem(t) => t
      case OtherSub => CurrentText(subs[..|subs| - 1])
  }

  /** What one nested list contributes: one text per element. */
  function SubTexts(subs: seq<SubItem>): (r: seq<string>)
    ensures |r| == |subs|
  {
    if subs == [] then [] else SubTexts(subs[..|subs| - 1]) + [CurrentText(subs)]
  }

  function ItemTexts(item: RecItem): seq<string> {
    match item
    case ListItem(subs) => SubTexts(subs)
    case StrLine(t) => [t]
    case OtherItem => []
  }

  /** `flat_texts` (and the `text` of each of `entries`) after the nested loops. */
  function Flatten(items: seq<RecItem>): seq<string> {
    if items == [] then [] else Flatten(items[..|items| - 1]) + ItemTexts(items[|items| - 1])
  }

  /** Inside a nested list, an element that is neither a tuple nor a string repeats
      the text before it, and the first element's text is its own (or ""). */
  lemma {:induction false} OtherSubRepeatsText(subs: seq<SubItem>, j: nat)
    requires 0 < j < |subs| && subs[j].OtherSub?
    ensures SubTexts(subs)[j] == SubTexts(subs)[j - 1]
  {
    var n := |subs|;
    if j == n - 1 {
      assert subs[..n - 1][..j] == subs[..j];
      SubTextIsCurrent(subs[..n - 1], j - 1);
    } else {
      assert subs[..n - 1][j] == subs[j];
      OtherSubRepeatsText(subs[..n - 1], j);
    }
  }

  lemma {:induction false} SubTextIsCurrent(subs: seq<SubItem>, j: nat)
    requires j < |subs|
    ensures SubTexts(subs)[j] == CurrentText(subs[..j + 1])
  {
    var n := |subs|;
    if j == n - 1 {
      assert subs[..j + 1] == subs;
    } else {
      assert subs[..n - 1][..j + 1] == subs[..j + 1];
      SubTextIsCurrent(subs[..n - 1], j);
    }
  }

  /** The inner loop of extract_fields over one nested list: `txt` starts as ""
      and every element appends the current `txt`. */
  method NestedTexts(subs: seq<SubItem>) returns (texts: seq<string>)
    ensures texts == SubTexts(subs)
  {
    var txt := "";
    texts := [];
    for j := 0 to |subs|
      invariant txt == CurrentText(subs[..j])
      invariant texts == SubTexts(subs[..j])
    {
      assert subs[..j + 1][..j] == subs[..j];
      match subs[j] {
        case TupleItem(f) => txt := f;
        case StrItem(t) => txt := t;
        case OtherSub =>
      }
      texts := texts + [txt];
    }
    assert subs[..|subs|] == subs;
  }

  /** The outer loop of extract_fields, building `flat_texts`. */
  method FlattenRecTexts(rawTexts: seq<RecItem>) returns (flatTexts: seq<string>)
    ensures flatTexts == Flatten(rawTexts)
  {
    flatTexts := [];
    for i := 0 to |rawTexts|
      invariant flatTexts == Flatten(rawTexts[..i])
    {
      assert rawTexts[..i + 1][..i] == rawTexts[..i];
      match rawTexts[i] {
        case ListItem(subs) =>
          var texts := NestedTexts(subs);
          flatTexts := flatTexts + texts;
        case StrLine(t) =>
          flatTexts := flatTexts + [t];
        case OtherItem =>
      }
    }
    assert rawTexts[..|rawTexts|] == rawTexts;
  }

  /** extract_fields. `recTexts` is `ocr_json.get("rec_texts")`, None when absent. */
  method ExtractFields(recTexts: Option<seq<RecItem>>) returns (fields: ExtractedFields)
    ensures var flat := Flatten(if recTexts.Some? then recTexts.value else []);
      && IsOldestDob(flat, fields.dob)
      && fields.aadhaarNumber == AadhaarNumber(JoinWith(flat, " "))
      && fields.gender == ExtractGender(JoinWith(flat, " "))
      && IsLongestCandidate(NameCandidates(flat), fields.name)
  {
    var rawTexts := if recTexts.Some? then recTexts.value else [];
    var flatTexts := FlattenRecTexts(rawTexts);

    var fullText := JoinWith(flatTexts, " ");
    var dob := FindDobOldest(flatTexts);
    var aadhaar := AadhaarNumber(fullText);
    var gender := ExtractGender(fullText);
    var name := ExtractName(flatTexts);
    fields := ExtractedFields(name, dob, gender, aadhaar);
  }
}
