/**
 * Character classes and string operations with Python's meaning: `str.isspace()`
 * (which `\s`, `str.split()` and `str.strip()` all use), ASCII `\d` and `\w`,
 * `str.split(sep)`, `sep.join(parts)`, `str.replace(c, "")`, `in` on strings.
 */
module Text {

  /** Python's `str.isspace()`: the ASCII whitespace (including the four separators
      0x1C-0x1F) and the Unicode space characters. */
  predicate IsSpace(c: char) {
    || c == ' '
    || ('\t' <= c <= '\r')
    || ('\U{1C}' <= c <= '\U{1F}')
    || c == '\U{85}' || c == '\U{A0}' || c == '\U{1680}'
    || ('\U{2000}' <= c <= '\U{200A}')
    || c == '\U{2028}' || c == '\U{2029}' || c == '\U{202F}' || c == '\U{205F}' || c == '\U{3000}'
  }

  predicate IsDigit(c: char) { '0' <= c <= '9' }
  predicate IsLower(c: char) { 'a' <= c <= 'z' }
  predicate IsUpper(c: char) { 'A' <= c <= 'Z' }
  predicate IsAscii(c: char) { c <= '\U{7F}' }

  /** A character of `\w`, restricted to ASCII. */
  predicate IsWordChar(c: char) { IsDigit(c) || IsLower(c) || IsUpper(c) || c == '_' }

  predicate AllDigits(s: string) { forall i | 0 <= i < |s| :: IsDigit(s[i]) }
  predicate HasDigit(s: string) { exists i | 0 <= i < |s| :: IsDigit(s[i]) }

  function LowerChar(c: char): char {
    if IsUpper(c) then (c as int + 32) as char else c
  }

  function UpperChar(c: char): char {
    if IsLower(c) then (c as int - 32) as char else c
  }

  /** `s.lower()` on ASCII letters. */
  function ToLower(s: string): string {
    seq(|s|, i requires 0 <= i < |s| => LowerChar(s[i]))
  }

  /** `s.upper()` on ASCII letters. */
  function ToUpper(s: string): string {
    seq(|s|, i requires 0 <= i < |s| => UpperChar(s[i]))
  }

  /** Python's `sub in s`. */
  predicate Contains(s: string, sub: string) {
    exists i | 0 <= i <= |s| - |sub| :: sub <= s[i..]
  }

  /** A piece of a concatenation occurs in it. */
  lemma ContainsWithin(pre: string, sub: string, post: string)
    ensures Contains(pre + sub + post, sub)
  {
    assert (pre + sub + post)[|pre|..] == sub + post;
  }

  /** `s.lstrip()`: drops the leading whitespace. */
  function StripLeft(s: string): (r: string)
    ensures |r| <= |s| && r == s[|s| - |r|..]
    ensures forall i | 0 <= i < |s| - |r| :: IsSpace(s[i])
    ensures r == [] || !IsSpace(r[0])
  {
    if s != [] && IsSpace(s[0]) then StripLeft(s[1..]) else s
  }

  /** `s.rstrip()`: drops the trailing whitespace. */
  function StripRight(s: string): (r: string)
    ensures |r| <= |s| && r == s[..|r|]
    ensures forall i | |r| <= i < |s| :: IsSpace(s[i])
    ensures r == [] || !IsSpace(r[|r| - 1])
  {
    if s != [] && IsSpace(s[|s| - 1]) then StripRight(s[..|s| - 1]) else s
  }

  /** `s.strip()`. */
  function Strip(s: string): string {
    StripRight(StripLeft(s))
  }

  /** Every character of `s` is whitespace. */
  predicate AllSpace(s: string) {
    forall i | 0 <= i < |s| :: IsSpace(s[i])
  }

  /** `lstrip` removes exactly a whitespace prefix that stops at a non-space. */
  lemma {:induction false} StripLeftPadded(pre: string, rest: string)
    requires AllSpace(pre) && (rest == [] || !IsSpace(rest[0]))
    ensures StripLeft(pre + rest) == rest
  {
    if pre == [] {
      assert pre + rest == rest;
    } else {
      assert (pre + rest)[0] == pre[0] && (pre + rest)[1..] == pre[1..] + rest;
      assert AllSpace(pre[1..]);
      StripLeftPadded(pre[1..], rest);
    }
  }

  /** `rstrip` removes exactly a whitespace suffix that follows a non-space. */
  lemma {:induction false} StripRightPadded(core: string, post: string)
    requires AllSpace(post) && (core == [] || !IsSpace(core[|core| - 1]))
    ensures StripRight(core + post) == core
  {
    if post == [] {
      assert core + post == core;
    } else {
      var s := core + post;
      var p := post[..|post| - 1];
      assert s[|s| - 1] == post[|post| - 1] && s[..|s| - 1] == core + p;
      assert AllSpace(p);
      StripRightPadded(core, p);
    }
  }

  /** `r` sits at offset `i` of `a` with only whitespace before and after it. */
  predicate SpacePadded(a: string, r: string, i: int)
  {
    0 <= i <= |a| - |r| && a[i..i + |r|] == r && AllSpace(a[..i]) && AllSpace(a[i + |r|..])
  }

  /** `strip` removes a whitespace prefix and a whitespace suffix and keeps what is
      between, which starts and ends with a non-space. */
  lemma StripIsInfix(a: string)
    ensures Strip(a) == [] || (!IsSpace(Strip(a)[0]) && !IsSpace(Strip(a)[|Strip(a)| - 1]))
    ensures exists i :: SpacePadded(a, Strip(a), i)
  {
    var l := StripLeft(a);
    var r := StripRight(l);
    var i := |a| - |l|;
    StripLeftDropsSpace(a);
    StripRightDropsSpace(l);
    assert a[i..i + |r|] == r;
    assert a[i + |r|..] == l[|r|..];
    assert SpacePadded(a, r, i);
  }

  lemma StripLeftDropsSpace(a: string)
    ensures AllSpace(a[..|a| - |StripLeft(a)|])
  {
    var i := |a| - |StripLeft(a)|;
    forall k | 0 <= k < i ensures IsSpace(a[..i][k]) {
      assert a[..i][k] == a[k];
    }
  }

  lemma StripRightDropsSpace(l: string)
    ensures AllSpace(l[|StripRight(l)|..])
  {
    var n := |StripRight(l)|;
    forall k | 0 <= k < |l| - n ensures IsSpace(l[n..][k]) {
      assert l[n..][k] == l[n + k];
    }
  }

  /** `strip` of a trimmed core surrounded by whitespace gives the core back. */
  lemma StripPadded(pre: string, core: string, post: string)
    requires AllSpace(pre) && AllSpace(post)
    requires core == [] || (!IsSpace(core[0]) && !IsSpace(core[|core| - 1]))
    ensures Strip(pre + core + post) == core
  {
    if core == [] {
      assert pre + core + post == (pre + post) + [];
      assert AllSpace(pre + post) by {
        forall i | 0 <= i < |pre + post| ensures IsSpace((pre + post)[i]) {
          if i >= |pre| {
            assert (pre + post)[i] == post[i - |pre|];
          }
        }
      }
      StripLeftPadded(pre + post, []);
    } else {
      assert pre + core + post == pre + (core + post);
      StripLeftPadded(pre, core + post);
      StripRightPadded(core, post);
    }
  }

  /** The number of maximal runs of non-whitespace characters in `s` that start
      after a whitespace character (or at the start, when `afterSpace` holds). */
  function CountRuns(s: string, afterSpace: bool): nat {
    if s == [] then 0
    else (if !IsSpace(s[0]) && afterSpace then 1 else 0) + CountRuns(s[1..], IsSpace(s[0]))
  }

  /** `len(s.split())`: the number of whitespace-separated tokens. */
  function WordCount(s: string): nat {
    CountRuns(s, true)
  }

  /** A string without whitespace is one token, or none when it is empty. */
  lemma {:induction false} SolidRuns(s: string, afterSpace: bool)
    requires forall i | 0 <= i < |s| :: !IsSpace(s[i])
    ensures CountRuns(s, afterSpace) == if s != [] && afterSpace then 1 else 0
  {
    if s != [] {
      SolidRuns(s[1..], false);
    }
  }

  /** Counting the tokens of a concatenation: the second part starts after the last
      character of the first. */
  lemma {:induction false} CountRunsAppend(a: string, b: string, afterSpace: bool)
    ensures CountRuns(a + b, afterSpace) ==
      CountRuns(a, afterSpace) + CountRuns(b, if a == [] then afterSpace else IsSpace(a[|a| - 1]))
  {
    if a == [] {
      assert a + b == b;
    } else {
      assert (a + b)[0] == a[0] && (a + b)[1..] == a[1..] + b;
      CountRunsAppend(a[1..], b, IsSpace(a[0]));
    }
  }

  function DigitValue(c: char): nat
    requires IsDigit(c)
  {
    c as int - '0' as int
  }

  function DigitChar(n: nat): (c: char)
    requires n < 10
    ensures IsDigit(c) && DigitValue(c) == n
  {
    ('0' as int + n) as char
  }

  /** `int(s)` for a string of ASCII digits. */
  function DigitsValue(s: string): nat
    requires AllDigits(s)
  {
    if s == [] then 0 else DigitsValue(s[..|s| - 1]) * 10 + DigitValue(s[|s| - 1])
  }

  /** `str(n)` for a natural number. */
  function DecimalString(n: nat): string {
    if n < 10 then [DigitChar(n)] else DecimalString(n / 10) + [DigitChar(n % 10)]
  }

  /** `str(n)` is read back by `int(...)` and has four digits for four-digit numbers. */
  lemma {:induction false} DecimalStringRoundTrip(n: nat)
    ensures AllDigits(DecimalString(n)) && DigitsValue(DecimalString(n)) == n
    ensures n < 10 ==> |DecimalString(n)| == 1
    ensures 10 <= n ==> |DecimalString(n)| == |DecimalString(n / 10)| + 1
    ensures 1000 <= n <= 9999 ==> |DecimalString(n)| == 4
  {
    var s := DecimalString(n);
    if n >= 10 {
      DecimalStringRoundTrip(n / 10);
      if n >= 100 {
        DecimalStringRoundTrip(n / 100);
        if n >= 1000 {
          DecimalStringRoundTrip(n / 1000);
        }
      }
      assert s[..|s| - 1] == DecimalString(n / 10);
    }
  }

  /** `s.split(sep)` for a one-character separator. */
  function SplitOn(s: string, sep: char): (parts: seq<string>)
    ensures |parts| >= 1
    ensures forall i | 0 <= i < |parts| :: sep !in parts[i]
  {
    if s == [] then [""]
    else
      var rest := SplitOn(s[1..], sep);
      if s[0] == sep then [""] + rest
      else [[s[0]] + rest[0]] + rest[1..]
  }

  /** `sep.join(parts)`. */
  function JoinWith(parts: seq<string>, sep: string): string {
    if parts == [] then ""
    else if |parts| == 1 then parts[0]
    else parts[0] + sep + JoinWith(parts[1..], sep)
  }

  /** Splitting never loses anything: joining the pieces back gives the text. */
  lemma {:induction false} SplitJoin(s: string, sep: char)
    ensures JoinWith(SplitOn(s, sep), [sep]) == s
  {
    if s != [] {
      var rest := SplitOn(s[1..], sep);
      SplitJoin(s[1..], sep);
      if s[0] != sep {
        if |rest| == 1 {
          assert JoinWith(rest, [sep]) == rest[0];
        } else {
          assert JoinWith(rest, [sep]) == rest[0] + [sep] + JoinWith(rest[1..], [sep]);
        }
      }
    }
  }

  /** Joining separator-free pieces and splitting again gives the pieces back. */
  lemma {:induction false} JoinSplit(parts: seq<string>, sep: char)
    requires |parts| >= 1
    requires forall i | 0 <= i < |parts| :: sep !in parts[i]
    ensures SplitOn(JoinWith(parts, [sep]), sep) == parts
  {
    if |parts| == 1 {
      SplitNoSep(parts[0], sep);
    } else {
      JoinSplit(parts[1..], sep);
      SplitAfterPiece(parts[0], JoinWith(parts[1..], [sep]), sep);
    }
  }

  lemma {:induction false} SplitNoSep(s: string, sep: char)
    requires sep !in s
    ensures SplitOn(s, sep) == [s]
  {
    if s != [] {
      assert sep !in s[1..];
      SplitNoSep(s[1..], sep);
      assert [s[0]] + s[1..] == s;
    }
  }

  lemma {:induction false} SplitAfterPiece(a: string, b: string, sep: char)
    requires sep !in a
    ensures SplitOn(a + [sep] + b, sep) == [a] + SplitOn(b, sep)
  {
    if a == [] {
      assert a + [sep] + b == [sep] + b;
    } else {
      assert sep !in a[1..];
      SplitAfterPiece(a[1..], b, sep);
      assert (a + [sep] + b)[1..] == a[1..] + [sep] + b;
      assert [a[0]] + a[1..] == a;
    }
  }

  /** The text splits into at least two pieces exactly when the separator occurs in it. */
  lemma {:induction false} SplitCount(s: string, sep: char)
    ensures |SplitOn(s, sep)| >= 2 <==> sep in s
  {
    if s != [] {
      SplitCount(s[1..], sep);
      assert sep in s <==> s[0] == sep || sep in s[1..];
    }
  }

  /** `s.replace(c, "")`. */
  function RemoveChar(s: string, c: char): (r: string)
    ensures c !in r
    ensures forall x | x in r :: x in s
  {
    if s == [] then []
    else if s[0] == c then RemoveChar(s[1..], c)
    else [s[0]] + RemoveChar(s[1..], c)
  }
}
