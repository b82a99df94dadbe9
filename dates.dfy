/**
 * Calendar dates as Python's `datetime` accepts them, the `DD/MM/YYYY` rendering
 * that the date-of-birth extractor produces, and `datetime.strptime(s, "%d/%m/%Y")`
 * as the rule validator applies it.
 */
module Dates {
  import opened Common
  import opened Text

  datatype Date = Date(day: int, month: int, year: int)

  predicate IsLeapYear(y: int) {
    y % 4 == 0 && (y % 100 != 0 || y % 400 == 0)
  }

  function DaysInMonth(y: int, m: int): int
    requires 1 <= m <= 12
  {
    if m == 2 then (if IsLeapYear(y) then 29 else 28)
    else if m == 4 || m == 6 || m == 9 || m == 11 then 30
    else 31
  }

  /** `datetime(year, month, day)` succeeds: a year in 1..9999, a month in 1..12
      and a day that exists in that month (so 31/02 and 29/02/1999 do not). */
  predicate IsRealDate(dt: Date) {
    && 1 <= dt.year <= 9999
    && 1 <= dt.month <= 12
    && 1 <= dt.day <= DaysInMonth(dt.year, dt.month)
  }

  /** Chronological order: year first, then month, then day. */
  predicate Before(a: Date, b: Date) {
    || a.year < b.year
    || (a.year == b.year && a.month < b.month)
    || (a.year == b.year && a.month == b.month && a.day < b.day)
  }

  /** The key the extractor sorts dates by. */
  function Ordinal(dt: Date): int {
    dt.year * 10000 + dt.month * 100 + dt.day
  }

  /** Comparing sort keys is comparing real dates chronologically, and equal keys
      mean equal dates. */
  lemma OrdinalIsChronological(a: Date, b: Date)
    requires IsRealDate(a) && IsRealDate(b)
    ensures Ordinal(a) < Ordinal(b) <==> Before(a, b)
    ensures Ordinal(a) == Ordinal(b) <==> a == b
  {
    var ka := a.month * 100 + a.day;
    var kb := b.month * 100 + b.day;
    assert 101 <= ka < 10000 && 101 <= kb < 10000;
    assert Ordinal(a) == a.year * 10000 + ka && Ordinal(b) == b.year * 10000 + kb;
    if a.year < b.year {
      assert a.year * 10000 + 10000 <= b.year * 10000;
    } else if a.year > b.year {
      assert b.year * 10000 + 10000 <= a.year * 10000;
    }
  }

  /** `f"{n:02d}"` for 0 <= n < 100. */
  function Pad2(n: int): string
    requires 0 <= n < 100
  {
    [DigitChar(n / 10), DigitChar(n % 10)]
  }

  /** `f"{d:02d}/{m:02d}/{y}"`: the form in which the extractor returns a full date. */
  function FormatDmy(dt: Date): string
    requires IsRealDate(dt)
  {
    Pad2(dt.day) + "/" + Pad2(dt.month) + "/" + DecimalString(dt.year)
  }

  /** What `%d` accepts: 1-9, 01-09, 10-29, 30, 31, or a space and 1-9. */
  predicate IsDayToken(t: string) {
    || (|t| == 1 && '1' <= t[0] <= '9')
    || (|t| == 2 && t[0] == '0' && '1' <= t[1] <= '9')
    || (|t| == 2 && (t[0] == '1' || t[0] == '2') && IsDigit(t[1]))
    || (|t| == 2 && t[0] == '3' && (t[1] == '0' || t[1] == '1'))
    || (|t| == 2 && t[0] == ' ' && '1' <= t[1] <= '9')
  }

  /** What `%m` accepts: 1-9, 01-09, 10, 11, 12. */
  predicate IsMonthToken(t: string) {
    || (|t| == 1 && '1' <= t[0] <= '9')
    || (|t| == 2 && t[0] == '0' && '1' <= t[1] <= '9')
    || (|t| == 2 && t[0] == '1' && '0' <= t[1] <= '2')
  }

  /** `int(t)` of a day or month token (int() ignores the leading space). */
  function TokenValue(t: string): nat
    requires IsDayToken(t) || IsMonthToken(t)
  {
    if t[0] == ' ' then DigitValue(t[1])
    else if |t| == 1 then DigitValue(t[0])
    else DigitValue(t[0]) * 10 + DigitValue(t[1])
  }

  /** `datetime.strptime(s, "%d/%m/%Y")`: None where Python raises ValueError (no
      match, unconverted data left over, or a date that does not exist). */
  function ParseDmy(s: string): (r: Option<Date>)
    ensures r.Some? ==> IsRealDate(r.value)
    ensures r.Some? ==> |SplitOn(s, '/')| == 3
  {
    var parts := SplitOn(s, '/');
    if |parts| == 3 && IsDayToken(parts[0]) && IsMonthToken(parts[1])
       && |parts[2]| == 4 && AllDigits(parts[2])
    then
      var dt := Date(TokenValue(parts[0]), TokenValue(parts[1]), DigitsValue(parts[2]));
      if IsRealDate(dt) then Some(dt) else None
    else None
  }

  lemma Pad2IsToken(n: int)
    requires 1 <= n <= 31
    ensures IsDayToken(Pad2(n)) && TokenValue(Pad2(n)) == n
    ensures n <= 12 ==> IsMonthToken(Pad2(n))
  {
  }

  /** Reading back a rendered date with `strptime("%d/%m/%Y")` gives the same date:
      every full date the extractor returns is one the validator accepts. */
  lemma FormatParseRoundTrip(dt: Date)
    requires IsRealDate(dt) && 1000 <= dt.year
    ensures ParseDmy(FormatDmy(dt)) == Some(dt)
  {
    var d, m := Pad2(dt.day), Pad2(dt.month);
    var y := DecimalString(dt.year);
    DecimalStringRoundTrip(dt.year);
    Pad2IsToken(dt.day);
    Pad2IsToken(dt.month);
    assert [d, m, y][1..] == [m, y] && [m, y][1..] == [y];
    assert JoinWith([y], "/") == y;
    assert JoinWith([m, y], "/") == m + "/" + y;
    assert JoinWith([d, m, y], "/") == d + "/" + (m + "/" + y);
    assert FormatDmy(dt) == JoinWith([d, m, y], "/");
    assert '/' !in d && '/' !in m;
    assert '/' !in y by {
      assert forall i | 0 <= i < |y| :: IsDigit(y[i]);
    }
    JoinSplit([d, m, y], '/');
    assert SplitOn(FormatDmy(dt), '/') == [d, m, y];
  }
}
