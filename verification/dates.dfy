/**
 * Calendar dates and the `%Y-%m-%d` rendering the report uses for today's date
 * (the `full-date` form of section 5.6 of RFC 3339), with the parser that inverts it.
 */
module Dates {
  import opened Wrappers

  datatype Date = Date(year: int, month: int, day: int)

  /** Leap years of the proleptic Gregorian calendar. */
  predicate IsLeapYear(year: int) {
    year % 4 == 0 && (year % 100 != 0 || year % 400 == 0)
  }

  function DaysInMonth(year: int, month: int): (n: int)
    requires 1 <= month <= 12
    ensures 28 <= n <= 31
    ensures n == 29 <==> month == 2 && IsLeapYear(year)
    ensures n == 28 <==> month == 2 && !IsLeapYear(year)
    ensures n == 30 <==> month == 4 || month == 6 || month == 9 || month == 11
  {
    if month == 2 then (if IsLeapYear(year) then 29 else 28)
    else if month == 4 || month == 6 || month == 9 || month == 11 then 30
    else 31
  }

  /**
   * A real calendar date whose year `%Y` prints as four plain digits: years 0 to 9999.
   */
  predicate Valid(d: Date) {
    && 0 <= d.year <= 9999
    && 1 <= d.month <= 12
    && 1 <= d.day <= DaysInMonth(d.year, d.month)
  }

  predicate IsDigit(c: char) {
    '0' <= c <= '9'
  }

  predicate AllDigits(s: string) {
    forall i :: 0 <= i < |s| ==> IsDigit(s[i])
  }

  function Pow10(n: nat): (p: nat)
    ensures p >= 1
  {
    if n == 0 then 1 else 10 * Pow10(n - 1)
  }

  /** `n` in decimal, zero-padded on the left to `width` digits (`%04d`, `%02d`). */
  function PadDigits(n: nat, width: nat): (r: string)
    ensures |r| == width
    ensures AllDigits(r)
    decreases width
  {
    if width == 0 then ""
    else PadDigits(n / 10, width - 1) + [('0' as int + n % 10) as char]
  }

  /** The number a string of decimal digits denotes. */
  function Value(ds: string): (n: nat)
    requires AllDigits(ds)
    ensures n < Pow10(|ds|)
  {
    if |ds| == 0 then 0
    else Value(ds[..|ds| - 1]) * 10 + (ds[|ds| - 1] as int - '0' as int)
  }

  /** Reading back a padded number gives the number, when it fits in the width. */
  lemma {:induction false} ValueOfPadDigits(n: nat, width: nat)
    requires n < Pow10(width)
    ensures Value(PadDigits(n, width)) == n
    decreases width
  {
    if width > 0 {
      var r := PadDigits(n, width);
      ValueOfPadDigits(n / 10, width - 1);
      assert r[..width - 1] == PadDigits(n / 10, width - 1);
    }
  }

  /** Padding the value of a digit string to its own length gives the string back. */
  lemma {:induction false} PadDigitsOfValue(ds: string)
    requires AllDigits(ds)
    ensures PadDigits(Value(ds), |ds|) == ds
    decreases |ds|
  {
    if |ds| > 0 {
      var n := |ds| - 1;
      var v := Value(ds);
      PadDigitsOfValue(ds[..n]);
      assert v / 10 == Value(ds[..n]);
      assert v % 10 == ds[n] as int - '0' as int;
      assert ds[..n] + [ds[n]] == ds;
    }
  }

  /** The shape of a `YYYY-MM-DD` string: ten characters, dashes at 4 and 7, digits elsewhere. */
  predicate IsDateShaped(s: string) {
    && |s| == 10
    && s[4] == '-' && s[7] == '-'
    && AllDigits(s[..4]) && AllDigits(s[5..7]) && AllDigits(s[8..])
  }

  /** chrono's `format("%Y-%m-%d")` for a date whose year lies in 0..9999. */
  function FormatDate(d: Date): (r: string)
    requires Valid(d)
    ensures IsDateShaped(r)
  {
    var r := PadDigits(d.year, 4) + "-" + PadDigits(d.month, 2) + "-" + PadDigits(d.day, 2);
    assert r[..4] == PadDigits(d.year, 4);
    assert r[5..7] == PadDigits(d.month, 2);
    assert r[8..] == PadDigits(d.day, 2);
    r
  }

  /** The three fields of a formatted date, zero-padded to four, two and two digits, between dashes. */
  lemma FormatDateFields(d: Date)
    requires Valid(d)
    ensures FormatDate(d) == PadDigits(d.year, 4) + "-" + PadDigits(d.month, 2) + "-" + PadDigits(d.day, 2)
  {
  }

  /** Reads a `YYYY-MM-DD` string back into a date; `None` unless it names a real date. */
  function ParseDate(s: string): (r: Option<Date>)
    ensures r.Some? ==> Valid(r.value) && IsDateShaped(s)
  {
    if !IsDateShaped(s) then None
    else
      var d := Date(Value(s[..4]), Value(s[5..7]), Value(s[8..]));
      if Valid(d) then Some(d) else None
  }

  /** Formatting loses nothing: parsing the formatted date gives the date back. */
  lemma ParseFormat(d: Date)
    requires Valid(d)
    ensures ParseDate(FormatDate(d)) == Some(d)
  {
    var s := FormatDate(d);
    assert s[..4] == PadDigits(d.year, 4);
    assert s[5..7] == PadDigits(d.month, 2);
    assert s[8..] == PadDigits(d.day, 2);
    ValueOfPadDigits(d.year, 4);
    ValueOfPadDigits(d.month, 2);
    ValueOfPadDigits(d.day, 2);
  }

  /** Every string that parses is the formatting of the date it parses to. */
  lemma FormatParse(s: string)
    requires ParseDate(s).Some?
    ensures FormatDate(ParseDate(s).value) == s
  {
    PadDigitsOfValue(s[..4]);
    PadDigitsOfValue(s[5..7]);
    PadDigitsOfValue(s[8..]);
    assert s == s[..4] + "-" + s[5..7] + "-" + s[8..];
  }

  /** Distinct dates are formatted as distinct strings. */
  lemma FormatInjective(d1: Date, d2: Date)
    requires Valid(d1) && Valid(d2)
    requires FormatDate(d1) == FormatDate(d2)
    ensures d1 == d2
  {
    ParseFormat(d1);
    ParseFormat(d2);
  }
}
