/**
 * The two string helpers of App.js: `convertRatioToNumber` ("W:H" to W/H) and
 * `extractFirstNumberFromResolution` ("WxH" to W), together with the pieces of
 * JavaScript they are built from: `String.prototype.split` and `Number` applied
 * to a field. Fields are restricted to strings of decimal digits; on those,
 * `Number` is the decimal value (and `Number("")` is 0).
 */
module Parsing {

  predicate IsDigit(c: char) {
    '0' <= c <= '9'
  }

  /** A field `Number` reads exactly: decimal digits only (possibly none). */
  predicate AllDigits(s: string) {
    forall i | 0 <= i < |s| :: IsDigit(s[i])
  }

  function DigitValue(c: char): (d: nat)
    requires IsDigit(c)
    ensures d < 10
  {
    c as int - '0' as int
  }

  function DigitChar(d: nat): (c: char)
    requires d < 10
    ensures IsDigit(c) && DigitValue(c) == d
  {
    ('0' as int + d) as char
  }

  /** `Number(s)` for a digit string: its decimal value, 0 for the empty string. */
  function NumeralValue(s: string): (v: nat)
    requires AllDigits(s)
    decreases |s|
  {
    if s == [] then 0 else 10 * NumeralValue(s[..|s| - 1]) + DigitValue(s[|s| - 1])
  }

  /** The empty field reads as 0, as `Number("")` does. */
  lemma EmptyFieldReadsZero()
    ensures NumeralValue("") == 0
  {
  }

  /** The decimal numeral of `n`, without leading zeros: the device's way of writing a number. */
  function Numeral(n: nat): (s: string)
    ensures |s| > 0 && AllDigits(s)
    decreases n
  {
    if n < 10 then [DigitChar(n)] else Numeral(n / 10) + [DigitChar(n % 10)]
  }

  /** Reading back a numeral gives the number it was written from. */
  lemma {:induction false} NumeralRoundTrip(n: nat)
    ensures NumeralValue(Numeral(n)) == n
    decreases n
  {
    if n >= 10 {
      var s := Numeral(n);
      assert s[..|s| - 1] == Numeral(n / 10);
      NumeralRoundTrip(n / 10);
    }
  }

  /**
   * `s.split(sep)`: the maximal runs of `s` between occurrences of `sep`, in
   * order. There is always at least one field, and no field holds `sep`.
   */
  function Split(s: string, sep: char): (fields: seq<string>)
    ensures |fields| >= 1
    ensures forall i | 0 <= i < |fields| :: sep !in fields[i]
    decreases |s|
  {
    if s == [] then [[]]
    else
      var rest := Split(s[1..], sep);
      if s[0] == sep then [[]] + rest else [[s[0]] + rest[0]] + rest[1..]
  }

  /** A string without the separator splits into itself alone. */
  lemma {:induction false} SplitWithoutSeparator(a: string, sep: char)
    requires sep !in a
    ensures Split(a, sep) == [a]
    decreases |a|
  {
    if a != [] {
      SplitWithoutSeparator(a[1..], sep);
      assert [a[0]] + a[1..] == a;
    }
  }

  /** Splitting at the first separator peels off the text before it as the first field. */
  lemma {:induction false} SplitAtFirstSeparator(a: string, sep: char, b: string)
    requires sep !in a
    ensures Split(a + [sep] + b, sep) == [a] + Split(b, sep)
    decreases |a|
  {
    var s := a + [sep] + b;
    if a == [] {
      assert s[1..] == b;
    } else {
      assert s[1..] == a[1..] + [sep] + b;
      SplitAtFirstSeparator(a[1..], sep, b);
      assert [a[0]] + a[1..] == a;
    }
  }

  lemma DigitsHaveNoSeparator(a: string, sep: char)
    requires AllDigits(a) && !IsDigit(sep)
    ensures sep !in a
  {
  }

  /**
   * What `convertRatioToNumber` reads: a string whose first two `:`-fields are
   * digit strings, the second one not zero (so the quotient is a finite number).
   */
  predicate IsRatio(ratio: string) {
    var fields := Split(ratio, ':');
    |fields| >= 2 && AllDigits(fields[0]) && AllDigits(fields[1]) && NumeralValue(fields[1]) > 0
  }

  /** `convertRatioToNumber`: numerator over denominator, from the first two `:`-fields. */
  function RatioToNumber(ratio: string): (v: real)
    requires IsRatio(ratio)
    ensures v >= 0.0
  {
    var fields := Split(ratio, ':');
    NumeralValue(fields[0]) as real / NumeralValue(fields[1]) as real
  }

  /** Parsing "W:H" gives W/H, whatever the digit strings W and H look like. */
  lemma RatioOfFields(w: string, h: string)
    requires AllDigits(w) && AllDigits(h) && NumeralValue(h) > 0
    ensures IsRatio(w + [':'] + h)
    ensures RatioToNumber(w + [':'] + h) == NumeralValue(w) as real / NumeralValue(h) as real
  {
    DigitsHaveNoSeparator(w, ':');
    DigitsHaveNoSeparator(h, ':');
    SplitAtFirstSeparator(w, ':', h);
    SplitWithoutSeparator(h, ':');
    var fields := Split(w + [':'] + h, ':');
    assert fields == [w, h];
    assert fields[0] == w && fields[1] == h;
    assert IsRatio(w + [':'] + h);
  }

  /** The ratio string a device reports for the numbers `w` and `h`, such as "4:3". */
  function RatioString(w: nat, h: nat): (s: string) {
    Numeral(w) + [':'] + Numeral(h)
  }

  /** A reported ratio string is read back as the quotient of its numbers. */
  lemma ReadRatioString(w: nat, h: nat)
    requires h > 0
    ensures IsRatio(RatioString(w, h))
    ensures RatioToNumber(RatioString(w, h)) == w as real / h as real
  {
    NumeralRoundTrip(w);
    NumeralRoundTrip(h);
    RatioOfFields(Numeral(w), Numeral(h));
  }

  /** What `extractFirstNumberFromResolution` reads: a string whose first `x`-field is digits. */
  predicate IsResolution(resolution: string) {
    AllDigits(Split(resolution, 'x')[0])
  }

  /**
   * `extractFirstNumberFromResolution`: the value of the first `x`-field. A
   * string without any `x` is a single field and is read whole.
   */
  function FirstNumberOfResolution(resolution: string): (v: nat)
    requires IsResolution(resolution)
  {
    NumeralValue(Split(resolution, 'x')[0])
  }

  /** A resolution string without any `x` is read whole, as the number it spells. */
  lemma FirstNumberOfWholeString(resolution: string)
    requires IsResolution(resolution) && 'x' !in resolution
    ensures AllDigits(resolution)
    ensures FirstNumberOfResolution(resolution) == NumeralValue(resolution)
  {
    SplitWithoutSeparator(resolution, 'x');
  }

  /**
   * Parsing "WxH" gives W, the number before the `x` (the width, not the
   * height), whatever follows the separator.
   */
  lemma FirstNumberOfFields(w: string, rest: string)
    requires AllDigits(w)
    ensures IsResolution(w + ['x'] + rest)
    ensures FirstNumberOfResolution(w + ['x'] + rest) == NumeralValue(w)
  {
    DigitsHaveNoSeparator(w, 'x');
    SplitAtFirstSeparator(w, 'x', rest);
  }

  /** The resolution string a device reports for the numbers `w` and `h`, such as "1920x1440". */
  function ResolutionString(w: nat, h: nat): (s: string) {
    Numeral(w) + ['x'] + Numeral(h)
  }

  /** A reported resolution string is read back as its first number, `w`. */
  lemma ReadResolutionString(w: nat, h: nat)
    ensures IsResolution(ResolutionString(w, h))
    ensures FirstNumberOfResolution(ResolutionString(w, h)) == w
  {
    NumeralRoundTrip(w);
    FirstNumberOfFields(Numeral(w), Numeral(h));
  }

  /** The builders write the ratio strings a device reports, character for character. */
  lemma ReportedRatioStrings()
    ensures RatioString(4, 3) == "4:3" && RatioString(16, 9) == "16:9" && RatioString(3, 2) == "3:2"
    ensures RatioString(11, 9) == "11:9" && RatioString(5, 4) == "5:4"
  {
  }

  /** The builder writes the documented output of the resolution selector (App.js:111), character for character. */
  lemma ReportedResolutionString()
    ensures ResolutionString(1920, 1440) == "1920x1440"
  {
  }
}
