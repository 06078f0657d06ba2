/**
 * parseNumericValue, which the source repeats verbatim in four services:
 * numbers pass through; anything else is rendered as text, stripped of
 * commas and white space, and read by parseFloat; text with no leading
 * number gives 0 instead of NaN.
 */
module NumericValue {
  import opened Text
  import opened Cells

  predicate IsDigit(c: char)
  {
    '0' <= c <= '9'
  }

  function DigitValue(c: char): nat
    requires IsDigit(c)
  {
    c as int - '0' as int
  }


  /** The text with every comma and every white-space character removed. */
  function Strip(s: string): (r: string)
    ensures |r| <= |s|
    ensures forall i :: 0 <= i < |r| ==> r[i] != ',' && !IsWhitespace(r[i])
  {
    if |s| == 0 then []
    else if s[0] == ',' || IsWhitespace(s[0]) then Strip(s[1..])
    else [s[0]] + Strip(s[1..])
  }

  /** The number of leading decimal digits of s. */
  function DigitRun(s: string): (n: nat)
    ensures n <= |s|
    ensures forall i :: 0 <= i < n ==> IsDigit(s[i])
    ensures n < |s| ==> !IsDigit(s[n])
  {
    if |s| > 0 && IsDigit(s[0]) then 1 + DigitRun(s[1..]) else 0
  }

  /** The natural number written by a string of decimal digits. */
  function DigitsValue(d: string): nat
    requires forall i :: 0 <= i < |d| ==> IsDigit(d[i])
  {
    if |d| == 0 then 0 else 10 * DigitsValue(d[..|d| - 1]) + DigitValue(d[|d| - 1])
  }

  /** The same number, accumulated directly as a real: the mantissa of parseFloat. */
  function DigitsReal(d: string): real
    requires forall i :: 0 <= i < |d| ==> IsDigit(d[i])
  {
    if |d| == 0 then 0.0 else 10.0 * DigitsReal(d[..|d| - 1]) + DigitValue(d[|d| - 1]) as real
  }

  lemma {:induction false} DigitsRealIsValue(d: string)
    requires forall i :: 0 <= i < |d| ==> IsDigit(d[i])
    ensures DigitsReal(d) == DigitsValue(d) as real
  {
    if |d| > 0 {
      DigitsRealIsValue(d[..|d| - 1]);
    }
  }

  /** The exponent written after an e or E, 0 when the text does not start with a well-formed exponent. */
  function Exponent(s: string): int
  {
    if |s| == 0 || (s[0] != 'e' && s[0] != 'E') then 0
    else
      var body := s[1..];
      var negative := |body| > 0 && body[0] == '-';
      var digits := if |body| > 0 && (body[0] == '-' || body[0] == '+') then body[1..] else body;
      var n := DigitRun(digits);
      var e := DigitsValue(digits[..n]);
      if negative then -(e as int) else e
  }

  /** m times ten to the power e, one decimal shift at a time. */
  function Scale(m: real, e: int): real
    decreases if e >= 0 then e else -e
  {
    if e == 0 then m
    else if e > 0 then 10.0 * Scale(m, e - 1)
    else Scale(m, e + 1) / 10.0
  }

  /** The value of the digits after a decimal point: 0.d0 d1 d2 ... */
  function FractionValue(d: string): real
    requires forall i :: 0 <= i < |d| ==> IsDigit(d[i])
  {
    if |d| == 0 then 0.0 else (DigitValue(d[0]) as real + FractionValue(d[1..])) / 10.0
  }

  /**
   * parseFloat on already stripped text: an optional sign, digits, an
   * optional fraction and an optional exponent, read as a prefix. None
   * stands for NaN (no digit before or after the point).
   */
  function ParseFloat(s: string): Option<real>
  {
    if |s| > 0 && s[0] == '-' then
      match ParseUnsigned(s[1..]) case Some(v) => Some(-v) case None => None
    else if |s| > 0 && s[0] == '+' then ParseUnsigned(s[1..])
    else ParseUnsigned(s)
  }

  function ParseUnsigned(s: string): Option<real>
  {
    var n := DigitRun(s);
    ParseMantissa(s[..n], s[n..])
  }

  /** The number whose integer digits are whole, followed by the unread text rest. */
  function ParseMantissa(whole: string, rest: string): Option<real>
    requires forall i :: 0 <= i < |whole| ==> IsDigit(whole[i])
  {
    if |rest| > 0 && rest[0] == '.' then
      var f := DigitRun(rest[1..]);
      if |whole| + f == 0 then None
      else Some(Scale(DigitsReal(whole) + FractionValue(rest[1..][..f]), Exponent(rest[1..][f..])))
    else if |whole| == 0 then None
    else Some(Scale(DigitsReal(whole), Exponent(rest)))
  }

  /**
   * parseNumericValue. A number passes through; "undefined", "null",
   * "true", "false" and a Date's text all parse to NaN and so give 0.
   */
  function ParseNumericValue(c: Cell): (r: real)
    ensures c.Num? ==> r == c.r
    ensures !c.Num? && !c.Str? ==> r == 0.0
  {
    match c
    case Num(x) => x
    case Str(s) => StripAndParse(s, [])
    case _ => 0.0
  }

  /** parseFloat's reading of stripped text, NaN read as 0. */
  function FloatOrZero(t: string): real
  {
    match ParseFloat(t) case Some(v) => v case None => 0.0
  }

  /**
   * The value of kept followed by rest once rest is stripped: the
   * characters of rest are examined one at a time, and the kept text is
   * read when none is left.
   */
  function StripAndParse(rest: string, kept: string): real
  {
    if |rest| == 0 then FloatOrZero(kept)
    else StripAndParse(rest[1..], if rest[0] == ',' || IsWhitespace(rest[0]) then kept else kept + [rest[0]])
  }

  lemma {:induction false} StripAndParseReads(rest: string, kept: string)
    ensures StripAndParse(rest, kept) == FloatOrZero(kept + Strip(rest))
  {
    if |rest| == 0 {
      assert kept + Strip(rest) == kept;
    } else if rest[0] == ',' || IsWhitespace(rest[0]) {
      StripAndParseReads(rest[1..], kept);
    } else {
      StripAndParseReads(rest[1..], kept + [rest[0]]);
      assert kept + [rest[0]] + Strip(rest[1..]) == kept + Strip(rest);
    }
  }

  /** Text is stripped of commas and white space, then read by parseFloat; NaN gives 0. */
  lemma {:induction false} ParseNumericText(s: string)
    ensures ParseNumericValue(Str(s)) == FloatOrZero(Strip(s))
  {
    StripAndParseReads(s, []);
    assert [] + Strip(s) == Strip(s);
  }

  /** Decimal rendering of a natural number, the partner of DigitsValue. */
  function NatToText(n: nat): (s: string)
    ensures |s| >= 1
    ensures forall i :: 0 <= i < |s| ==> IsDigit(s[i])
  {
    if n < 10 then [('0' as int + n) as char]
    else NatToText(n / 10) + [('0' as int + n % 10) as char]
  }

  lemma {:induction false} DigitsValueOfNatToText(n: nat)
    ensures DigitsValue(NatToText(n)) == n
  {
    var s := NatToText(n);
    if n >= 10 {
      DigitsValueOfNatToText(n / 10);
      assert s[..|s| - 1] == NatToText(n / 10);
    }
  }

  lemma {:induction false} StripKeepsDigits(s: string)
    requires forall i :: 0 <= i < |s| ==> IsDigit(s[i])
    ensures Strip(s) == s
  {
    if |s| > 0 {
      StripKeepsDigits(s[1..]);
    }
  }

  lemma {:induction false} DigitRunOfDigits(s: string)
    requires forall i :: 0 <= i < |s| ==> IsDigit(s[i])
    ensures DigitRun(s) == |s|
  {
    if |s| > 0 {
      DigitRunOfDigits(s[1..]);
    }
  }

  lemma {:induction false} MantissaOfDigits(s: string)
    requires forall i :: 0 <= i < |s| ==> IsDigit(s[i])
    requires |s| > 0
    ensures ParseMantissa(s, []) == Some(DigitsReal(s))
  {
    assert Exponent([]) == 0;
    assert Scale(DigitsReal(s), 0) == DigitsReal(s);
  }

  lemma {:induction false} ParseDigits(s: string)
    requires |s| > 0 && forall i :: 0 <= i < |s| ==> IsDigit(s[i])
    ensures ParseFloat(s) == Some(DigitsReal(s))
  {
    DigitRunOfDigits(s);
    assert s[..|s|] == s;
    assert s[|s|..] == [];
    assert ParseUnsigned(s) == ParseMantissa(s, []);
    MantissaOfDigits(s);
  }

  /** Round trip: the decimal text of any natural number parses back to it. */
  lemma {:induction false} ParseNatText(n: nat)
    ensures ParseNumericValue(Str(NatToText(n))) == n as real
  {
    var s := NatToText(n);
    ParseNumericText(s);
    StripKeepsDigits(s);
    ParseDigits(s);
    DigitsValueOfNatToText(n);
    DigitsRealIsValue(s);
  }

  /** Strip distributes over concatenation. */
  lemma {:induction false} StripAppend(a: string, b: string)
    ensures Strip(a + b) == Strip(a) + Strip(b)
  {
    if |a| > 0 {
      assert (a + b)[1..] == a[1..] + b;
      StripAppend(a[1..], b);
    } else {
      assert a + b == b;
    }
  }

  lemma {:induction false} StripDropsSeparator(a: string, sep: char, b: string)
    requires sep == ',' || IsWhitespace(sep)
    ensures Strip(a + [sep] + b) == Strip(a + b)
  {
    StripAppend(a + [sep], b);
    StripAppend(a, [sep]);
    StripAppend(a, b);
    assert Strip([sep]) == [] by {
      assert [sep][1..] == [];
    }
  }

  lemma {:induction false} SameStripSameValue(x: string, y: string)
    requires Strip(x) == Strip(y)
    ensures ParseNumericValue(Str(x)) == ParseNumericValue(Str(y))
  {
    ParseNumericText(x);
    ParseNumericText(y);
  }

  /** Thousands separators and white space anywhere in the text do not change the value. */
  lemma {:induction false} SeparatorIgnored(a: string, sep: char, b: string)
    requires sep == ',' || IsWhitespace(sep)
    ensures ParseNumericValue(Str(a + [sep] + b)) == ParseNumericValue(Str(a + b))
  {
    StripDropsSeparator(a, sep, b);
    SameStripSameValue(a + [sep] + b, a + b);
  }

  /** Text that does not start with a sign, a digit or a point (after stripping) parses to 0. */
  lemma {:induction false} NonNumericTextIsZero(s: string)
    requires var t := Strip(s);
             t == [] || (!IsDigit(t[0]) && t[0] != '-' && t[0] != '+' && t[0] != '.')
    ensures ParseNumericValue(Str(s)) == 0.0
  {
    ParseNumericText(s);
  }

  lemma {:induction false} StripKeeps(c: char, s: string)
    requires c != ',' && !IsWhitespace(c)
    ensures Strip([c] + s) == [c] + Strip(s)
  {
    assert ([c] + s)[1..] == s;
  }

  lemma {:induction false} StripSkips(c: char, s: string)
    requires c == ',' || IsWhitespace(c)
    ensures Strip([c] + s) == Strip(s)
  {
    assert ([c] + s)[1..] == s;
  }

  lemma {:induction false} StripFraction(t: string)
    requires t == ".50"
    ensures Strip(t) == t
  {
    StripKeeps('0', "");
    StripKeeps('5', "0");
    StripKeeps('.', "50");
    assert t == ['.'] + (['5'] + (['0'] + ""));
  }

  /** Digits, a point and digits survive stripping. */
  lemma {:induction false} StripPlainDecimal(s: string)
    requires s == "234.50"
    ensures Strip(s) == s
  {
    var t := ".50";
    StripFraction(t);
    StripKeeps('4', t);
    StripKeeps('3', ['4'] + t);
    StripKeeps('2', ['3'] + (['4'] + t));
    assert s == ['2'] + (['3'] + (['4'] + t));
  }

  /** The digit run of digits followed by a non-digit stops at the non-digit. */
  lemma {:induction false} DigitRunStops(whole: string, rest: string)
    requires forall i :: 0 <= i < |whole| ==> IsDigit(whole[i])
    requires |rest| > 0 && !IsDigit(rest[0])
    ensures DigitRun(whole + rest) == |whole|
  {
    if |whole| > 0 {
      assert (whole + rest)[1..] == whole[1..] + rest;
      DigitRunStops(whole[1..], rest);
    } else {
      assert whole + rest == rest;
    }
  }

  /** Text that strips to digits, a point and digits reads as the decimal they write. */
  lemma {:induction false} ParseDecimal(s: string, whole: string, fraction: string)
    requires |whole| > 0
    requires forall i :: 0 <= i < |whole| ==> IsDigit(whole[i])
    requires forall i :: 0 <= i < |fraction| ==> IsDigit(fraction[i])
    requires Strip(s) == whole + ['.'] + fraction
    ensures ParseNumericValue(Str(s)) == DigitsReal(whole) + FractionValue(fraction)
  {
    var rest := ['.'] + fraction;
    var t := whole + rest;
    ParseNumericText(s);
    assert Strip(s) == t;
    DigitRunStops(whole, rest);
    assert t[..|whole|] == whole && t[|whole|..] == rest;
    assert ParseFloat(t) == ParseMantissa(whole, rest);
    DigitRunOfDigits(fraction);
    assert rest[1..] == fraction && fraction[..|fraction|] == fraction && fraction[|fraction|..] == [];
    assert Exponent([]) == 0;
  }

  lemma {:induction false} PlainDecimalStrips(t: string)
    requires t == "1234.50"
    ensures Strip(t) == "1234" + ['.'] + "50"
  {
    var b := "234.50";
    assert t == ['1'] + b;
    StripKeeps('1', b);
    StripPlainDecimal(b);
    DecimalParts();
  }

  lemma {:induction false} DecimalParts()
    ensures "1234" + ['.'] + "50" == "1234.50"
  {
  }

  lemma {:induction false} ThousandsParts()
    ensures "1" + [','] + "234.50" == "1,234.50"
    ensures "1" + "234.50" == "1234.50"
  {
  }

  lemma {:induction false} ThousandsDigits()
    ensures DigitRun("1234") == 4 && DigitsReal("1234") == 1234.0
    ensures DigitRun("50") == 2 && FractionValue("50") == 0.5
  {
    assert "1234"[1..] == "234" && "234"[1..] == "34" && "34"[1..] == "4" && "4"[1..] == "";
    assert "1234"[..3] == "123" && "123"[..2] == "12" && "12"[..1] == "1" && "1"[..0] == "";
    assert "50"[1..] == "0" && "0"[1..] == "";
    assert "50"[..1] == "5" && "5"[..0] == "";
  }

  lemma {:induction false} ParsePlainDecimal(t: string)
    requires t == "1234.50"
    ensures ParseNumericValue(Str(t)) == 1234.5
  {
    PlainDecimalStrips(t);
    ThousandsDigits();
    ParseDecimal(t, "1234", "50");
  }

  /** "1,234.50" reads as 1234.5: the separator is dropped before parsing. */
  lemma {:induction false} ParseThousands(s: string)
    requires s == "1,234.50"
    ensures ParseNumericValue(Str(s)) == 1234.5
  {
    ThousandsParts();
    SeparatorIgnored("1", ',', "234.50");
    ParsePlainDecimal("1" + "234.50");
  }

  /** "1 234" written with a thin space (U+2009) reads as 1234: Unicode space separators are stripped too. */
  lemma {:induction false} ParseThinSpaceGrouped(s: string)
    requires s == "1" + [0x2009 as char] + "234"
    ensures ParseNumericValue(Str(s)) == 1234.0
  {
    SeparatorIgnored("1", 0x2009 as char, "234");
    var t := "1" + "234";
    assert t == "1234";
    ParseNumericText(t);
    StripKeepsDigits(t);
    ParseDigits(t);
    ThousandsDigits();
  }

  /** "N/A", the placeholder of a missing amount, reads as 0. */
  lemma {:induction false} ParseNotAvailable(s: string)
    requires s == "N/A"
    ensures ParseNumericValue(Str(s)) == 0.0
  {
    assert s == ['N'] + s[1..];
    StripKeeps('N', s[1..]);
    NonNumericTextIsZero(s);
  }
}
