/** What `Number(s)` reads: decimal digits as their value, `toString` back, and the other literal forms. */
module JsNumbersFacts {
  import opened Wrappers
  import opened Strings
  import opened JsNumbers

  /** In base 10 the digits are the decimal digits and their value is `DigitsValue`. */
  lemma {:induction false} DecimalValue(s: string)
    requires AllDigits(s)
    ensures AllDigitsIn(s, 10)
    ensures ValueIn(s, 10) == DigitsValue(s)
    decreases |s|
  {
    assert forall i :: 0 <= i < |s| ==> DigitIn(s[i], 10).Some?;
    if |s| > 0 {
      DecimalValue(s[..|s| - 1]);
    }
  }

  /** A trimmed text with no sign and no base prefix is read unsigned. */
  lemma PlainRead(t: string)
    requires Trim(t) == t && t != "" && PrefixBase(t) == 0 && t[0] != '+' && t[0] != '-'
    ensures StringToNumber(t) == Unsigned(t)
  { }

  /** A trimmed text starting with `-` is the negation of the rest read unsigned. */
  lemma MinusRead(t: string)
    requires Trim(t) == t && |t| > 0 && t[0] == '-'
    ensures StringToNumber(t) == Negated(Unsigned(t[1..]))
  { }

  /** A trimmed text starting with `+` is the rest read unsigned. */
  lemma PlusRead(t: string)
    requires Trim(t) == t && |t| > 0 && t[0] == '+'
    ensures StringToNumber(t) == Unsigned(t[1..])
  { }

  /** The leading digits of a literal end where something other than a digit follows. */
  lemma LeadingWhole(w: string, after: string)
    requires AllDigits(w) && (after == "" || !IsDigit(after[0]))
    ensures UnsignedDecimal(w + after) == AfterWhole(w, after)
  {
    LeadingDigitsStop(w, after);
    assert (w + after)[|w|..] == after;
  }

  /** After a point, the fraction is the digits up to the exponent part. */
  lemma FractionPart(w: string, f: string, rest: string)
    requires AllDigits(w) && AllDigits(f) && (rest == "" || !IsDigit(rest[0]))
    ensures AfterWhole(w, "." + f + rest) == DecimalParts(w, f, rest)
  {
    var a := "." + f + rest;
    assert a[1..] == f + rest;
    LeadingDigitsStop(f, rest);
    assert a[1 + |f|..] == rest;
  }

  /** Digits followed by neither a digit nor a point: their value, scaled by the exponent that follows. */
  lemma WholeDecimal(w: string, rest: string)
    requires AllDigits(w) && (rest == "" || (!IsDigit(rest[0]) && rest[0] != '.'))
    ensures UnsignedDecimal(w + rest) == DecimalParts(w, "", rest)
  {
    LeadingWhole(w, rest);
  }

  /** Digits, a point, digits and the exponent part `rest`. */
  lemma PointDecimal(w: string, f: string, rest: string)
    requires AllDigits(w) && AllDigits(f) && (rest == "" || !IsDigit(rest[0]))
    ensures UnsignedDecimal(w + "." + f + rest) == DecimalParts(w, f, rest)
  {
    var a := "." + f + rest;
    assert w + a == w + "." + f + rest;
    LeadingWhole(w, a);
    FractionPart(w, f, rest);
  }

  /** A non-empty string of digits, with nothing after it, is read as its value. */
  lemma UnsignedDigits(u: string)
    requires |u| > 0 && AllDigits(u)
    ensures Unsigned(u) == Finite(DigitsValue(u) as real)
  {
    assert u + "" == u;
    WholeDecimal(u, "");
    assert u != "Infinity" by { assert IsDigit(u[0]); }
    var m := DigitsValue(u);
    assert DecimalParts(u, "", "") == Some(Scaled(m, 0));
    assert Pow10(0) == 1;
  }

  /** `Number` of a non-empty string of decimal digits is its value. */
  lemma DigitsRead(t: string)
    requires |t| > 0 && AllDigits(t)
    ensures StringToNumber(t) == Finite(DigitsValue(t) as real)
  {
    TrimPlain(t);
    PlainRead(t);
    UnsignedDigits(t);
  }

  /** `Number(n.toString())` is `n`. */
  lemma NatRoundTrip(n: nat)
    ensures StringToNumber(NatToString(n)) == Finite(n as real)
  {
    DigitsRead(NatToString(n));
  }

  /** A minus sign before digits reads as minus their value. */
  lemma MinusDigits(d: string)
    requires |d| > 0 && AllDigits(d)
    ensures StringToNumber("-" + d) == Finite(-(DigitsValue(d) as real))
  {
    var t := "-" + d;
    MinusShape(d);
    MinusRead(t);
    UnsignedDigits(d);
  }

  lemma MinusShape(d: string)
    requires |d| > 0 && AllDigits(d)
    ensures var t := "-" + d; Trim(t) == t && |t| > 0 && t[0] == '-' && t[1..] == d
  {
    var t := "-" + d;
    assert t[0] == '-' && t[|t| - 1] == d[|d| - 1];
    TrimPlain(t);
    assert t[1..] == d;
  }

  /** A minus sign before the digits of `n` reads as minus `n`. */
  lemma NegativeRoundTrip(n: nat)
    ensures StringToNumber("-" + NatToString(n)) == Finite(-(n as real))
  {
    MinusDigits(NatToString(n));
  }

  /** Digits, a point and digits: the digits' value scaled down by the length of the fraction. */
  lemma PointRead(w: string, f: string)
    requires AllDigits(w) && AllDigits(f) && |w| > 0
    ensures StringToNumber(w + "." + f) == Finite(Scaled(DigitsValue(w + f), -|f|))
  {
    var t := w + "." + f;
    assert t[0] == w[0];
    assert t[|t| - 1] == if |f| > 0 then f[|f| - 1] else '.';
    TrimPlain(t);
    assert |t| >= 2 && t[1] == if |w| > 1 then w[1] else '.';
    PlainRead(t);
    PointDecimal(w, f, "");
    assert w + "." + f + "" == t;
  }

  /** `e` and digits is the exponent those digits spell. */
  lemma ExponentDigits(x: string)
    requires |x| > 0 && AllDigits(x)
    ensures Exponent("e" + x) == Some(DigitsValue(x))
  {
    assert ("e" + x)[1..] == x;
  }

  /** A text that starts with a digit, ends without white space and has no base prefix is read unsigned. */
  lemma DigitFirstRead(t: string)
    requires |t| > 0 && IsDigit(t[0]) && !IsWhitespace(t[|t| - 1]) && PrefixBase(t) == 0
    ensures StringToNumber(t) == Unsigned(t)
  {
    TrimPlain(t);
    PlainRead(t);
  }

  lemma ExponentShape(w: string, x: string)
    requires AllDigits(w) && AllDigits(x) && |w| > 0 && |x| > 0
    ensures var t := w + "e" + x;
      t == w + ("e" + x) && IsDigit(t[0]) && !IsWhitespace(t[|t| - 1]) && PrefixBase(t) == 0
  {
    var t := w + "e" + x;
    assert t[0] == w[0];
    assert t[|t| - 1] == x[|x| - 1];
    assert t[1] == if |w| > 1 then w[1] else 'e';
  }

  /** The digits `w` with the exponent `e` and the digits `x`: `w` times ten to the `x`. */
  lemma ExponentParts(w: string, x: string)
    requires AllDigits(w) && AllDigits(x) && |w| > 0 && |x| > 0
    ensures DecimalParts(w, "", "e" + x) == Some((DigitsValue(w) * Pow10(DigitsValue(x))) as real)
  {
    ExponentDigits(x);
    assert w + "" == w;
    var m, e := DigitsValue(w), DigitsValue(x);
    assert DecimalParts(w, "", "e" + x) == Some(Scaled(m, e - 0));
  }

  /** Digits and a non-negative exponent: the digits' value times that power of ten. */
  lemma ExponentRead(w: string, x: string)
    requires AllDigits(w) && AllDigits(x) && |w| > 0 && |x| > 0
    ensures StringToNumber(w + "e" + x) == Finite((DigitsValue(w) * Pow10(DigitsValue(x))) as real)
  {
    ExponentShape(w, x);
    DigitFirstRead(w + "e" + x);
    WholeDecimal(w, "e" + x);
    ExponentParts(w, x);
  }

  /** `0x` and hexadecimal digits read as their value in base 16. */
  lemma HexRead(h: string)
    requires |h| > 0 && AllDigitsIn(h, 16)
    ensures StringToNumber("0x" + h) == Finite(ValueIn(h, 16) as real)
  {
    var t := "0x" + h;
    assert t[0] == '0' && t[1] == 'x';
    assert t[|t| - 1] == h[|h| - 1];
    assert DigitIn(h[|h| - 1], 16).Some?;
    TrimPlain(t);
    assert PrefixBase(t) == 16;
    assert t[2..] == h;
  }

  /** `Number("1.0")` is 1. */
  lemma PointOne(t: string)
    requires t == "1.0"
    ensures StringToNumber(t) == Finite(1.0)
  {
    var w, f := "1", "0";
    assert w + f == "10" && DigitsValue("10") == 10;
    assert w + "." + f == t;
    PointRead(w, f);
    assert Pow10(1) == 10;
  }

  /** `Number("+1")` is 1. */
  lemma PlusOne(t: string)
    requires t == "+1"
    ensures StringToNumber(t) == Finite(1.0)
  {
    TrimPlain(t);
    PlusRead(t);
    var w := t[1..];
    assert w == "1";
    UnsignedDigits(w);
  }

  /** `Number("0x1E")` is 30. */
  lemma HexThirty(t: string)
    requires t == "0x1E"
    ensures StringToNumber(t) == Finite(30.0)
  {
    var h := "1E";
    assert DigitIn(h[0], 16) == Some(1) && DigitIn(h[1], 16) == Some(14);
    assert AllDigitsIn(h, 16);
    var one := h[..1];
    assert one[..0] == "";
    assert ValueIn(one, 16) == 1;
    assert ValueIn(h, 16) == 16 * ValueIn(one, 16) + 14;
    assert "0x" + h == t;
    HexRead(h);
  }

  /** `Number("3e1")` is 30. */
  lemma ExponentThirty(t: string)
    requires t == "3e1"
    ensures StringToNumber(t) == Finite(30.0)
  {
    var w, x := "3", "1";
    assert w[..0] == "" && x[..0] == "";
    assert DigitsValue(w) == 3 && DigitsValue(x) == 1;
    assert w + "e" + x == t;
    ExponentRead(w, x);
    assert Pow10(1) == 10;
  }

  /** `Number("-0")` is zero, the same whole number as 0. */
  lemma MinusZero(t: string)
    requires t == "-0"
    ensures StringToNumber(t) == Finite(0.0)
    ensures WholeOf(StringToNumber(t)) == Some(0)
  {
    var d := "0";
    assert d[..0] == "" && DigitsValue(d) == 0;
    assert "-" + d == t;
    MinusDigits(d);
  }

  /** A stray letter is NaN. */
  lemma LetterNaN(t: string)
    requires t == "1a"
    ensures StringToNumber(t) == NaN
  {
    TrimPlain(t);
    var w, rest := "1", "a";
    assert w + rest == t;
    LeadingWhole(w, rest);
  }

  /** A base prefix without digits is NaN. */
  lemma BarePrefixNaN(t: string)
    requires t == "0x"
    ensures StringToNumber(t) == NaN
  {
    TrimPlain(t);
  }

  /** A point without digits on either side is NaN. */
  lemma LonePointNaN(t: string)
    requires t == "."
    ensures StringToNumber(t) == NaN
  {
    TrimPlain(t);
    var w, f, rest := "", "", "";
    assert w + "." + f + rest == t;
    PointDecimal(w, f, rest);
  }
}
