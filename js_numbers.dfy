/**
 * JavaScript's `Number(s)` on a string: the StringToNumber conversion of
 * section 7.1.4.1.1 of ECMA-262 (the StringNumericLiteral grammar). Blank
 * text is 0; otherwise the trimmed text is a decimal literal with an
 * optional sign, fraction and exponent, `Infinity`, or an unsigned
 * `0x`/`0o`/`0b` integer; anything else is NaN. Values are exact reals, so
 * `-0` and `0` are the same value here, which is how `includes` (the
 * SameValueZero comparison) and a property key treat them.
 */
module JsNumbers {
  import opened Wrappers
  import opened Strings

  datatype JsNumber = NaN | Infinite(negative: bool) | Finite(value: real)

  function Pow10(n: nat): (r: nat)
    ensures r >= 1
  {
    if n == 0 then 1 else 10 * Pow10(n - 1)
  }

  /** `m` times ten to the power `e`. */
  function Scaled(m: nat, e: int): (r: real)
    ensures r >= 0.0
    ensures e >= 0 ==> r == (m * Pow10(e)) as real
    ensures e < 0 ==> r * Pow10(-e) as real == m as real
  {
    if e >= 0 then (m * Pow10(e)) as real else m as real / Pow10(-e) as real
  }

  /** The value of one digit in `base` (up to 16, either case), if it is a digit there. */
  function DigitIn(c: char, base: nat): (r: Option<nat>)
    ensures r.Some? ==> r.value < base && r.value < 16
    ensures base == 10 ==> (r.Some? <==> IsDigit(c))
  {
    var d :=
      if '0' <= c <= '9' then Some(c as int - '0' as int)
      else if 'a' <= c <= 'f' then Some(c as int - 'a' as int + 10)
      else if 'A' <= c <= 'F' then Some(c as int - 'A' as int + 10)
      else None;
    if d.Some? && d.value < base then Some(d.value) else None
  }

  predicate AllDigitsIn(s: string, base: nat) {
    forall i :: 0 <= i < |s| ==> DigitIn(s[i], base).Some?
  }

  /** The value of a string of digits in `base`, most significant first. */
  function ValueIn(s: string, base: nat): nat
    requires AllDigitsIn(s, base)
  {
    if |s| == 0 then 0
    else base * ValueIn(s[..|s| - 1], base) + DigitIn(s[|s| - 1], base).value
  }

  /** The base a `0x`, `0o` or `0b` prefix (in either case) announces, or 0 when there is none. */
  function PrefixBase(t: string): (r: nat)
    ensures r in {0, 2, 8, 16}
    ensures r != 0 ==> |t| >= 2 && t[0] == '0'
    ensures |t| >= 2 && IsDigit(t[1]) ==> r == 0
  {
    if |t| < 2 || t[0] != '0' then 0
    else if t[1] == 'x' || t[1] == 'X' then 16
    else if t[1] == 'o' || t[1] == 'O' then 8
    else if t[1] == 'b' || t[1] == 'B' then 2
    else 0
  }

  /** The ExponentPart: nothing (0), or `e`/`E`, an optional sign and at least one digit. */
  function Exponent(rest: string): (r: Option<int>)
    ensures rest == "" ==> r == Some(0)
    ensures rest != "" && rest[0] != 'e' && rest[0] != 'E' ==> r.None?
  {
    if rest == "" then Some(0)
    else if rest[0] != 'e' && rest[0] != 'E' then None
    else
      var r := rest[1..];
      var negative := |r| > 0 && r[0] == '-';
      var digits := if |r| > 0 && (r[0] == '+' || r[0] == '-') then r[1..] else r;
      if |digits| > 0 && AllDigits(digits) then
        var magnitude: int := DigitsValue(digits);
        Some(if negative then -magnitude else magnitude)
      else None
  }

  /**
   * The StrUnsignedDecimalLiteral without `Infinity`: digits, an optional
   * point with optional digits after it (but some digit on one side), and
   * an optional exponent.
   */
  function UnsignedDecimal(u: string): (r: Option<real>)
    ensures r.Some? ==> r.value >= 0.0
    ensures u == "" ==> r.None?
  {
    var whole := LeadingDigits(u);
    AfterWhole(whole, u[|whole|..])
  }

  /** The literal after its leading digits `whole`: an optional point and fraction, then the exponent. */
  function AfterWhole(whole: string, after: string): (r: Option<real>)
    requires AllDigits(whole)
    ensures r.Some? ==> r.value >= 0.0
    ensures whole == "" && after == "" ==> r.None?
  {
    if |after| > 0 && after[0] == '.' then
      var fraction := LeadingDigits(after[1..]);
      DecimalParts(whole, fraction, after[1 + |fraction|..])
    else DecimalParts(whole, "", after)
  }

  /** The value of the digits `whole` and `fraction` and the exponent part `rest`, if they form a literal. */
  function DecimalParts(whole: string, fraction: string, rest: string): (r: Option<real>)
    requires AllDigits(whole) && AllDigits(fraction)
    ensures r.Some? ==> r.value >= 0.0
    ensures r.Some? <==> |whole| + |fraction| > 0 && Exponent(rest).Some?
  {
    if |whole| + |fraction| == 0 || Exponent(rest).None? then None
    else Some(Scaled(DigitsValue(whole + fraction), Exponent(rest).value - |fraction|))
  }

  function Unsigned(u: string): (r: JsNumber)
    ensures r.Finite? ==> r.value >= 0.0
    ensures r.Infinite? <==> u == "Infinity"
    ensures r.Infinite? ==> !r.negative
  {
    if u == "Infinity" then Infinite(false)
    else
      match UnsignedDecimal(u)
      case Some(v) => Finite(v)
      case None => NaN
  }

  function Negated(n: JsNumber): (r: JsNumber)
    ensures n.NaN? <==> r.NaN?
    ensures n.Infinite? ==> r == Infinite(!n.negative)
    ensures n.Finite? ==> r == Finite(-n.value)
  {
    match n
    case NaN => NaN
    case Infinite(neg) => Infinite(!neg)
    case Finite(v) => Finite(-v)
  }

  /** `Number(s)`. */
  function StringToNumber(s: string): (r: JsNumber)
    ensures Trim(s) == "" ==> r == Finite(0.0)
  {
    var t := Trim(s);
    if t == "" then Finite(0.0)
    else if PrefixBase(t) != 0 then
      var digits := t[2..];
      if |digits| > 0 && AllDigitsIn(digits, PrefixBase(t)) then
        Finite(ValueIn(digits, PrefixBase(t)) as real)
      else NaN
    else if t[0] == '+' then Unsigned(t[1..])
    else if t[0] == '-' then Negated(Unsigned(t[1..]))
    else Unsigned(t)
  }

  /** The number as a non-negative whole number, if it is one; `-0` is 0. */
  function WholeOf(n: JsNumber): (r: Option<nat>)
    ensures r.Some? <==> n.Finite? && n.value >= 0.0 && n.value.Floor as real == n.value
    ensures r.Some? ==> r.value as real == n.value
  {
    if n.Finite? && n.value >= 0.0 && n.value.Floor as real == n.value then Some(n.value.Floor)
    else None
  }
}
