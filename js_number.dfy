/**
 * JavaScript's `Number(string)` coercion (ECMAScript StringToNumber), as
 * the handlers use it: to find the amount line and to read an amount
 * override. A finite value is kept exactly, as a sign, a digit value and
 * a power of ten; IEEE rounding and overflow to Infinity are not modelled.
 */
module JsNumber {
  import opened JsString

  /**
   * A JavaScript number as the handlers observe it. `Finite(negative,
   * digits, exponent)` stands for (-1 if negative) * digits * 10^exponent;
   * the same value may have several spellings (`Finite(false, 60, 1)` and
   * `Finite(false, 600, 0)`).
   */
  datatype Number = NaN | Finite(negative: bool, digits: nat, exponent: int) | Infinite(negative: bool)

  /** `Number.isNaN`. */
  predicate IsNaN(n: Number)
  {
    n.NaN?
  }

  /** JavaScript truthiness of a number: everything but NaN and (signed) zero. */
  predicate Truthy(n: Number)
  {
    n.Infinite? || (n.Finite? && n.digits != 0)
  }

  /** The integer `k`, written as a number. */
  function Integer(k: nat): (n: Number)
    ensures !IsNaN(n) && (Truthy(n) <==> k != 0)
  {
    Finite(false, k, 0)
  }

  /** Unary minus. */
  function Negate(n: Number): Number
  {
    match n
    case NaN => NaN
    case Finite(negative, digits, exponent) => Finite(!negative, digits, exponent)
    case Infinite(negative) => Infinite(!negative)
  }

  /** Length of the run of decimal digits at the front of `s`. */
  function LeadingDigits(s: string): (k: nat)
    ensures k <= |s| && AllDigits(s[..k])
    ensures k == |s| || !IsDigit(s[k])
  {
    if s != [] && IsDigit(s[0]) then
      var k := 1 + LeadingDigits(s[1..]);
      assert forall i | 1 <= i < k :: s[..k][i] == s[1..][..k - 1][i - 1];
      k
    else 0
  }

  /**
   * The optional exponent part (`e` or `E`, an optional sign, digits)
   * after a mantissa of `digits` * 10^`scale`.
   */
  function WithExponent(rest: string, digits: nat, scale: int): Number
  {
    if rest == [] then Finite(false, digits, scale)
    else if rest[0] != 'e' && rest[0] != 'E' then NaN
    else
      var signed := rest[1..];
      var negative := signed != [] && signed[0] == '-';
      var exponentDigits := if signed != [] && (signed[0] == '+' || signed[0] == '-') then signed[1..] else signed;
      if exponentDigits == [] || !AllDigits(exponentDigits) then NaN
      else
        var e := DigitsValue(exponentDigits, Decimal);
        Finite(false, digits, if negative then scale - e else scale + e)
  }

  /**
   * StrUnsignedDecimalLiteral: `Infinity`, or digits with an optional
   * fraction (at least one digit on either side of the point) and an
   * optional exponent. The fraction digits extend the mantissa and lower
   * its exponent by one each.
   */
  function UnsignedDecimal(t: string): Number
  {
    if t == "Infinity" then Infinite(false)
    else
      var i := LeadingDigits(t);
      if i < |t| && t[i] == '.' then
        var frac := t[i + 1..];
        var j := LeadingDigits(frac);
        if i + j == 0 then NaN
        else WithExponent(frac[j..], DigitsValue(t[..i] + frac[..j], Decimal), -(j as int))
      else if i == 0 then NaN
      else WithExponent(t[i..], DigitsValue(t[..i], Decimal), 0)
  }

  /** The digits of a `0x`, `0o` or `0b` literal: at least one, all of the base. */
  function RadixDigits(d: string, radix: Radix): Number
  {
    if d != [] && forall k | 0 <= k < |d| :: IsDigitIn(d[k], radix) then Integer(DigitsValue(d, radix))
    else NaN
  }

  /** `t` begins with `0` and then one of the two prefix letters. */
  predicate HasRadixPrefix(t: string, lower: char, upper: char)
  {
    |t| >= 2 && t[0] == '0' && (t[1] == lower || t[1] == upper)
  }

  /**
   * `Number(s)`: white space around the literal is ignored; an empty or
   * blank string is 0; a signed decimal, `Infinity`, or an unsigned
   * hexadecimal, octal or binary literal is its value; anything else is NaN.
   */
  function ToNumber(s: string): Number
  {
    var t := Trim(s);
    if t == [] then Integer(0)
    else if HasRadixPrefix(t, 'x', 'X') then RadixDigits(t[2..], Hexadecimal)
    else if HasRadixPrefix(t, 'o', 'O') then RadixDigits(t[2..], Octal)
    else if HasRadixPrefix(t, 'b', 'B') then RadixDigits(t[2..], Binary)
    else if t[0] == '+' then UnsignedDecimal(t[1..])
    else if t[0] == '-' then Negate(UnsignedDecimal(t[1..]))
    else UnsignedDecimal(t)
  }

  /** An empty or all-white-space string coerces to 0, not NaN. */
  lemma BlankIsZero(s: string)
    requires forall k | 0 <= k < |s| :: IsWhiteSpace(s[k])
    ensures ToNumber(s) == Integer(0)
  {
    TrimSlice(s);
    assert Trim(s) == [] || Trim(s)[0] == s[|s| - |TrimStart(s)|];
  }

  /** Coercion ignores surrounding white space. */
  lemma TrimmedCoercion(s: string)
    ensures ToNumber(Trim(s)) == ToNumber(s)
  {
    TrimIdempotent(s);
  }

  /** A string of digits is all leading digits. */
  lemma {:induction false} AllLeadingDigits(s: string)
    requires AllDigits(s)
    ensures LeadingDigits(s) == |s|
  {
    if s != [] {
      assert AllDigits(s[1..]) by {
        forall i | 0 <= i < |s[1..]| ensures IsDigit(s[1..][i]) {
          assert s[1..][i] == s[i + 1];
        }
      }
      AllLeadingDigits(s[1..]);
    }
  }

  /** A non-empty string of decimal digits coerces to the number it denotes. */
  lemma DecimalNumeral(s: string)
    requires s != [] && AllDigits(s)
    ensures ToNumber(s) == Integer(DigitsValue(s, Decimal))
  {
    TrimUntouched(s);
    assert !HasRadixPrefix(s, 'x', 'X') && !HasRadixPrefix(s, 'o', 'O') && !HasRadixPrefix(s, 'b', 'B') by {
      if |s| >= 2 {
        assert IsDigit(s[1]);
      }
    }
    assert IsDigit(s[0]);
    assert ToNumber(s) == UnsignedDecimal(s);
    UnsignedDigits(s);
  }

  /** The unsigned decimal reading of a digit string. */
  lemma UnsignedDigits(s: string)
    requires s != [] && AllDigits(s)
    ensures UnsignedDecimal(s) == Integer(DigitsValue(s, Decimal))
  {
    AllLeadingDigits(s);
    assert s != "Infinity" by {
      assert IsDigit(s[0]);
    }
    assert s[..|s|] == s;
    assert s[|s|..] == [];
  }

  /** The decimal numeral of a natural number coerces back to that number. */
  lemma NumeralRoundTrip(n: nat)
    ensures ToNumber(NatToDecimal(n)) == Integer(n)
  {
    DecimalNumeral(NatToDecimal(n));
    NatToDecimalValue(n);
  }

  /**
   * A string whose trimmed text begins with anything but a digit, a sign,
   * a point or the `I` of `Infinity` is not a number: a word such as a
   * shop or payment-method name is NaN.
   */
  lemma WordIsNaN(s: string)
    requires Trim(s) != []
    requires var c := Trim(s)[0]; !IsDigit(c) && c != '+' && c != '-' && c != '.' && c != 'I'
    ensures ToNumber(s) == NaN
  {
  }
}
