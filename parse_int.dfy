/**
 * JavaScript's `parseInt(string)` with no radix argument (section 19.2.5 of ECMA-262):
 * leading whitespace is skipped, one optional sign is read, a `0x`/`0X` prefix switches
 * to radix 16, and then the longest run of digits of the radix is read; an empty run
 * gives NaN. Whatever follows the run is ignored.
 */
module IntParsing {
  import opened Js
  import opened Decimal

  /** The longest prefix of `s` made of digits of the radix. */
  function DigitPrefix(s: string, radix: nat): (z: string)
    ensures |z| <= |s| && z == s[..|z|]
    ensures forall i :: 0 <= i < |z| ==> IsRadixDigit(z[i], radix)
    ensures |z| < |s| ==> !IsRadixDigit(s[|z|], radix)
  {
    if s != [] && IsRadixDigit(s[0], radix) then [s[0]] + DigitPrefix(s[1..], radix) else []
  }

  /** The text after one leading `+` or `-`, if there is one. */
  function DropSign(t: string): string {
    if |t| > 0 && (t[0] == '+' || t[0] == '-') then t[1..] else t
  }

  predicate HasHexPrefix(u: string) {
    |u| >= 2 && u[0] == '0' && (u[1] == 'x' || u[1] == 'X')
  }

  /** The magnitude the leading digit run of an unsigned text denotes, if there is a run. */
  function LeadingMagnitude(u: string): Option<nat> {
    if HasHexPrefix(u) then
      var z := DigitPrefix(u[2..], 16);
      if z == [] then None else Some(DigitsValue(z, 16))
    else
      var z := DigitPrefix(u, 10);
      if z == [] then None else Some(DigitsValue(z, 10))
  }

  function ParseInt(s: string): Number {
    var t := TrimStart(s);
    match LeadingMagnitude(DropSign(t))
    case None => NaN
    case Some(m) => Num(if |t| > 0 && t[0] == '-' then -(m as real) else m as real)
  }

  /** Whitespace in front of a non-whitespace character is exactly what `trimStart` removes. */
  lemma {:induction false} TrimStartOfBlankPrefix(ws: string, t: string)
    requires IsBlank(ws)
    requires t == [] || !IsWhiteSpace(t[0])
    ensures TrimStart(ws + t) == t
  {
    if ws != [] {
      assert (ws + t)[1..] == ws[1..] + t;
      TrimStartOfBlankPrefix(ws[1..], t);
    }
  }

  /** A digit run followed by a non-digit is exactly the digit prefix. */
  lemma {:induction false} DigitPrefixOfRun(digits: string, rest: string)
    requires forall i :: 0 <= i < |digits| ==> IsDigit(digits[i])
    requires rest == [] || !IsDigit(rest[0])
    ensures DigitPrefix(digits + rest, 10) == digits
  {
    if digits != [] {
      assert (digits + rest)[1..] == digits[1..] + rest;
      DigitPrefixOfRun(digits[1..], rest);
    } else {
      assert digits + rest == rest;
    }
  }

  lemma TrimStartOfSignedRun(ws: string, sign: string, digits: string, rest: string)
    requires IsBlank(ws)
    requires sign == "" || sign == "+" || sign == "-"
    requires IsDigits(digits)
    ensures TrimStart(ws + sign + digits + rest) == sign + digits + rest
  {
    var t := sign + digits + rest;
    assert ws + sign + digits + rest == ws + t;
    assert t[0] == if sign == "" then digits[0] else sign[0];
    TrimStartOfBlankPrefix(ws, t);
  }

  lemma DropSignOfSignedRun(sign: string, digits: string, rest: string)
    requires sign == "" || sign == "+" || sign == "-"
    requires IsDigits(digits)
    ensures DropSign(sign + digits + rest) == digits + rest
    ensures var t := sign + digits + rest; (|t| > 0 && t[0] == '-') == (sign == "-")
  {
    var t := sign + digits + rest;
    if sign == "" {
      assert t == digits + rest;
      assert t[0] == digits[0];
    } else {
      assert t == [sign[0]] + (digits + rest);
    }
  }

  lemma MagnitudeOfDecimalRun(digits: string, rest: string)
    requires IsDigits(digits)
    requires rest == [] || !IsDigit(rest[0])
    requires !(digits == "0" && rest != [] && (rest[0] == 'x' || rest[0] == 'X'))
    ensures LeadingMagnitude(digits + rest) == Some(DigitsValue(digits, 10))
  {
    DigitPrefixOfRun(digits, rest);
    if |digits| >= 2 {
      assert (digits + rest)[1] == digits[1];
    }
  }

  /**
   * Whitespace, an optional sign and a run of decimal digits, followed by anything that
   * does not continue the run: only that leading integer counts (`"12abc"` reads as 12).
   * A lone `0` followed by `x` or `X` is excluded, since that starts a hexadecimal literal.
   */
  lemma ParseIntReadsLeadingInteger(ws: string, sign: string, digits: string, rest: string)
    requires IsBlank(ws)
    requires sign == "" || sign == "+" || sign == "-"
    requires IsDigits(digits)
    requires rest == [] || !IsDigit(rest[0])
    requires !(digits == "0" && rest != [] && (rest[0] == 'x' || rest[0] == 'X'))
    ensures ParseInt(ws + sign + digits + rest)
         == Num(if sign == "-" then -(DigitsValue(digits, 10) as real) else DigitsValue(digits, 10) as real)
  {
    var t := sign + digits + rest;
    TrimStartOfSignedRun(ws, sign, digits, rest);
    DropSignOfSignedRun(sign, digits, rest);
    MagnitudeOfDecimalRun(digits, rest);
    ParseIntOfParts(ws + sign + digits + rest, t, digits + rest, DigitsValue(digits, 10), sign == "-");
  }

  lemma ParseIntOfParts(s: string, t: string, u: string, m: nat, negative: bool)
    requires TrimStart(s) == t && DropSign(t) == u && LeadingMagnitude(u) == Some(m)
    requires (|t| > 0 && t[0] == '-') == negative
    ensures ParseInt(s) == Num(if negative then -(m as real) else m as real)
  {
  }

  /**
   * When, after the whitespace and the optional sign, the text does not start with a
   * decimal digit, the result is NaN.
   */
  lemma ParseIntWithoutLeadingDigitIsNaN(s: string)
    requires var u := DropSign(TrimStart(s)); u == [] || !IsDigit(u[0])
    ensures ParseInt(s) == NaN
  {
  }

  /** `parseInt("12abc")` is 12: the trailing letters are ignored. */
  lemma ParseIntIgnoresTrailingText()
    ensures ParseInt("12abc") == Num(12.0)
  {
    assert "12abc" == "" + "" + "12" + "abc";
    TwelveValue();
    ParseIntReadsLeadingInteger("", "", "12", "abc");
  }

  lemma TwelveValue()
    ensures DigitsValue("12", 10) == 12
  {
    assert "12"[..1] == "1";
    assert "1"[..0] == "";
  }

  /** `parseInt(" -7")` is -7. */
  lemma ParseIntReadsSign()
    ensures ParseInt(" -7") == Num(-7.0)
  {
    assert " -7" == " " + "-" + "7" + "";
    SevenValue();
    ParseIntReadsLeadingInteger(" ", "-", "7", "");
  }

  lemma SevenValue()
    ensures DigitsValue("7", 10) == 7
  {
    assert "7"[..0] == "";
  }

  /** `parseInt("abc")` and `parseInt("")` are NaN. */
  lemma ParseIntOfNonNumericIsNaN()
    ensures ParseInt("abc") == NaN
    ensures ParseInt("") == NaN
  {
    TrimStartOfBlankPrefix("", "abc");
    assert "" + "abc" == "abc";
    ParseIntWithoutLeadingDigitIsNaN("abc");
    ParseIntWithoutLeadingDigitIsNaN("");
  }
}
