/**
 * Decimal numerals: the spelling JavaScript gives a non-negative integer when
 * it is interpolated into a template literal, and the global `parseInt` with
 * radix 10 (section 19.2.5 of ECMA-262) that reads one back.
 */
module Decimal {

  predicate IsDigit(c: char) {
    '0' <= c <= '9'
  }

  predicate AllDigits(s: string) {
    forall i :: 0 <= i < |s| ==> IsDigit(s[i])
  }

  function DigitValue(c: char): (d: nat)
    requires IsDigit(c)
    ensures d < 10
  {
    c as int - '0' as int
  }

  function DigitChar(d: nat): (c: char)
    requires d < 10
    ensures IsDigit(c) && DigitValue(c) == d
  {
    ('0' as int + d) as char
  }

  /** The numeral of `n`, most significant digit first, without leading zeros. */
  function NatToString(n: nat): (s: string)
    ensures |s| >= 1 && AllDigits(s)
    ensures s[0] == '0' ==> n == 0
  {
    if n < 10 then [DigitChar(n)] else NatToString(n / 10) + [DigitChar(n % 10)]
  }

  /** The number a digit string denotes. */
  function DigitsValue(s: string): nat
    requires AllDigits(s)
  {
    if s == [] then 0 else DigitsValue(s[..|s| - 1]) * 10 + DigitValue(s[|s| - 1])
  }

  /** Reading a numeral back gives the number it was made from. */
  lemma {:induction false} DigitsValueOfNatToString(n: nat)
    ensures DigitsValue(NatToString(n)) == n
  {
    if n >= 10 {
      var s := NatToString(n);
      assert s[..|s| - 1] == NatToString(n / 10);
      DigitsValueOfNatToString(n / 10);
    }
  }

  /** Distinct numbers have distinct numerals. */
  lemma NatToStringInjective(m: nat, n: nat)
    requires NatToString(m) == NatToString(n)
    ensures m == n
  {
    DigitsValueOfNatToString(m);
    DigitsValueOfNatToString(n);
  }

  /**
   * The characters `parseInt` trims from the front: WhiteSpace (tab, vertical
   * tab, form feed, the byte order mark and every space separator of category
   * Zs) and LineTerminator (line feed, carriage return, U+2028, U+2029).
   */
  predicate IsStrWhiteSpace(c: char) {
    var u := c as int;
    u == 0x09 || u == 0x0B || u == 0x0C || u == 0x20 || u == 0xA0 || u == 0xFEFF
    || u == 0x0A || u == 0x0D || u == 0x2028 || u == 0x2029
    || u == 0x1680 || (0x2000 <= u <= 0x200A) || u == 0x202F || u == 0x205F || u == 0x3000
  }

  /** `s` with its leading white space removed. */
  function TrimStart(s: string): (t: string)
    ensures |t| <= |s| && t == s[|s| - |t|..]
    ensures t == [] || !IsStrWhiteSpace(t[0])
    ensures forall i :: 0 <= i < |s| - |t| ==> IsStrWhiteSpace(s[i])
  {
    if s != [] && IsStrWhiteSpace(s[0]) then TrimStart(s[1..]) else s
  }

  /** The longest prefix of `s` made of decimal digits. */
  function LeadingDigits(s: string): (z: string)
    ensures |z| <= |s| && z == s[..|z|] && AllDigits(z)
    ensures |z| < |s| ==> !IsDigit(s[|z|])
  {
    if s != [] && IsDigit(s[0]) then [s[0]] + LeadingDigits(s[1..]) else []
  }

  /** A Number as `parseInt` can produce it: NaN or an integer (-0 is folded into 0). */
  datatype Parsed = NaN | Int(value: int)

  /**
   * `parseInt(s, 10)`: skip leading white space, take one optional sign, then
   * the longest run of digits; NaN when that run is empty.
   */
  function ParseInt(s: string): (r: Parsed)
  {
    var t := TrimStart(s);
    var negative := t != [] && t[0] == '-';
    var u := if t != [] && (t[0] == '-' || t[0] == '+') then t[1..] else t;
    var z := LeadingDigits(u);
    if z == [] then NaN else Int(if negative then -(DigitsValue(z) as int) else DigitsValue(z))
  }

  /**
   * A run of digits followed by anything that does not continue it is read as
   * the run alone, so `"12abc"` gives 12.
   */
  lemma {:induction false} ParseIntDigitPrefix(digits: string, rest: string)
    requires digits != [] && AllDigits(digits)
    requires rest == [] || !IsDigit(rest[0])
    ensures ParseInt(digits + rest) == Int(DigitsValue(digits))
  {
    var s := digits + rest;
    assert !IsStrWhiteSpace(s[0]) by { assert IsDigit(s[0]); }
    assert TrimStart(s) == s;
    LeadingDigitsOfConcat(digits, rest);
  }

  lemma {:induction false} LeadingDigitsOfConcat(digits: string, rest: string)
    requires AllDigits(digits)
    requires rest == [] || !IsDigit(rest[0])
    ensures LeadingDigits(digits + rest) == digits
  {
    if digits != [] {
      assert (digits + rest)[1..] == digits[1..] + rest;
      LeadingDigitsOfConcat(digits[1..], rest);
    }
  }

  /** The numeral of a number, with anything non-numeric after it, parses back to the number. */
  lemma ParseIntOfNatToString(n: nat, rest: string)
    requires rest == [] || !IsDigit(rest[0])
    ensures ParseInt(NatToString(n) + rest) == Int(n)
  {
    ParseIntDigitPrefix(NatToString(n), rest);
    DigitsValueOfNatToString(n);
  }

  /**
   * `parseInt` yields NaN exactly when, after the white space and one optional
   * sign, the text does not start with a digit.
   */
  lemma ParseIntNaN(s: string)
    ensures ParseInt(s) == NaN <==>
      var t := TrimStart(s);
      var u := if t != [] && (t[0] == '-' || t[0] == '+') then t[1..] else t;
      u == [] || !IsDigit(u[0])
  {
  }

  /** `parseInt("12abc", 10)` is 12. */
  lemma ParseIntTrailingText()
    ensures ParseInt("12abc") == Int(12)
  {
    assert "12abc" == "12" + "abc";
    ParseIntDigitPrefix("12", "abc");
    DigitsOfTwelve();
  }

  lemma DigitsOfTwelve()
    ensures AllDigits("12") && DigitsValue("12") == 12
  {
    assert "12"[..1] == "1" && "1"[..0] == [];
  }

  /** `parseInt("abc", 10)` and `parseInt("", 10)` are NaN. */
  lemma ParseIntNoDigits()
    ensures ParseInt("abc") == NaN
    ensures ParseInt("") == NaN
  {
    ParseIntNaN("abc");
  }
}
