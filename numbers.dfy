/**
 * JavaScript's global `parseInt(string)` with no radix argument, on the
 * integers the front end handles, and its round trip with `String(n)`.
 * `None` stands for NaN.
 */
module Numbers {
  import opened Js

  /** StrWhiteSpaceChar: the white space and line terminators parseInt skips. */
  predicate IsJsSpace(c: char)
  {
    c == '\t' || c == '\n' || c == '\U{B}' || c == '\U{C}' || c == '\r' || c == ' '
    || c == '\U{A0}' || c == '\U{1680}' || ('\U{2000}' <= c <= '\U{200A}')
    || c == '\U{2028}' || c == '\U{2029}' || c == '\U{202F}' || c == '\U{205F}'
    || c == '\U{3000}' || c == '\U{FEFF}'
  }

  function TrimStart(s: string): (t: string)
    ensures |t| <= |s| && t == s[|s| - |t|..]
    ensures t != [] ==> !IsJsSpace(t[0])
  {
    if s != [] && IsJsSpace(s[0]) then TrimStart(s[1..]) else s
  }

  /** The value of `c` as a digit in base 10 or 16, or -1 when it is not one. */
  function DigitValue(c: char, base: nat): int
  {
    var v :=
      if '0' <= c <= '9' then c as int - '0' as int
      else if 'a' <= c <= 'f' then c as int - 'a' as int + 10
      else if 'A' <= c <= 'F' then c as int - 'A' as int + 10
      else -1;
    if v < base then v else -1
  }

  predicate IsDigit(c: char, base: nat)
  {
    DigitValue(c, base) >= 0
  }

  /** The longest prefix of `s` made of digits of `base`. */
  function LeadingDigits(s: string, base: nat): (ds: string)
    ensures |ds| <= |s| && ds == s[..|ds|]
    ensures forall i :: 0 <= i < |ds| ==> IsDigit(ds[i], base)
    ensures |ds| < |s| ==> !IsDigit(s[|ds|], base)
  {
    if s != [] && IsDigit(s[0], base) then [s[0]] + LeadingDigits(s[1..], base) else []
  }

  /** The number a string of digits denotes, most significant digit first. */
  function DigitsValue(ds: string, base: nat): int
    requires forall i :: 0 <= i < |ds| ==> IsDigit(ds[i], base)
  {
    if ds == [] then 0
    else
      var last := DigitValue(ds[|ds| - 1], base);
      assert IsDigit(ds[|ds| - 1], base);
      DigitsValue(ds[..|ds| - 1], base) * base + last
  }

  /**
   * parseInt(s): skip leading white space, take an optional sign, then a
   * "0x"/"0X" prefix selects base 16; the longest run of digits that follows
   * is the magnitude, and without any digit the result is NaN.
   */
  function ParseInt(s: string): (r: Option<int>)
    ensures r.None? <==> LeadingDigits(ParseBody(s), ParseBase(s)) == []
  {
    var ds := LeadingDigits(ParseBody(s), ParseBase(s));
    if ds == [] then None
    else
      var m: int := DigitsValue(ds, ParseBase(s));
      Some(if ParseNegative(s) then -m else m)
  }

  /** The text after white space and sign. */
  function Unsigned(s: string): string
  {
    var t := TrimStart(s);
    if t != [] && (t[0] == '-' || t[0] == '+') then t[1..] else t
  }

  predicate ParseNegative(s: string)
  {
    var t := TrimStart(s);
    t != [] && t[0] == '-'
  }

  predicate HexPrefix(u: string)
  {
    |u| >= 2 && u[0] == '0' && (u[1] == 'x' || u[1] == 'X')
  }

  function ParseBase(s: string): nat
  {
    if HexPrefix(Unsigned(s)) then 16 else 10
  }

  function ParseBody(s: string): string
  {
    var u := Unsigned(s);
    if HexPrefix(u) then u[2..] else u
  }

  lemma {:induction false} LeadingDigitsOfDigits(ds: string, base: nat)
    requires forall i :: 0 <= i < |ds| ==> IsDigit(ds[i], base)
    ensures LeadingDigits(ds, base) == ds
    decreases |ds|
  {
    if ds != [] {
      LeadingDigitsOfDigits(ds[1..], base);
    }
  }

  lemma {:induction false} NatStringValue(n: nat)
    ensures DigitsValue(NatString(n), 10) == n
    decreases n
  {
    var s := NatString(n);
    if n < 10 {
      assert s[..0] == [];
    } else {
      NatStringValue(n / 10);
      assert s[..|s| - 1] == NatString(n / 10);
      assert DigitValue(s[|s| - 1], 10) == n % 10;
    }
  }

  /** `parseInt(String(n)) === n` for every integer n. */
  lemma ParseIntOfIntString(n: int)
    ensures ParseInt(IntString(n)) == Some(n)
  {
    var m: nat := if n < 0 then -n else n;
    var digits := NatString(m);
    DecimalDigits(digits);
    LeadingDigitsOfDigits(digits, 10);
    NatStringValue(m);
    if n < 0 {
      UnsignedOfSigned(digits);
    } else {
      UnsignedOfDigits(digits);
    }
  }

  lemma UnsignedOfDigits(digits: string)
    requires |digits| >= 1 && '0' <= digits[0] <= '9'
    ensures TrimStart(digits) == digits
    ensures Unsigned(digits) == digits && !ParseNegative(digits)
  {
    assert !IsJsSpace(digits[0]);
    assert TrimStart(digits) == digits;
    assert digits[0] != '-' && digits[0] != '+';
  }

  lemma UnsignedOfSigned(digits: string)
    requires |digits| >= 1
    ensures TrimStart("-" + digits) == "-" + digits
    ensures Unsigned("-" + digits) == digits && ParseNegative("-" + digits)
  {
    var s := "-" + digits;
    assert s[0] == '-' && !IsJsSpace(s[0]);
    assert s[1..] == digits;
  }

  /** The digits of a natural number are decimal digits and never start with "0x". */
  lemma DecimalDigits(digits: string)
    requires |digits| >= 1
    requires forall i :: 0 <= i < |digits| ==> '0' <= digits[i] <= '9'
    requires digits[0] == '0' ==> |digits| == 1
    ensures !HexPrefix(digits)
    ensures forall i :: 0 <= i < |digits| ==> IsDigit(digits[i], 10)
  {
  }

  /** The rule of the party-size input: `parseInt(value) || 1`. */
  function ParseCount(value: string): (r: int)
    ensures r != 0
    ensures ParseInt(value).Some? && ParseInt(value).value != 0 ==> r == ParseInt(value).value
    ensures ParseInt(value).None? || ParseInt(value) == Some(0) ==> r == 1
  {
    match ParseInt(value)
    case None => 1
    case Some(k) => if k == 0 then 1 else k
  }

  /** Every integer other than 0 typed into the input is kept; 0 becomes 1. */
  lemma ParseCountOfIntString(n: int)
    ensures ParseCount(IntString(n)) == if n == 0 then 1 else n
  {
    ParseIntOfIntString(n);
  }
}
