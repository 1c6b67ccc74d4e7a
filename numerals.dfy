/**
 * Decimal and hexadecimal numerals as the browser's number routines read and
 * write them: `String(n)`, `parseInt(s, 16)` and `BigInt(s)`.
 */
module Numerals {
  import opened Common

  predicate IsDigit(c: char) {
    '0' <= c <= '9'
  }

  predicate IsHexDigit(c: char) {
    IsDigit(c) || 'a' <= c <= 'f' || 'A' <= c <= 'F'
  }

  function HexDigitValue(c: char): (d: nat)
    requires IsHexDigit(c)
    ensures d < 16
    ensures d < 10 <==> IsDigit(c)
  {
    if IsDigit(c) then c as int - '0' as int
    else if 'a' <= c <= 'f' then c as int - 'a' as int + 10
    else c as int - 'A' as int + 10
  }

  /** `c` is a digit of the numerals in base `base` (2, 8, 10 or 16). */
  predicate InBase(c: char, base: nat) {
    IsHexDigit(c) && HexDigitValue(c) < base
  }

  predicate AllInBase(s: string, base: nat) {
    forall i :: 0 <= i < |s| ==> InBase(s[i], base)
  }

  /** The number that the digits `s` denote in base `base`. */
  function ValueIn(s: string, base: nat): nat
    requires AllInBase(s, base)
    decreases |s|
  {
    if s == [] then 0 else base * ValueIn(s[..|s| - 1], base) + HexDigitValue(s[|s| - 1])
  }

  predicate AllDigits(s: string) {
    AllInBase(s, 10)
  }

  predicate AllHex(s: string) {
    AllInBase(s, 16)
  }

  function DecimalValue(s: string): nat
    requires AllDigits(s)
  {
    ValueIn(s, 10)
  }

  function HexValue(s: string): nat
    requires AllHex(s)
  {
    ValueIn(s, 16)
  }

  function DigitChar(d: nat): (c: char)
    requires d < 10
    ensures InBase(c, 10) && HexDigitValue(c) == d
  {
    ('0' as int + d) as char
  }

  /** `String(n)` for a natural number: its shortest decimal numeral. */
  function ToDecimal(n: nat): (s: string)
    ensures 1 <= |s| && AllDigits(s)
    ensures s[0] == '0' ==> n == 0 && s == "0"
    decreases n
  {
    if n < 10 then [DigitChar(n)] else ToDecimal(n / 10) + [DigitChar(n % 10)]
  }

  /** Reading back the numeral `String(n)` gives `n`. */
  lemma {:induction false} DecimalRoundTrip(n: nat)
    ensures DecimalValue(ToDecimal(n)) == n
  {
    if n >= 10 {
      var s := ToDecimal(n);
      assert s[..|s| - 1] == ToDecimal(n / 10);
      assert s[|s| - 1] == DigitChar(n % 10);
      DecimalRoundTrip(n / 10);
      assert DecimalValue(s) == 10 * DecimalValue(s[..|s| - 1]) + HexDigitValue(s[|s| - 1]);
    } else {
      var s := ToDecimal(n);
      assert s[..0] == [];
      assert DecimalValue(s) == 10 * DecimalValue(s[..0]) + HexDigitValue(s[0]);
    }
  }

  /** A template literal `${n}` for an integer `n`. */
  function IntToString(n: int): (s: string)
    ensures 1 <= |s|
    ensures n >= 0 ==> AllDigits(s) && DecimalValue(s) == n
    ensures n < 0 ==> |s| >= 2 && s[0] == '-' && AllDigits(s[1..]) && DecimalValue(s[1..]) == -n
  {
    if n < 0 then
      DecimalRoundTrip(-n);
      assert ("-" + ToDecimal(-n))[1..] == ToDecimal(-n);
      "-" + ToDecimal(-n)
    else
      DecimalRoundTrip(n);
      ToDecimal(n)
  }

  /** The characters JavaScript's string-to-number routines skip as white space. */
  predicate IsJsWhitespace(c: char) {
    c == ' ' || c == '\t' || c == '\n' || c == '\r' || c == '\U{B}' || c == '\U{C}'
    || c == '\U{A0}' || c == '\U{1680}' || ('\U{2000}' <= c <= '\U{200A}')
    || c == '\U{2028}' || c == '\U{2029}' || c == '\U{202F}' || c == '\U{205F}'
    || c == '\U{3000}' || c == '\U{FEFF}'
  }

  /** `s` with its leading white space removed. */
  function TrimStart(s: string): (r: string)
    ensures |r| <= |s| && r == s[|s| - |r|..]
    ensures forall i :: 0 <= i < |s| - |r| ==> IsJsWhitespace(s[i])
    ensures r == [] || !IsJsWhitespace(r[0])
    decreases |s|
  {
    if s != [] && IsJsWhitespace(s[0]) then TrimStart(s[1..]) else s
  }

  /** `s` with its trailing white space removed. */
  function TrimEnd(s: string): (r: string)
    ensures |r| <= |s| && r == s[..|r|]
    ensures forall i :: |r| <= i < |s| ==> IsJsWhitespace(s[i])
    ensures r == [] || !IsJsWhitespace(r[|r| - 1])
    decreases |s|
  {
    if s != [] && IsJsWhitespace(s[|s| - 1]) then TrimEnd(s[..|s| - 1]) else s
  }

  /** The length of the longest run of hexadecimal digits that starts `s`. */
  function HexPrefixLength(s: string): (k: nat)
    ensures k <= |s| && AllHex(s[..k])
    ensures k < |s| ==> !IsHexDigit(s[k])
    decreases |s|
  {
    if s == [] || !IsHexDigit(s[0]) then 0 else 1 + HexPrefixLength(s[1..])
  }

  /**
   * `parseInt(s, 16)`: skip leading white space, read an optional sign and an
   * optional `0x`/`0X`, then as many hexadecimal digits as follow. `None`
   * stands for `NaN`, the answer when no digit follows.
   */
  function ParseIntHex(s: string): (r: Option<int>)
  {
    var t := TrimStart(s);
    var negative := |t| > 0 && t[0] == '-';
    var u := if |t| > 0 && (t[0] == '-' || t[0] == '+') then t[1..] else t;
    var v := if |u| >= 2 && u[0] == '0' && (u[1] == 'x' || u[1] == 'X') then u[2..] else u;
    var k := HexPrefixLength(v);
    var magnitude: int := if k == 0 then 0 else HexValue(v[..k]);
    if k == 0 then None else if negative then Some(-magnitude) else Some(magnitude)
  }

  /** A run of hex digits is read in full when what follows it is not a hex digit. */
  lemma {:induction false} HexPrefixOfLiteral(h: string, rest: string)
    requires AllHex(h)
    requires rest == [] || !IsHexDigit(rest[0])
    ensures HexPrefixLength(h + rest) == |h|
    decreases |h|
  {
    if h != [] {
      assert (h + rest)[1..] == h[1..] + rest;
      HexPrefixOfLiteral(h[1..], rest);
    }
  }

  /**
   * `parseInt("0x" + h + rest, 16)` is the value of `h`, for a non-empty run
   * of hex digits `h` that `rest` does not continue.
   */
  lemma ParseIntHexOfLiteral(h: string, rest: string)
    requires h != [] && AllHex(h)
    requires rest == [] || !IsHexDigit(rest[0])
    ensures ParseIntHex("0x" + h + rest) == Some(HexValue(h))
  {
    var s := "0x" + h + rest;
    assert s[0] == '0';
    assert TrimStart(s) == s;
    assert s[2..] == h + rest;
    HexPrefixOfLiteral(h, rest);
    assert (h + rest)[..|h|] == h;
  }

  /** `0x`, `0o` or `0b` (either case) and the base it announces; 0 for none. */
  function RadixPrefixBase(t: string): (base: nat)
    ensures base in {0, 2, 8, 16}
    ensures base != 0 ==> |t| >= 2 && t[0] == '0'
  {
    if |t| < 2 || t[0] != '0' then 0
    else if t[1] == 'x' || t[1] == 'X' then 16
    else if t[1] == 'o' || t[1] == 'O' then 8
    else if t[1] == 'b' || t[1] == 'B' then 2
    else 0
  }

  /**
   * `BigInt(s)` for a string `s`: white space around the literal is ignored,
   * an empty literal is 0, a literal is a signed decimal integer or an
   * unsigned `0x`/`0o`/`0b` integer. `None` stands for the SyntaxError
   * BigInt throws for anything else.
   */
  function BigIntOfString(s: string): (r: Option<int>)
    ensures TrimEnd(TrimStart(s)) == [] ==> r == Some(0)
  {
    BigIntLiteral(TrimEnd(TrimStart(s)))
  }

  /** What `BigInt` makes of the literal once the surrounding white space is gone. */
  function BigIntLiteral(t: string): (r: Option<int>)
    ensures t == [] ==> r == Some(0)
  {
    var base := RadixPrefixBase(t);
    if t == [] then Some(0)
    else if base != 0 then
      var digits := t[2..];
      if digits != [] && AllInBase(digits, base) then Some(ValueIn(digits, base)) else None
    else
      var negative := t[0] == '-';
      var digits := if t[0] == '-' || t[0] == '+' then t[1..] else t;
      var magnitude: int := if AllDigits(digits) then DecimalValue(digits) else 0;
      if digits != [] && AllDigits(digits) then
        (if negative then Some(-magnitude) else Some(magnitude))
      else None
  }

  /** A string that starts and ends with a non-white-space character is its own trim. */
  lemma TrimOfTight(t: string)
    requires t != [] && !IsJsWhitespace(t[0]) && !IsJsWhitespace(t[|t| - 1])
    ensures TrimEnd(TrimStart(t)) == t
  {
    assert TrimStart(t) == t;
  }

  /** `BigInt(n.toString())` gives back `n` for every integer `n`. */
  lemma BigIntOfIntToString(n: int)
    ensures BigIntOfString(IntToString(n)) == Some(n)
  {
    if n >= 0 {
      NonNegativeNumeral(n);
    } else {
      NegativeNumeral(n);
    }
  }

  lemma NonNegativeNumeral(n: int)
    requires n >= 0
    ensures BigIntOfString(IntToString(n)) == Some(n)
  {
    var t := IntToString(n);
    BigIntOfNumeral(t);
  }

  lemma NegativeNumeral(n: int)
    requires n < 0
    ensures BigIntOfString(IntToString(n)) == Some(n)
  {
    var t := IntToString(n);
    var d := t[1..];
    assert t == "-" + d;
    BigIntOfNumeral(d);
  }

  /** `BigInt` reads a run of decimal digits, with or without a leading minus sign. */
  lemma BigIntOfNumeral(d: string)
    requires d != [] && AllDigits(d)
    ensures BigIntOfString(d) == Some(DecimalValue(d))
    ensures BigIntOfString("-" + d) == Some(-(DecimalValue(d) as int))
  {
    assert InBase(d[0], 10) && InBase(d[|d| - 1], 10);
    TrimOfTight(d);
    DecimalLiteral(d);
    var t := "-" + d;
    assert t[1..] == d && t[|t| - 1] == d[|d| - 1];
    TrimOfTight(t);
  }

  lemma DecimalLiteral(d: string)
    requires d != [] && AllDigits(d)
    ensures BigIntLiteral(d) == Some(DecimalValue(d))
    ensures BigIntLiteral("-" + d) == Some(-(DecimalValue(d) as int))
  {
    assert InBase(d[0], 10);
    if |d| >= 2 {
      assert InBase(d[1], 10);
    }
    assert RadixPrefixBase(d) == 0;
    var t := "-" + d;
    assert t[1..] == d;
    assert RadixPrefixBase(t) == 0;
  }

  /** `BigInt("0x" + h)` is the value of `h` when `h` is a non-empty run of hex digits, and throws otherwise when nothing but white space trails. */
  lemma BigIntOfHexLiteral(h: string)
    ensures h != [] && AllHex(h) ==> BigIntOfString("0x" + h) == Some(HexValue(h))
    ensures h == [] ==> BigIntOfString("0x" + h) == None
  {
    var s := "0x" + h;
    assert s[0] == '0' && s[1] == 'x';
    assert TrimStart(s) == s;
    if h != [] && AllHex(h) {
      assert !IsJsWhitespace(s[|s| - 1]);
      assert TrimEnd(s) == s;
      assert s[2..] == h;
    } else if h == [] {
      assert TrimEnd(s) == s;
    }
  }

  /** The length of the longest run of decimal digits that starts `s`. */
  function DigitPrefixLength(s: string): (k: nat)
    ensures k <= |s| && AllDigits(s[..k])
    ensures k < |s| ==> !IsDigit(s[k])
    decreases |s|
  {
    if s == [] || !IsDigit(s[0]) then 0 else 1 + DigitPrefixLength(s[1..])
  }

  lemma {:induction false} DigitPrefixOfNumeral(d: string, rest: string)
    requires AllDigits(d)
    requires rest == [] || !IsDigit(rest[0])
    ensures DigitPrefixLength(d + rest) == |d|
    decreases |d|
  {
    if d != [] {
      assert (d + rest)[0] == d[0] && InBase(d[0], 10);
      assert (d + rest)[1..] == d[1..] + rest;
      DigitPrefixOfNumeral(d[1..], rest);
    }
  }

  /** Two integers with the same numeral are equal. */
  lemma IntToStringInjective(a: int, b: int)
    requires IntToString(a) == IntToString(b)
    ensures a == b
  {
    var s := IntToString(a);
    if a >= 0 {
      assert InBase(s[0], 10);
      assert s[0] != '-';
    } else {
      assert s[0] == '-';
      assert !InBase(s[0], 10);
    }
  }

  /** The length of the numeral `[-]digits` that starts `s`. */
  function NumeralLength(s: string): (k: nat)
    ensures k <= |s|
  {
    if s != [] && s[0] == '-' then 1 + DigitPrefixLength(s[1..]) else DigitPrefixLength(s)
  }

  lemma NumeralLengthOf(a: int, x: string)
    ensures NumeralLength(IntToString(a) + "-" + x) == |IntToString(a)|
  {
    var sa := IntToString(a);
    var s := sa + "-" + x;
    assert s == sa + ("-" + x);
    if a >= 0 {
      assert s[0] == sa[0] && InBase(sa[0], 10);
      DigitPrefixOfNumeral(sa, "-" + x);
    } else {
      assert s[1..] == sa[1..] + ("-" + x);
      DigitPrefixOfNumeral(sa[1..], "-" + x);
    }
  }

  /**
   * A string `${a}-${x}` determines the integer `a` and the text `x`: the
   * numeral ends at the first non-digit after its optional minus sign.
   */
  lemma NumeralDashSplit(a: int, b: int, x: string, y: string)
    requires IntToString(a) + "-" + x == IntToString(b) + "-" + y
    ensures a == b && x == y
  {
    var sa, sb := IntToString(a), IntToString(b);
    var s := sa + "-" + x;
    NumeralLengthOf(a, x);
    NumeralLengthOf(b, y);
    assert sa == s[..|sa|];
    assert sb == s[..|sb|];
    IntToStringInjective(a, b);
    assert x == s[|sa| + 1..];
  }
}
