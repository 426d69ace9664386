// The pieces of JavaScript's string semantics that the handlers rely on:
// the whitespace class (`\s`, `trim`), number-to-string conversion of integers
// and `parseInt` with no radix.

module JsStrings {
  import opened Common

  /** ECMAScript WhiteSpace and LineTerminator code points: the `\s` class and what `trim` removes. */
  predicate IsWhitespace(c: char)
  {
    var n := c as int;
    (0x09 <= n <= 0x0D) || n == 0x20 || n == 0xA0 || n == 0x1680 || (0x2000 <= n <= 0x200A)
    || n == 0x2028 || n == 0x2029 || n == 0x202F || n == 0x205F || n == 0x3000 || n == 0xFEFF
  }

  /** ECMAScript LineTerminator code points: the characters a regular-expression `.` does not match. */
  predicate IsLineTerminator(c: char)
  {
    var n := c as int;
    n == 0x0A || n == 0x0D || n == 0x2028 || n == 0x2029
  }

  predicate IsDigit(c: char)
  {
    '0' <= c <= '9'
  }

  // ---------------------------------------------------------------- trim

  function TrimStart(s: string): (r: string)
    ensures |r| <= |s| && r == s[|s| - |r|..]
    ensures r != [] ==> !IsWhitespace(r[0])
    ensures forall i :: 0 <= i < |s| - |r| ==> IsWhitespace(s[i])
  {
    if s != [] && IsWhitespace(s[0]) then TrimStart(s[1..]) else s
  }

  function TrimEnd(s: string): (r: string)
    ensures |r| <= |s| && r == s[..|r|]
    ensures r != [] ==> !IsWhitespace(r[|r| - 1])
    ensures forall i :: |r| <= i < |s| ==> IsWhitespace(s[i])
  {
    if s != [] && IsWhitespace(s[|s| - 1]) then TrimEnd(s[..|s| - 1]) else s
  }

  /** `String.prototype.trim`. */
  function Trim(s: string): string
  {
    TrimEnd(TrimStart(s))
  }

  /** The trimmed string is empty exactly when every character is whitespace. */
  lemma TrimEmptyIff(s: string)
    ensures Trim(s) == [] <==> forall i :: 0 <= i < |s| ==> IsWhitespace(s[i])
  {
    var t := TrimStart(s);
    if Trim(s) == [] {
      assert t == [];
    } else {
      var r := Trim(s);
      assert r == t[..|r|];
      assert !IsWhitespace(t[0]);
      assert t[0] == s[|s| - |t|];
    }
  }

  // ---------------------------------------------------------------- integers to text

  function DigitChar(d: nat): (c: char)
    requires d < 10
    ensures IsDigit(c)
  {
    "0123456789"[d]
  }

  function DigitValue(c: char): (d: nat)
    requires IsDigit(c)
    ensures d < 10
  {
    (c as int - '0' as int) as nat
  }

  lemma DigitRoundTrip(d: nat)
    requires d < 10
    ensures DigitValue(DigitChar(d)) == d
  {
  }

  /** Decimal notation of a natural number, as `String(n)` writes it. */
  function NatToString(n: nat): (s: string)
    ensures s != [] && forall i :: 0 <= i < |s| ==> IsDigit(s[i])
    ensures |s| > 1 ==> s[0] != '0'
  {
    if n < 10 then [DigitChar(n)] else NatToString(n / 10) + [DigitChar(n % 10)]
  }

  /** `String(i)` / template-literal interpolation of an integer-valued number. */
  function IntToString(i: int): string
  {
    if i < 0 then "-" + NatToString(-i) else NatToString(i)
  }

  /** Value of a string of decimal digits. */
  function DecimalValue(s: string): nat
    requires forall i :: 0 <= i < |s| ==> IsDigit(s[i])
  {
    if s == [] then 0 else DecimalValue(s[..|s| - 1]) * 10 + DigitValue(s[|s| - 1])
  }

  lemma {:induction false} DecimalOfNatToString(n: nat)
    ensures DecimalValue(NatToString(n)) == n
  {
    var s := NatToString(n);
    if n >= 10 {
      DecimalOfNatToString(n / 10);
      assert s[..|s| - 1] == NatToString(n / 10);
      DigitRoundTrip(n % 10);
    } else {
      DigitRoundTrip(n);
    }
  }

  // ---------------------------------------------------------------- parseInt

  /** Number of leading characters of `s` satisfying `IsDigit`. */
  function LeadingDigits(s: string): (k: nat)
    ensures k <= |s|
    ensures forall i :: 0 <= i < k ==> IsDigit(s[i])
    ensures k < |s| ==> !IsDigit(s[k])
  {
    if s != [] && IsDigit(s[0]) then 1 + LeadingDigits(s[1..]) else 0
  }

  predicate IsHexDigit(c: char)
  {
    IsDigit(c) || ('a' <= c <= 'f') || ('A' <= c <= 'F')
  }

  function HexValue(c: char): (d: nat)
    requires IsHexDigit(c)
    ensures d < 16
  {
    if IsDigit(c) then DigitValue(c)
    else if 'a' <= c <= 'f' then (c as int - 'a' as int + 10) as nat
    else (c as int - 'A' as int + 10) as nat
  }

  function LeadingHexDigits(s: string): (k: nat)
    ensures k <= |s|
    ensures forall i :: 0 <= i < k ==> IsHexDigit(s[i])
  {
    if s != [] && IsHexDigit(s[0]) then 1 + LeadingHexDigits(s[1..]) else 0
  }

  function HexNumber(s: string): nat
    requires forall i :: 0 <= i < |s| ==> IsHexDigit(s[i])
  {
    if s == [] then 0 else HexNumber(s[..|s| - 1]) * 16 + HexValue(s[|s| - 1])
  }

  /** The unsigned part of `parseInt`: a `0x`/`0X` prefix selects base 16, otherwise base 10; `None` is NaN. */
  function ParseUnsigned(s: string): Option<nat>
  {
    if |s| >= 2 && s[0] == '0' && (s[1] == 'x' || s[1] == 'X') then
      var k := LeadingHexDigits(s[2..]);
      if k == 0 then None else Some(HexNumber(s[2..][..k]))
    else
      var k := LeadingDigits(s);
      if k == 0 then None else Some(DecimalValue(s[..k]))
  }

  /** `parseInt(s)` with no radix: leading whitespace, an optional sign, then the longest numeral prefix. */
  function ParseInt(s: string): Option<int>
  {
    var t := TrimStart(s);
    if t != [] && (t[0] == '-' || t[0] == '+') then
      match ParseUnsigned(t[1..])
      case None => None
      case Some(n) => Some(if t[0] == '-' then -(n as int) else n as int)
    else
      match ParseUnsigned(t)
      case None => None
      case Some(n) => Some(n)
  }

  /** `parseInt` reads back every integer that `String` writes. */
  lemma ParseIntOfIntToString(i: int)
    ensures ParseInt(IntToString(i)) == Some(i)
  {
    var n: nat := if i < 0 then -i else i;
    var d := NatToString(n);
    ParseUnsignedOfNatToString(n);
    var s := IntToString(i);
    assert !IsWhitespace(s[0]);
    assert TrimStart(s) == s;
    if i < 0 {
      assert s[1..] == d;
    } else {
      assert s == d;
    }
  }

  lemma ParseUnsignedOfNatToString(n: nat)
    ensures ParseUnsigned(NatToString(n)) == Some(n)
  {
    var d := NatToString(n);
    LeadingDigitsAll(d);
    assert d[..|d|] == d;
    DecimalOfNatToString(n);
    assert !(|d| >= 2 && d[0] == '0');
  }

  lemma {:induction false} LeadingDigitsAll(s: string)
    requires forall i :: 0 <= i < |s| ==> IsDigit(s[i])
    ensures LeadingDigits(s) == |s|
  {
    if s != [] {
      LeadingDigitsAll(s[1..]);
    }
  }

  /** A number followed by text that cannot continue a numeral still reads back as that number. */
  lemma ParseIntOfIntToStringThen(i: int, t: string)
    requires t == [] || (!IsDigit(t[0]) && t[0] != 'x' && t[0] != 'X')
    ensures ParseInt(IntToString(i) + t) == Some(i)
  {
    if i < 0 {
      var n: nat := -i;
      assert IntToString(i) + t == "-" + NatToString(n) + t;
      NegativeThen(n, t);
    } else {
      NonNegativeThen(i, t);
    }
  }

  lemma NegativeThen(n: nat, t: string)
    requires n > 0
    requires t == [] || (!IsDigit(t[0]) && t[0] != 'x' && t[0] != 'X')
    ensures ParseInt("-" + NatToString(n) + t) == Some(-(n as int))
  {
    var s := "-" + NatToString(n) + t;
    assert s[1..] == NatToString(n) + t;
    ParseUnsignedThen(n, t);
    ParseIntNegative(s, n);
  }

  lemma NonNegativeThen(n: nat, t: string)
    requires t == [] || (!IsDigit(t[0]) && t[0] != 'x' && t[0] != 'X')
    ensures ParseInt(IntToString(n) + t) == Some(n)
  {
    ParseUnsignedThen(n, t);
    ParseIntUnsigned(NatToString(n) + t);
  }

  lemma ParseIntNegative(s: string, n: nat)
    requires s != [] && s[0] == '-' && ParseUnsigned(s[1..]) == Some(n)
    ensures ParseInt(s) == Some(-(n as int))
  {
    assert TrimStart(s) == s;
  }

  lemma ParseIntUnsigned(u: string)
    requires u != [] && IsDigit(u[0])
    requires ParseUnsigned(u).Some?
    ensures ParseInt(u) == Some(ParseUnsigned(u).value as int)
  {
    assert !IsWhitespace(u[0]);
    assert TrimStart(u) == u;
  }

  lemma ParseUnsignedThen(n: nat, t: string)
    requires t == [] || (!IsDigit(t[0]) && t[0] != 'x' && t[0] != 'X')
    ensures ParseUnsigned(NatToString(n) + t) == Some(n)
  {
    var d := NatToString(n);
    var s := d + t;
    LeadingDigitsThen(d, t);
    assert s[..|d|] == d;
    DecimalOfNatToString(n);
    assert !(|s| >= 2 && s[0] == '0' && (s[1] == 'x' || s[1] == 'X')) by {
      if |d| == 1 {
        assert t != [] ==> s[1] == t[0];
      } else {
        assert s[0] == d[0];
      }
    }
  }

  lemma {:induction false} LeadingDigitsThen(d: string, t: string)
    requires forall i :: 0 <= i < |d| ==> IsDigit(d[i])
    requires t == [] || !IsDigit(t[0])
    ensures LeadingDigits(d + t) == |d|
  {
    if d != [] {
      assert (d + t)[1..] == d[1..] + t;
      LeadingDigitsThen(d[1..], t);
    }
  }
}
