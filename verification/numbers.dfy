/**
 * Integers as the pages write and read them in `localStorage`:
 * `Number.prototype.toString()` and the global `parseInt(s)` (no radix).
 */
module Numbers {
  import opened Common

  predicate IsDecimalDigit(c: char) {
    '0' <= c <= '9'
  }

  function DigitChar(d: nat): (c: char)
    requires d < 10
    ensures IsDecimalDigit(c) && c as int - '0' as int == d
  {
    ('0' as int + d) as char
  }

  /** Decimal digits of `n`, most significant first, with no leading zero. */
  function NatToString(n: nat): (r: string)
    ensures |r| >= 1
    ensures forall i :: 0 <= i < |r| ==> IsDecimalDigit(r[i])
    ensures r[0] == '0' ==> n == 0
  {
    if n < 10 then [DigitChar(n)] else NatToString(n / 10) + [DigitChar(n % 10)]
  }

  /** `n.toString()` for an integer-valued number. */
  function IntToString(n: int): (r: string)
    ensures |r| >= 1
    ensures n < 0 ==> r[0] == '-' && |r| >= 2
    ensures forall i :: (if n < 0 then 1 else 0) <= i < |r| ==> IsDecimalDigit(r[i])
  {
    if n < 0 then "-" + NatToString(-n) else NatToString(n)
  }

  /** The value of a digit in radix up to 36 (0-9, then a/A = 10 ...), or 36 for any other character. */
  function DigitValue(c: char): (v: nat)
    ensures v <= 36
    ensures v < 10 <==> IsDecimalDigit(c)
  {
    if '0' <= c <= '9' then c as int - '0' as int
    else if 'a' <= c <= 'z' then c as int - 'a' as int + 10
    else if 'A' <= c <= 'Z' then c as int - 'A' as int + 10
    else 36
  }

  /** Number of leading characters of `s` that are digits in `radix`. */
  function DigitRun(s: string, radix: nat): (k: nat)
    ensures k <= |s|
    ensures forall i :: 0 <= i < k ==> DigitValue(s[i]) < radix
    ensures k < |s| ==> DigitValue(s[k]) >= radix
  {
    if s == [] || DigitValue(s[0]) >= radix then 0 else 1 + DigitRun(s[1..], radix)
  }

  /** Positional value of a string of digits in `radix`. */
  function DigitsValue(s: string, radix: nat): nat {
    if s == [] then 0 else DigitsValue(s[..|s| - 1], radix) * radix + DigitValue(s[|s| - 1])
  }

  /** `s` without its leading whitespace. */
  function TrimStart(s: string): (r: string)
    ensures |r| <= |s| && r == s[|s| - |r|..]
    ensures r != [] ==> !IsJsWhitespace(r[0])
  {
    if s != [] && IsJsWhitespace(s[0]) then TrimStart(s[1..]) else s
  }

  /** The digits at the head of `u` read in `radix`; `None` when there is none. */
  function ParseRadix(u: string, radix: nat): (r: Option<nat>)
    ensures r.None? <==> u == [] || DigitValue(u[0]) >= radix
  {
    var k := DigitRun(u, radix);
    if k == 0 then None else Some(DigitsValue(u[..k], radix))
  }

  /** An unsigned number: hexadecimal after a `0x`/`0X` prefix, decimal otherwise. */
  function ParseMagnitude(u: string): Option<nat> {
    if |u| >= 2 && u[0] == '0' && (u[1] == 'x' || u[1] == 'X') then ParseRadix(u[2..], 16)
    else ParseRadix(u, 10)
  }

  /** One optional sign, then the magnitude. */
  function ParseSigned(t: string): Option<int> {
    if |t| > 0 && t[0] == '-' then
      match ParseMagnitude(t[1..])
      case None => None
      case Some(m) => Some(-(m as int))
    else if |t| > 0 && t[0] == '+' then ParseMagnitude(t[1..])
    else match ParseMagnitude(t)
      case None => None
      case Some(m) => Some(m)
  }

  /**
   * `parseInt(s)`: skip leading whitespace, take one optional sign, read a
   * hexadecimal number after a `0x`/`0X` prefix or else a decimal one, and stop
   * at the first character that is not a digit. `None` stands for NaN, the
   * result when no digit follows.
   */
  function ParseInt(s: string): (r: Option<int>)
    ensures TrimStart(s) == [] ==> r.None?
  {
    ParseSigned(TrimStart(s))
  }

  lemma {:induction false} DigitRunOfDigits(s: string)
    requires forall i :: 0 <= i < |s| ==> IsDecimalDigit(s[i])
    ensures DigitRun(s, 10) == |s|
  {
    if s != [] {
      DigitRunOfDigits(s[1..]);
    }
  }

  lemma {:induction false} NatToStringValue(n: nat)
    ensures DigitsValue(NatToString(n), 10) == n
  {
    if n >= 10 {
      var prefix := NatToString(n / 10);
      var r := prefix + [DigitChar(n % 10)];
      assert r[..|r| - 1] == prefix;
      NatToStringValue(n / 10);
    }
  }

  lemma DecimalRoundTrip(n: nat)
    ensures ParseMagnitude(NatToString(n)) == Some(n)
  {
    var digits := NatToString(n);
    DigitRunOfDigits(digits);
    NatToStringValue(n);
    assert digits[..|digits|] == digits;
  }

  /** What `toString` writes, `parseInt` reads back. */
  lemma ParseIntRoundTrip(n: int)
    ensures ParseInt(IntToString(n)) == Some(n)
  {
    var s := IntToString(n);
    assert !IsJsWhitespace(s[0]);
    assert TrimStart(s) == s;
    if n < 0 {
      assert s[1..] == NatToString(-n);
      DecimalRoundTrip(-n);
    } else {
      DecimalRoundTrip(n);
    }
  }

  /** Leading whitespace does not change what `parseInt` reads. */
  lemma ParseIntSkipsWhitespace(c: char, s: string)
    requires IsJsWhitespace(c)
    ensures ParseInt([c] + s) == ParseInt(s)
  {
    assert ([c] + s)[1..] == s;
    assert TrimStart([c] + s) == TrimStart(s);
  }

  /** A run of digits followed by a non-digit ends where the non-digit begins. */
  lemma {:induction false} DigitRunStopsAt(digits: string, rest: string)
    requires forall i :: 0 <= i < |digits| ==> IsDecimalDigit(digits[i])
    requires rest == [] || !IsDecimalDigit(rest[0])
    ensures DigitRun(digits + rest, 10) == |digits|
  {
    if digits != [] {
      assert (digits + rest)[1..] == digits[1..] + rest;
      DigitRunStopsAt(digits[1..], rest);
    } else {
      assert digits + rest == rest;
    }
  }

  /** A text that starts with a digit, and not with `0x`, is read by `parseInt` as a decimal number. */
  lemma ParseIntOfDecimal(s: string)
    requires |s| >= 1 && IsDecimalDigit(s[0])
    requires |s| >= 2 && s[0] == '0' ==> s[1] != 'x' && s[1] != 'X'
    ensures ParseRadix(s, 10).Some? && ParseInt(s) == Some(ParseRadix(s, 10).value)
  {
    assert !IsJsWhitespace(s[0]);
    assert TrimStart(s) == s;
    assert ParseMagnitude(s) == ParseRadix(s, 10);
  }

  /** `parseInt` reads a decimal digit string back from the head of a text, if no digit or `x` follows it. */
  lemma ParseIntReadsDigits(digits: string, rest: string)
    requires |digits| >= 1 && forall i :: 0 <= i < |digits| ==> IsDecimalDigit(digits[i])
    requires digits[0] == '0' ==> |digits| == 1
    requires rest == [] || (!IsDecimalDigit(rest[0]) && rest[0] != 'x' && rest[0] != 'X')
    ensures ParseInt(digits + rest) == Some(DigitsValue(digits, 10))
  {
    var s := digits + rest;
    assert s[0] == digits[0];
    if |s| >= 2 && s[0] == '0' {
      assert s[1] == rest[0];
    }
    ParseIntOfDecimal(s);
    DigitRunStopsAt(digits, rest);
    assert s[..|digits|] == digits;
  }

  /**
   * `parseInt` reads a non-negative number back from the head of a text
   * that continues with something other than a digit or an `x`.
   */
  lemma ParseIntReadsPrefix(n: nat, rest: string)
    requires rest == [] || (!IsDecimalDigit(rest[0]) && rest[0] != 'x' && rest[0] != 'X')
    ensures ParseInt(NatToString(n) + rest) == Some(n)
  {
    var digits := NatToString(n);
    if digits[0] == '0' {
      assert digits == "0";
    }
    ParseIntReadsDigits(digits, rest);
    NatToStringValue(n);
  }
}
