/** Printing and parsing of decimal and hexadecimal numbers as the standard formatter, `parse` and the
    `hex` library do it. */
module Numerals {
  import opened Base

  predicate IsDigit(c: char) {
    '0' <= c <= '9'
  }

  function Digit(d: nat): char
    requires d < 10
  {
    ('0' as int + d) as char
  }

  function Decimal(n: nat): (s: string)
    ensures s != "" && forall i :: 0 <= i < |s| ==> IsDigit(s[i])
  {
    if n < 10 then [Digit(n)] else Decimal(n / 10) + [Digit(n % 10)]
  }

  function Value(s: string): int {
    if s == "" then 0 else 10 * Value(s[..|s| - 1]) + (s[|s| - 1] as int - '0' as int)
  }

  lemma {:induction false} DecimalValue(n: nat)
    ensures Value(Decimal(n)) == n
  {
    var s := Decimal(n);
    if n < 10 {
      assert s[..0] == "";
    } else {
      DecimalValue(n / 10);
      assert s[..|s| - 1] == Decimal(n / 10);
    }
  }

  predicate StartsWithDigit(s: string) {
    s != "" && IsDigit(s[0])
  }

  /** Digits in front of a non-digit are at least as many as the digits any other reading finds. */
  lemma DigitsEnd(x: string, r: string, y: string, t: string)
    requires x + r == y + t && !StartsWithDigit(r) && forall i :: 0 <= i < |y| ==> IsDigit(y[i])
    ensures |y| <= |x|
  {
    var s := x + r;
    assert forall i :: 0 <= i < |y| ==> IsDigit((y + t)[i]);
    assert |x| < |s| ==> s[|x|] == r[0];
  }

  /** A number ends where the digits end, so it and what follows can be told apart. */
  lemma DecimalThen(a: nat, b: nat, r: string, t: string)
    requires Decimal(a) + r == Decimal(b) + t && !StartsWithDigit(r) && !StartsWithDigit(t)
    ensures a == b && r == t
  {
    var x, y := Decimal(a), Decimal(b);
    DigitsEnd(x, r, y, t);
    DigitsEnd(y, t, x, r);
    assert x == (x + r)[..|x|] && y == (y + t)[..|y|];
    assert r == (x + r)[|x|..] && t == (y + t)[|y|..];
    DecimalValue(a);
    DecimalValue(b);
  }

  predicate AllDigits(s: string) {
    s != "" && forall i :: 0 <= i < |s| ==> IsDigit(s[i])
  }

  /** `parse` of an unsigned integer below `bound`: an optional plus sign and at least one digit. */
  function ParseUnsigned(s: string, bound: nat): Option<nat> {
    var digits := if s != "" && s[0] == '+' then s[1..] else s;
    if !AllDigits(digits) then None
    else if 0 <= Value(digits) < bound then Some(Value(digits))
    else None
  }

  lemma ParseDecimal(n: nat, bound: nat)
    requires n < bound
    ensures ParseUnsigned(Decimal(n), bound) == Some(n)
  {
    DecimalValue(n);
    assert IsDigit(Decimal(n)[0]);
  }

  function HexDigit(d: nat): char
    requires d < 16
  {
    if d < 10 then ('0' as int + d) as char else ('a' as int + d - 10) as char
  }

  function HexValue(c: char): (v: Option<nat>)
    ensures v.Some? ==> v.value < 16
  {
    if '0' <= c <= '9' then Some(c as int - '0' as int)
    else if 'a' <= c <= 'f' then Some(c as int - 'a' as int + 10)
    else if 'A' <= c <= 'F' then Some(c as int - 'A' as int + 10)
    else None
  }

  function Hex(bytes: seq<u8>): (s: string)
    ensures forall i :: 0 <= i < |s| ==> s[i] != '\n' && s[i] != '\r'
  {
    if bytes == [] then "" else [HexDigit(bytes[0] / 16), HexDigit(bytes[0] % 16)] + Hex(bytes[1..])
  }

  /** Fails on an odd length or a character that is no hexadecimal digit. */
  function ParseHex(s: string): Option<seq<u8>> {
    if s == "" then Some([])
    else if |s| == 1 then None
    else
      var hi, lo, rest := HexValue(s[0]), HexValue(s[1]), ParseHex(s[2..]);
      if hi.Some? && lo.Some? && rest.Some? then Some([16 * hi.value + lo.value] + rest.value) else None
  }

  lemma {:induction false} ParseHexOfHex(bytes: seq<u8>)
    ensures ParseHex(Hex(bytes)) == Some(bytes)
  {
    if bytes != [] {
      ParseHexOfHex(bytes[1..]);
      var s := Hex(bytes);
      assert s[2..] == Hex(bytes[1..]);
      assert HexValue(s[0]) == Some(bytes[0] / 16) && HexValue(s[1]) == Some(bytes[0] % 16);
      assert bytes == [bytes[0]] + bytes[1..];
    }
  }

  /** Printed numbers have no leading zeros. */
  lemma {:induction false} NoLeadingZeros(n: nat)
    ensures n > 0 ==> Decimal(n)[0] != '0'
    ensures Decimal(0) == "0"
  {
    if n >= 10 {
      NoLeadingZeros(n / 10);
    }
  }

  /** What parses to a number: its digits, with any leading zeros and perhaps one plus sign in front. */
  lemma ParseUnsignedIff(s: string, bound: nat, n: nat)
    ensures ParseUnsigned(s, bound) == Some(n) <==>
              n < bound && exists d :: AllDigits(d) && Value(d) == n && (s == d || s == "+" + d)
  {
    if ParseUnsigned(s, bound) == Some(n) {
      var d := if s != "" && s[0] == '+' then s[1..] else s;
      assert AllDigits(d) && (s == d || s == "+" + d);
    }
    if d :| n < bound && AllDigits(d) && Value(d) == n && (s == d || s == "+" + d) {
      assert IsDigit(d[0]) && ("+" + d)[1..] == d;
    }
  }

  /** The digit `d`, in either case of letters. */
  predicate SameDigit(c: char, d: nat) {
    d < 16 && (c == HexDigit(d) || (d >= 10 && c == ('A' as int + d - 10) as char))
  }

  lemma DigitValue(c: char, d: nat)
    ensures HexValue(c) == Some(d) <==> SameDigit(c, d)
  {
  }

  /** Two digits for each byte. */
  predicate SpellsHex(s: string, bytes: seq<u8>) {
    && |s| == 2 * |bytes|
    && forall i :: 0 <= i < |bytes| ==> SameDigit(s[2 * i], bytes[i] / 16) && SameDigit(s[2 * i + 1], bytes[i] % 16)
  }

  lemma SpellsFirst(s: string, bytes: seq<u8>)
    requires |s| >= 2 && bytes != []
    ensures SpellsHex(s, bytes) <==>
              SameDigit(s[0], bytes[0] / 16) && SameDigit(s[1], bytes[0] % 16) && SpellsHex(s[2..], bytes[1..])
  {
    hide SameDigit;
    var t, rest := s[2..], bytes[1..];
    if SameDigit(s[0], bytes[0] / 16) && SameDigit(s[1], bytes[0] % 16) && SpellsHex(t, rest) {
      forall i | 0 <= i < |bytes|
        ensures SameDigit(s[2 * i], bytes[i] / 16) && SameDigit(s[2 * i + 1], bytes[i] % 16)
      {
        if i > 0 {
          var k := i - 1;
          assert SameDigit(t[2 * k], rest[k] / 16) && SameDigit(t[2 * k + 1], rest[k] % 16);
        }
      }
    }
    if SpellsHex(s, bytes) {
      assert SameDigit(s[2 * 0], bytes[0] / 16);
      forall k | 0 <= k < |rest| ensures SameDigit(t[2 * k], rest[k] / 16) && SameDigit(t[2 * k + 1], rest[k] % 16) {
        var i := k + 1;
        assert SameDigit(s[2 * i], bytes[i] / 16) && SameDigit(s[2 * i + 1], bytes[i] % 16);
      }
    }
  }

  /** Hexadecimal text parses exactly if it spells some bytes, and to those. */
  lemma {:induction false} ParseHexIff(s: string, bytes: seq<u8>)
    ensures ParseHex(s) == Some(bytes) <==> SpellsHex(s, bytes)
  {
    hide SpellsHex, SameDigit, HexValue;
    SpellsSize(s, bytes);
    if |s| >= 2 && bytes != [] {
      var rest := bytes[1..];
      ParseHexIff(s[2..], rest);
      SpellsFirst(s, bytes);
      DigitValue(s[0], bytes[0] / 16);
      DigitValue(s[1], bytes[0] % 16);
      assert bytes == [bytes[0]] + rest;
    }
  }

  lemma SpellsSize(s: string, bytes: seq<u8>)
    ensures SpellsHex(s, bytes) ==> |s| == 2 * |bytes|
    ensures s == "" && bytes == [] ==> SpellsHex(s, bytes)
  {
  }

  lemma HexExample()
    ensures Hex([0x0A, 0xF9]) == "0af9"
  {
    assert Hex([0xF9]) == "f9" by { assert [0xF9][1..] == []; }
    assert [0x0A, 0xF9][1..] == [0xF9];
  }
}
