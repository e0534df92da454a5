/** The UTF-8 bytes of a string, which the standard library hands out as `as_bytes` (RFC 3629, section 3). */
module Utf8 {
  import opened Base

  /** One to four bytes for a scalar value: the first byte says how many. */
  function CharBytes(c: char): (bytes: seq<u8>)
    ensures |bytes| > 0 && |bytes| == Width(bytes[0])
  {
    var n := c as int;
    if n < 0x80 then [n]
    else if n < 0x800 then [0xC0 + n / 0x40, Tail(n)]
    else if n < 0x1_0000 then [0xE0 + n / 0x1000, Tail(n / 0x40), Tail(n)]
    else [0xF0 + n / 0x4_0000, Tail(n / 0x1000), Tail(n / 0x40), Tail(n)]
  }

  /** A continuation byte carries the six low-order bits. */
  function Tail(n: nat): u8 {
    0x80 + n % 0x40
  }

  function Width(first: u8): nat {
    if first < 0x80 then 1 else if first < 0xE0 then 2 else if first < 0xF0 then 3 else 4
  }

  /** The bytes of a character say which one it is and where it ends. */
  lemma CharThen(c: char, d: char, r: seq<u8>, t: seq<u8>)
    requires CharBytes(c) + r == CharBytes(d) + t
    ensures c == d && r == t
  {
    var x, y := CharBytes(c), CharBytes(d);
    assert x[0] == (x + r)[0] && y[0] == (y + t)[0];
    assert x == (x + r)[..|x|] && y == (y + t)[..|x|];
    assert r == (x + r)[|x|..] && t == (y + t)[|x|..];
    SameBytes(c, d);
  }

  lemma SameBytes(c: char, d: char)
    requires CharBytes(c) == CharBytes(d)
    ensures c == d
  {
    var m, n := c as int, d as int;
    assert Tail(m) == Tail(n) || m < 0x80;
    SixBits(m);
    SixBits(n);
    if m >= 0x800 {
      assert Tail(m / 0x40) == Tail(n / 0x40);
      SixBits(m / 0x40);
      SixBits(n / 0x40);
    }
    if m >= 0x1_0000 {
      assert Tail(m / 0x1000) == Tail(n / 0x1000);
      SixBits(m / 0x1000);
      SixBits(n / 0x1000);
    }
  }

  lemma SixBits(n: nat)
    ensures n == n / 0x40 * 0x40 + (Tail(n) - 0x80)
    ensures n / 0x40 / 0x40 == n / 0x1000 && n / 0x1000 / 0x40 == n / 0x4_0000
  {
  }

  function Bytes(s: string): seq<u8> {
    if s == "" then [] else CharBytes(s[0]) + Bytes(s[1..])
  }

  /** A string is determined by its bytes. */
  lemma {:induction false} BytesInjective(s: string, t: string)
    requires Bytes(s) == Bytes(t)
    ensures s == t
  {
    hide CharBytes;
    if s != "" && t != "" {
      CharThen(s[0], t[0], Bytes(s[1..]), Bytes(t[1..]));
      BytesInjective(s[1..], t[1..]);
    }
  }

  /** One character of each width: e with an acute accent, the euro sign, a grinning face. */
  lemma Examples()
    ensures CharBytes('a') == [0x61] && CharBytes('\U{E9}') == [0xC3, 0xA9]
    ensures CharBytes('\U{20AC}') == [0xE2, 0x82, 0xAC] && CharBytes('\U{1F600}') == [0xF0, 0x9F, 0x98, 0x80]
  {
  }
}
