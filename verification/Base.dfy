/** Machine integers, big-endian byte strings and the two result types every other module uses. */
module Base {

  type u8 = x: int | 0 <= x < 0x100
  type u32 = x: int | 0 <= x < 0x1_0000_0000
  type u64 = x: int | 0 <= x < 0x1_0000_0000_0000_0000

  const U32_SIZE: int := 0x1_0000_0000

  /** A 20-byte SHA-1 value. */
  type Digest = s: seq<u8> | |s| == 20 witness seq(20, _ => 0)

  datatype Option<+T> = None | Some(value: T)

  /** What a call that can fail leaves behind: a value, an error returned to the caller,
      or a panic that ends the task. */
  datatype Outcome<+T> = Ok(value: T) | Error | Panic

  /** Unsigned 32-bit arithmetic wraps around. */
  function Wrap32(x: nat): u32 {
    x % U32_SIZE
  }

  lemma Wrap32Adds(a: nat, b: nat)
    ensures Wrap32(a + Wrap32(b)) == Wrap32(a + b)
  {
    var q := b / U32_SIZE;
    var q' := (a + b % U32_SIZE) / U32_SIZE;
    assert a + b == (q + q') * U32_SIZE + (a + b % U32_SIZE) % U32_SIZE;
    QuotientUnique(a + b, q + q', (a + b % U32_SIZE) % U32_SIZE);
  }

  lemma QuotientUnique(x: int, q: int, r: int)
    requires 0 <= r < U32_SIZE && x == q * U32_SIZE + r
    ensures x % U32_SIZE == r && x / U32_SIZE == q
  {
  }

  function Min(x: int, y: int): int {
    if x <= y then x else y
  }

  function Max(x: int, y: int): int {
    if x <= y then y else x
  }

  function Zeros(n: nat): (z: seq<u8>)
    ensures |z| == n && forall i :: 0 <= i < n ==> z[i] == 0
  {
    seq(n, _ => 0)
  }

  function Pow256(width: nat): (p: nat)
    ensures p > 0
  {
    if width == 0 then 1 else 256 * Pow256(width - 1)
  }

  /** The `width` low-order bytes of `v`, most significant first. */
  function BigEndian(width: nat, v: nat): (bytes: seq<u8>)
    ensures |bytes| == width
  {
    if width == 0 then [] else BigEndian(width - 1, v / 256) + [v % 256]
  }

  function FromBigEndian(bytes: seq<u8>): nat {
    if bytes == [] then 0
    else 256 * FromBigEndian(bytes[..|bytes| - 1]) + bytes[|bytes| - 1]
  }

  lemma {:induction false} BigEndianDecodes(width: nat, v: nat)
    requires v < Pow256(width)
    ensures FromBigEndian(BigEndian(width, v)) == v
  {
    if width > 0 {
      var bytes := BigEndian(width, v);
      assert bytes[..|bytes| - 1] == BigEndian(width - 1, v / 256);
      BigEndianDecodes(width - 1, v / 256);
    }
  }

  lemma {:induction false} BigEndianEncodes(bytes: seq<u8>)
    ensures FromBigEndian(bytes) < Pow256(|bytes|)
    ensures BigEndian(|bytes|, FromBigEndian(bytes)) == bytes
  {
    if bytes != [] {
      var front := bytes[..|bytes| - 1];
      BigEndianEncodes(front);
      assert FromBigEndian(bytes) / 256 == FromBigEndian(front);
      assert bytes == front + [bytes[|bytes| - 1]];
    }
  }

  lemma PowersOf256()
    ensures Pow256(4) == U32_SIZE
    ensures Pow256(8) == 0x1_0000_0000_0000_0000
  {
    assert Pow256(2) == 0x1_0000;
    assert Pow256(4) == 256 * (256 * Pow256(2));
    assert Pow256(6) == 256 * (256 * Pow256(4));
    assert Pow256(8) == 256 * (256 * Pow256(6));
  }

  /** A 32-bit value survives its four bytes. */
  lemma BigEndian32(v: u32)
    ensures FromBigEndian(BigEndian(4, v)) == v
  {
    PowersOf256();
    BigEndianDecodes(4, v);
  }

  lemma FromBigEndian32(bytes: seq<u8>)
    requires |bytes| == 4
    ensures FromBigEndian(bytes) < U32_SIZE && BigEndian(4, FromBigEndian(bytes)) == bytes
  {
    PowersOf256();
    BigEndianEncodes(bytes);
  }

  /** Byte number `i` counts the multiples of 256 to the power of the bytes behind it. */
  lemma {:induction false} BigEndianByte(width: nat, v: nat, i: nat)
    requires i < width
    ensures BigEndian(width, v)[i] == v / Pow256(width - 1 - i) % 256
  {
    if i < width - 1 {
      BigEndianByte(width - 1, v / 256, i);
      DivTwice(v, Pow256(width - 2 - i));
    }
  }

  lemma DivTwice(v: nat, b: nat)
    requires b > 0
    ensures v / 256 / b == v / (256 * b)
  {
    var x := v / 256;
    var q, r := x / b, x % b * 256 + v % 256;
    assert x == q * b + x % b;
    assert q * (256 * b) == 256 * (q * b);
    DivUnique(v, 256 * b, q, r);
  }

  lemma DivUnique(v: nat, d: nat, q: nat, r: nat)
    requires r < d && v == q * d + r
    ensures v / d == q
  {
    var e := v / d - q;
    assert v == (v / d) * d + v % d;
    assert e * d == (v / d) * d - q * d;
    Multiples(e, d);
  }

  lemma Multiples(d: int, c: int)
    requires c >= 0
    ensures d > 0 ==> d * c >= c
    ensures d < 0 ==> d * c <= -c
  {
  }
}
