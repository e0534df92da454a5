/** Names of relay sessions (client/src/turn_fallback.rs, `peer_to_string` and `make_session_id`). */
module SessionId {
  import opened Base
  import opened Numerals

  datatype PeerId = PeerId(ipaddr: u32, port: u32, privIpaddr: u32, privPort: u32)

  /** The textual form of an IPv4 address. */
  function DottedQuad(ip: u32): string {
    Decimal(ip / 0x100_0000) + "." + Decimal(ip / 0x1_0000 % 0x100) + "." +
    Decimal(ip / 0x100 % 0x100) + "." + Decimal(ip % 0x100)
  }

  function PeerToString(p: PeerId): string {
    DottedQuad(p.ipaddr) + ":" + Decimal(p.port) + "-" + DottedQuad(p.privIpaddr) + ":" + Decimal(p.privPort)
  }

  /** Lexicographic order of the four fields. */
  predicate KeyAtMost(a: PeerId, b: PeerId) {
    a.ipaddr < b.ipaddr || (a.ipaddr == b.ipaddr && (
    a.port < b.port || (a.port == b.port && (
    a.privIpaddr < b.privIpaddr || (a.privIpaddr == b.privIpaddr &&
    a.privPort <= b.privPort)))))
  }

  function MakeSessionId(a: PeerId, b: PeerId): string {
    if KeyAtMost(a, b) then PeerToString(a) + "|" + PeerToString(b) else PeerToString(b) + "|" + PeerToString(a)
  }

  /** Four numbers separated by dots, in front of `r`. */
  function Dotted(a: nat, b: nat, c: nat, d: nat, r: string): string {
    Decimal(a) + ("." + (Decimal(b) + ("." + (Decimal(c) + ("." + (Decimal(d) + r))))))
  }

  lemma QuadIsDotted(x: u32, r: string)
    ensures DottedQuad(x) + r == Dotted(x / 0x100_0000, x / 0x1_0000 % 0x100, x / 0x100 % 0x100, x % 0x100, r)
  {
    hide Decimal;
    Regroup(Decimal(x / 0x100_0000), Decimal(x / 0x1_0000 % 0x100), Decimal(x / 0x100 % 0x100), Decimal(x % 0x100), r);
  }

  lemma Regroup(a: string, b: string, c: string, d: string, r: string)
    ensures a + "." + b + "." + c + "." + d + r == a + ("." + (b + ("." + (c + ("." + (d + r))))))
  {
  }

  /** A number in front of a separator can be cut off. */
  lemma FieldThen(a: nat, b: nat, separator: char, r: string, t: string)
    requires Decimal(a) + ([separator] + r) == Decimal(b) + ([separator] + t) && !IsDigit(separator)
    ensures a == b && r == t
  {
    DecimalThen(a, b, [separator] + r, [separator] + t);
    SeparatorThen(separator, r, t);
  }

  lemma DottedThen(a: nat, b: nat, c: nat, d: nat, r: string, a': nat, b': nat, c': nat, d': nat, t: string)
    requires Dotted(a, b, c, d, r) == Dotted(a', b', c', d', t) && !StartsWithDigit(r) && !StartsWithDigit(t)
    ensures a == a' && b == b' && c == c' && d == d' && r == t
  {
    hide Decimal;
    FieldThen(a, a', '.', Decimal(b) + ("." + (Decimal(c) + ("." + (Decimal(d) + r)))),
              Decimal(b') + ("." + (Decimal(c') + ("." + (Decimal(d') + t)))));
    FieldThen(b, b', '.', Decimal(c) + ("." + (Decimal(d) + r)), Decimal(c') + ("." + (Decimal(d') + t)));
    FieldThen(c, c', '.', Decimal(d) + r, Decimal(d') + t);
    DecimalThen(d, d', r, t);
  }

  lemma QuadThen(x: u32, y: u32, r: string, t: string)
    requires DottedQuad(x) + r == DottedQuad(y) + t && !StartsWithDigit(r) && !StartsWithDigit(t)
    ensures x == y && r == t
  {
    hide DottedQuad, Dotted;
    QuadIsDotted(x, r);
    QuadIsDotted(y, t);
    DottedThen(x / 0x100_0000, x / 0x1_0000 % 0x100, x / 0x100 % 0x100, x % 0x100, r,
               y / 0x100_0000, y / 0x1_0000 % 0x100, y / 0x100 % 0x100, y % 0x100, t);
    QuadUnique(x, y);
  }

  lemma SeparatorThen(c: char, r: string, t: string)
    requires [c] + r == [c] + t
    ensures r == t
  {
    assert r == ([c] + r)[1..] && t == ([c] + t)[1..];
  }

  lemma QuadUnique(x: u32, y: u32)
    requires x / 0x100_0000 == y / 0x100_0000 && x / 0x1_0000 % 0x100 == y / 0x1_0000 % 0x100
    requires x / 0x100 % 0x100 == y / 0x100 % 0x100 && x % 0x100 == y % 0x100
    ensures x == y
  {
    assert x / 0x1_0000 / 0x100 == x / 0x100_0000 && y / 0x1_0000 / 0x100 == y / 0x100_0000;
    assert x / 0x100 / 0x100 == x / 0x1_0000 && y / 0x100 / 0x100 == y / 0x1_0000;
  }

  /** A printed peer and what follows it can be told apart. */
  lemma PeerThen(p: PeerId, q: PeerId, r: string, t: string)
    requires PeerToString(p) + r == PeerToString(q) + t && !StartsWithDigit(r) && !StartsWithDigit(t)
    ensures p == q && r == t
  {
    hide DottedQuad, Decimal;
    var r3, t3 := Decimal(p.privPort) + r, Decimal(q.privPort) + t;
    var r2, t2 := DottedQuad(p.privIpaddr) + (":" + r3), DottedQuad(q.privIpaddr) + (":" + t3);
    var r1, t1 := Decimal(p.port) + ("-" + r2), Decimal(q.port) + ("-" + t2);
    assert PeerToString(p) + r == DottedQuad(p.ipaddr) + (":" + r1);
    assert PeerToString(q) + t == DottedQuad(q.ipaddr) + (":" + t1);
    QuadThen(p.ipaddr, q.ipaddr, ":" + r1, ":" + t1);
    SeparatorThen(':', r1, t1);
    DecimalThen(p.port, q.port, "-" + r2, "-" + t2);
    SeparatorThen('-', r2, t2);
    QuadThen(p.privIpaddr, q.privIpaddr, ":" + r3, ":" + t3);
    SeparatorThen(':', r3, t3);
    DecimalThen(p.privPort, q.privPort, r, t);
  }

  /** Both ends of a connection compute the same id, and two connections share an id only if they are
      between the same two peers. */
  lemma SessionIdCanonical(a: PeerId, b: PeerId, c: PeerId, d: PeerId)
    ensures MakeSessionId(a, b) == MakeSessionId(c, d) <==> (a == c && b == d) || (a == d && b == c)
  {
    hide PeerToString;
    if MakeSessionId(a, b) == MakeSessionId(c, d) {
      var p, q := if KeyAtMost(a, b) then (a, b) else (b, a), if KeyAtMost(c, d) then (c, d) else (d, c);
      assert PeerToString(p.0) + ("|" + PeerToString(p.1)) == PeerToString(p.0) + "|" + PeerToString(p.1);
      assert PeerToString(q.0) + ("|" + PeerToString(q.1)) == PeerToString(q.0) + "|" + PeerToString(q.1);
      PeerThen(p.0, q.0, "|" + PeerToString(p.1), "|" + PeerToString(q.1));
      SeparatorThen('|', PeerToString(p.1), PeerToString(q.1));
      assert PeerToString(p.1) + "" == PeerToString(p.1) && PeerToString(q.1) + "" == PeerToString(q.1);
      PeerThen(p.1, q.1, "", "");
    }
  }

  /** The smaller peer, by address, port, private address and private port in this order, comes first. */
  lemma SmallerFirst(a: PeerId, b: PeerId)
    ensures a.ipaddr < b.ipaddr || (a.ipaddr == b.ipaddr && a.port < b.port)
            || (a.ipaddr == b.ipaddr && a.port == b.port && a.privIpaddr < b.privIpaddr)
            || (a.ipaddr == b.ipaddr && a.port == b.port && a.privIpaddr == b.privIpaddr && a.privPort <= b.privPort)
            ==> MakeSessionId(a, b) == MakeSessionId(b, a) == PeerToString(a) + "|" + PeerToString(b)
  {
    hide PeerToString;
  }

  /** How a peer looks: 10.0.0.7 port 80, behind 192.168.1.2 port 8080. */
  lemma PeerExample()
    ensures PeerToString(PeerId(0x0A00_0007, 80, 0xC0A8_0102, 8080)) ==
            "10.0.0.7" + ":" + "80" + "-" + "192.168.1.2" + ":" + "8080"
  {
    QuadExamples();
    DecimalExamples();
    hide Decimal, DottedQuad;
  }

  lemma QuadExamples()
    ensures DottedQuad(0x0A00_0007) == "10.0.0.7" && DottedQuad(0xC0A8_0102) == "192.168.1.2"
  {
    DecimalExamples();
    hide Decimal;
  }

  lemma DecimalExamples()
    ensures Decimal(0) == "0" && Decimal(1) == "1" && Decimal(2) == "2" && Decimal(7) == "7" && Decimal(10) == "10"
    ensures Decimal(80) == "80" && Decimal(168) == "168" && Decimal(192) == "192"
    ensures Decimal(8080) == "8080"
  {
    assert Decimal(16) == "16" && Decimal(19) == "19" && Decimal(808) == "808";
  }
}
