/** The `.filecache` text of an info hash and the byte stream its 20-byte key is hashed from
    (client/src/file_handler.rs, `InfoHash::new` and `get_hashed_info_hash`). */
module FileCache {
  import opened Base
  import opened Pieces
  import opened Numerals
  import Utf8

  const NAME_KEY := "name: "
  const LENGTH_KEY := "file_length: "
  const PIECE_LENGTH_KEY := "piece_length: "
  const HEADER := "pieces:"

  function HexLines(pieces: seq<seq<u8>>): string {
    if pieces == [] then "" else Hex(pieces[0]) + ("\n" + HexLines(pieces[1..]))
  }

  /** The cache text, line by line. */
  function Print(info: InfoHash): string {
    NAME_KEY + info.name + ("\n" +
    (LENGTH_KEY + Decimal(info.fileLength) + ("\n" +
    (PIECE_LENGTH_KEY + Decimal(info.pieceLength) + ("\n" +
    (HEADER + ("\n" + HexLines(info.pieces))))))))
  }

  /** `writeln!` field by field, then one line per piece. */
  method WriteCache(info: InfoHash) returns (file: string)
    ensures file == Print(info)
  {
    file := NAME_KEY + info.name + "\n";
    file := file + (LENGTH_KEY + Decimal(info.fileLength) + "\n");
    file := file + (PIECE_LENGTH_KEY + Decimal(info.pieceLength) + "\n");
    file := file + (HEADER + "\n");
    assert file + HexLines(info.pieces) == Print(info);
    var i := 0;
    assert info.pieces[0..] == info.pieces;
    while i < |info.pieces|
      invariant i <= |info.pieces| && file + HexLines(info.pieces[i..]) == Print(info)
    {
      file := file + (Hex(info.pieces[i]) + "\n");
      assert info.pieces[i..][1..] == info.pieces[i + 1..];
      i := i + 1;
    }
  }

  /** Where the first line ends, or the text's length. */
  function LineEnd(s: string): (n: nat)
    ensures n <= |s| && (n < |s| ==> s[n] == '\n') && forall i :: 0 <= i < n ==> s[i] != '\n'
  {
    if s == "" || s[0] == '\n' then 0 else 1 + LineEnd(s[1..])
  }

  function StripCarriageReturn(s: string): string {
    if s != "" && s[|s| - 1] == '\r' then s[..|s| - 1] else s
  }

  /** `str::lines`: a line ends in a newline, or a carriage return and a newline, or at the end of the text. */
  function Lines(s: string): seq<string>
    decreases |s|
  {
    var n := LineEnd(s);
    if s == "" then []
    else if n == |s| then [s]
    else [StripCarriageReturn(s[..n])] + Lines(s[n + 1..])
  }

  function StripPrefix(s: string, prefix: string): Option<string> {
    if prefix <= s then Some(s[|prefix|..]) else None
  }

  predicate IsSpace(c: char) {
    '\t' <= c <= '\r' || c == ' ' || c as int in {0x85, 0xA0, 0x1680, 0x2028, 0x2029, 0x202F, 0x205F, 0x3000}
    || 0x2000 <= c as int <= 0x200A
  }

  function TrimEnd(s: string): string {
    if s != "" && IsSpace(s[|s| - 1]) then TrimEnd(s[..|s| - 1]) else s
  }

  function Trim(s: string): string {
    if s != "" && IsSpace(s[0]) then Trim(s[1..]) else TrimEnd(s)
  }

  function ParsePieces(lines: seq<string>): Option<seq<seq<u8>>> {
    if lines == [] then Some([])
    else
      var first, rest := ParseHex(lines[0]), ParsePieces(lines[1..]);
      if first.Some? && rest.Some? then Some([first.value] + rest.value) else None
  }

  /** Everything but a wrong header panics. */
  function ParseLines(lines: seq<string>): Outcome<InfoHash> {
    if |lines| < 1 || StripPrefix(lines[0], NAME_KEY).None? then Panic
    else if |lines| < 2 || StripPrefix(lines[1], LENGTH_KEY).None? then Panic
    else
      var fileLength := ParseUnsigned(StripPrefix(lines[1], LENGTH_KEY).value, 0x1_0000_0000_0000_0000);
      if fileLength.None? || |lines| < 3 || StripPrefix(lines[2], PIECE_LENGTH_KEY).None? then Panic
      else
        var pieceLength := ParseUnsigned(StripPrefix(lines[2], PIECE_LENGTH_KEY).value, U32_SIZE);
        if pieceLength.None? || |lines| < 4 then Panic
        else if Trim(lines[3]) != HEADER then Error
        else
          var pieces := ParsePieces(lines[4..]);
          if pieces.None? || !(fileLength.value < 0x1_0000_0000_0000_0000) || !(pieceLength.value < U32_SIZE) then Panic
          else Ok(InfoHash(StripPrefix(lines[0], NAME_KEY).value, fileLength.value, pieceLength.value, pieces.value))
  }

  function Parse(text: string): Outcome<InfoHash> {
    ParseLines(Lines(text))
  }

  /** The loading branch, with its loop over the piece lines. */
  method LoadPieces(lines: seq<string>) returns (pieces: Option<seq<seq<u8>>>)
    ensures pieces == ParsePieces(lines)
  {
    var loaded: seq<seq<u8>> := [];
    var i := 0;
    assert lines[0..] == lines;
    assert forall rest: seq<seq<u8>> :: loaded + rest == rest;
    while i < |lines|
      invariant i <= |lines|
      invariant ParsePieces(lines) ==
        match ParsePieces(lines[i..]) case None => None case Some(rest) => Some(loaded + rest)
    {
      var bytes := ParseHex(lines[i]);
      assert lines[i..][1..] == lines[i + 1..];
      if bytes.None? {
        return None;
      }
      assert forall rest: seq<seq<u8>> :: loaded + ([bytes.value] + rest) == loaded + [bytes.value] + rest;
      loaded := loaded + [bytes.value];
      i := i + 1;
    }
    assert lines[i..] == [] && loaded + [] == loaded;
    return Some(loaded);
  }

  lemma LineEndsAt(line: string, rest: string)
    requires forall i :: 0 <= i < |line| ==> line[i] != '\n'
    ensures LineEnd(line + ("\n" + rest)) == |line|
  {
    hide LineEnd;
    var s := line + ("\n" + rest);
    var n := LineEnd(s);
    assert s[|line|] == '\n';
    assert forall i :: 0 <= i < |line| ==> s[i] == line[i];
  }

  /** A line without a newline is read back, except that a final carriage return is lost. */
  lemma FirstLine(line: string, rest: string)
    requires forall i :: 0 <= i < |line| ==> line[i] != '\n'
    ensures Lines(line + ("\n" + rest)) == [StripCarriageReturn(line)] + Lines(rest)
  {
    hide LineEnd, StripCarriageReturn;
    LineEndsAt(line, rest);
    var s := line + ("\n" + rest);
    assert s[..|line|] == line && s[|line| + 1..] == rest;
    assert Lines(s) == [StripCarriageReturn(s[..|line|])] + Lines(s[|line| + 1..]);
  }

  lemma {:induction false} HexLinesRead(pieces: seq<seq<u8>>)
    ensures ParsePieces(Lines(HexLines(pieces))) == Some(pieces)
  {
    if pieces != [] {
      HexLinesRead(pieces[1..]);
      ParseHexOfHex(pieces[0]);
      FirstLine(Hex(pieces[0]), HexLines(pieces[1..]));
      assert StripCarriageReturn(Hex(pieces[0])) == Hex(pieces[0]);
      assert pieces == [pieces[0]] + pieces[1..];
      assert Lines(HexLines(pieces))[1..] == Lines(HexLines(pieces[1..]));
    }
  }

  /** Behind the name line, everything is read back. */
  lemma TailRead(info: InfoHash)
    ensures
      var tail := Lines(LENGTH_KEY + Decimal(info.fileLength) + ("\n" +
                        (PIECE_LENGTH_KEY + Decimal(info.pieceLength) + ("\n" +
                          (HEADER + ("\n" + HexLines(info.pieces)))))));
      && |tail| >= 3
      && tail[0] == LENGTH_KEY + Decimal(info.fileLength)
      && tail[1] == PIECE_LENGTH_KEY + Decimal(info.pieceLength)
      && tail[2] == HEADER
      && ParsePieces(tail[3..]) == Some(info.pieces)
  {
    hide Lines, ParsePieces, HexLines, Decimal, StripCarriageReturn;
    var hex := HexLines(info.pieces);
    HexLinesRead(info.pieces);
    KeyLine(LENGTH_KEY, info.fileLength);
    KeyLine(PIECE_LENGTH_KEY, info.pieceLength);
    FirstLine(HEADER, hex);
    FirstLine(PIECE_LENGTH_KEY + Decimal(info.pieceLength), HEADER + ("\n" + hex));
    FirstLine(LENGTH_KEY + Decimal(info.fileLength),
              PIECE_LENGTH_KEY + Decimal(info.pieceLength) + ("\n" + (HEADER + ("\n" + hex))));
    assert StripCarriageReturn(HEADER) == HEADER by { HeaderKeeps(); }
    var a, b := LENGTH_KEY + Decimal(info.fileLength), PIECE_LENGTH_KEY + Decimal(info.pieceLength);
    assert [a] + ([b] + ([HEADER] + Lines(hex))) == [a, b, HEADER] + Lines(hex);
  }

  lemma HeaderKeeps()
    ensures StripCarriageReturn(HEADER) == HEADER
  {
  }

  lemma KeyLine(key: string, n: nat)
    requires forall i :: 0 <= i < |key| ==> key[i] != '\n'
    ensures forall i :: 0 <= i < |key + Decimal(n)| ==> (key + Decimal(n))[i] != '\n'
    ensures StripCarriageReturn(key + Decimal(n)) == key + Decimal(n)
  {
    var s := key + Decimal(n);
    assert s[|s| - 1] == Decimal(n)[|Decimal(n)| - 1];
    assert forall i :: |key| <= i < |s| ==> s[i] == Decimal(n)[i - |key|];
  }

  /** However many lines a name has, the text starts with its first line. */
  lemma NameSplits(info: InfoHash) returns (rest: string)
    ensures Print(info) == NAME_KEY + info.name[..LineEnd(info.name)] + ("\n" + rest)
  {
    hide Decimal, HexLines, LineEnd;
    var n := LineEnd(info.name);
    var tail := LENGTH_KEY + Decimal(info.fileLength) + ("\n" +
                (PIECE_LENGTH_KEY + Decimal(info.pieceLength) + ("\n" + (HEADER + ("\n" + HexLines(info.pieces))))));
    assert Print(info) == NAME_KEY + info.name + ("\n" + tail);
    if n == |info.name| {
      assert info.name[..n] == info.name;
      rest := tail;
    } else {
      rest := info.name[n + 1..] + ("\n" + tail);
      assert info.name == info.name[..n] + ("\n" + info.name[n + 1..]);
    }
  }

  lemma NameOf(text: string)
    ensures Parse(text).Ok? ==>
      |Lines(text)| > 0 && StripPrefix(Lines(text)[0], NAME_KEY) == Some(Parse(text).value.name)
  {
    hide Lines, ParsePieces, ParseUnsigned, Trim;
  }

  lemma KeyedCarriageReturn(key: string, value: string)
    requires key != "" && key[|key| - 1] != '\r'
    ensures StripCarriageReturn(key + value) == key + StripCarriageReturn(value)
  {
  }

  /** The name that comes back is the first line of the name that was written. */
  lemma NameRead(info: InfoHash)
    ensures Parse(Print(info)).Ok? ==>
      Parse(Print(info)).value.name == StripCarriageReturn(info.name[..LineEnd(info.name)])
  {
    hide Parse, Print, Lines, LineEnd, StripCarriageReturn;
    var first := info.name[..LineEnd(info.name)];
    var rest := NameSplits(info);
    assert NAME_KEY[|NAME_KEY| - 1] == ' ';
    KeyedCarriageReturn(NAME_KEY, first);
    var line := NAME_KEY + first;
    assert forall i :: |NAME_KEY| <= i < |line| ==> line[i] == first[i - |NAME_KEY|];
    FirstLine(line, rest);
    NameOf(Print(info));
    FieldRead(NAME_KEY, StripCarriageReturn(first));
  }

  /** A file name that survives the cache. */
  predicate Cacheable(name: string) {
    '\n' !in name && (name == "" || name[|name| - 1] != '\r')
  }

  /** An info hash survives a restart through its cache file exactly when its name contains no newline and
      does not end in a carriage return. */
  lemma CacheRoundTrip(info: InfoHash)
    ensures Parse(Print(info)) == Ok(info) <==> Cacheable(info.name)
  {
    hide Parse, Print;
    if Cacheable(info.name) {
      CacheReadsBack(info);
    } else {
      NameRead(info);
    }
  }

  lemma CacheReadsBack(info: InfoHash)
    requires Cacheable(info.name)
    ensures Parse(Print(info)) == Ok(info)
  {
    hide ParsePieces, Lines, Decimal, Trim, ParseUnsigned, HexLines;
    var line := NAME_KEY + info.name;
    var tail := LENGTH_KEY + Decimal(info.fileLength) + ("\n" +
                (PIECE_LENGTH_KEY + Decimal(info.pieceLength) + ("\n" + (HEADER + ("\n" + HexLines(info.pieces))))));
    FirstLine(line, tail);
    TailRead(info);
    KeyedCarriageReturn(NAME_KEY, info.name);
    var lines := Lines(Print(info));
    assert lines == [line] + Lines(tail);
    FieldRead(NAME_KEY, info.name);
    FieldRead(LENGTH_KEY, Decimal(info.fileLength));
    FieldRead(PIECE_LENGTH_KEY, Decimal(info.pieceLength));
    ParseDecimal(info.fileLength, 0x1_0000_0000_0000_0000);
    ParseDecimal(info.pieceLength, U32_SIZE);
    HeaderTrims();
    assert lines[4..] == Lines(tail)[3..];
  }

  lemma FieldRead(key: string, value: string)
    ensures StripPrefix(key + value, key) == Some(value)
  {
  }

  lemma HeaderTrims()
    ensures Trim(HEADER) == HEADER
  {
  }

  /** What the hasher is fed: no delimiter separates the name from the piece hashes. */
  function Preimage(info: InfoHash): seq<u8> {
    BigEndian(8, info.fileLength) + BigEndian(4, info.pieceLength) + Utf8.Bytes(info.name) + Concat(info.pieces)
  }

  /** `get_hashed_info_hash` updates its hasher member by member. */
  method FeedHasher(info: InfoHash) returns (fed: seq<u8>)
    ensures fed == Preimage(info)
  {
    fed := [];
    fed := fed + BigEndian(8, info.fileLength);
    fed := fed + BigEndian(4, info.pieceLength);
    fed := fed + Utf8.Bytes(info.name);
    ghost var head := fed;
    var i := 0;
    while i < |info.pieces|
      invariant i <= |info.pieces| && fed == head + Concat(info.pieces[..i])
    {
      assert info.pieces[..i + 1][..i] == info.pieces[..i];
      fed := fed + info.pieces[i];
      i := i + 1;
    }
    assert info.pieces[..i] == info.pieces;
  }

  /** 20-byte hashes, one for every piece of the stated length. */
  predicate WellFormed(info: InfoHash) {
    && info.pieceLength > 0
    && |info.pieces| == PieceCount(info.fileLength, info.pieceLength)
    && forall i :: 0 <= i < |info.pieces| ==> |info.pieces[i]| == 20
  }

  lemma {:induction false} ConcatSize(parts: seq<seq<u8>>)
    requires forall i :: 0 <= i < |parts| ==> |parts[i]| == 20
    ensures |Concat(parts)| == 20 * |parts|
  {
    if parts != [] {
      ConcatSize(parts[..|parts| - 1]);
    }
  }

  lemma {:induction false} ConcatInjective(a: seq<seq<u8>>, b: seq<seq<u8>>)
    requires |a| == |b| && Concat(a) == Concat(b)
    requires forall i :: 0 <= i < |a| ==> |a[i]| == |b[i]| == 20
    ensures a == b
  {
    if a != [] {
      var m := |a| - 1;
      ConcatSize(a[..m]);
      ConcatSize(b[..m]);
      assert Concat(a)[..20 * m] == Concat(a[..m]) && Concat(b)[..20 * m] == Concat(b[..m]);
      assert Concat(a)[20 * m..] == a[m] && Concat(b)[20 * m..] == b[m];
      ConcatInjective(a[..m], b[..m]);
      assert a == a[..m] + [a[m]] && b == b[..m] + [b[m]];
    }
  }

  lemma PreimageParts(x: InfoHash)
    ensures
      var n := |Utf8.Bytes(x.name)|;
      && |Preimage(x)| == 12 + n + |Concat(x.pieces)|
      && Preimage(x)[12..12 + n] == Utf8.Bytes(x.name)
      && Preimage(x)[12 + n..] == Concat(x.pieces)
  {
    hide BigEndian, Utf8.Bytes, Concat;
  }

  /** Different well-formed info hashes feed different streams to the hasher. */
  lemma PreimageInjective(x: InfoHash, y: InfoHash)
    requires WellFormed(x) && WellFormed(y)
    ensures Preimage(x) == Preimage(y) <==> x == y
  {
    hide Preimage, Utf8.Bytes, Concat;
    if Preimage(x) == Preimage(y) {
      HeadInjective(x, y);
      ConcatSize(x.pieces);
      ConcatSize(y.pieces);
      PreimageParts(x);
      PreimageParts(y);
      Utf8.BytesInjective(x.name, y.name);
      ConcatInjective(x.pieces, y.pieces);
    }
  }

  lemma HeadInjective(x: InfoHash, y: InfoHash)
    requires Preimage(x) == Preimage(y)
    ensures x.fileLength == y.fileLength && x.pieceLength == y.pieceLength
  {
    PowersOf256();
    assert BigEndian(8, x.fileLength) == Preimage(x)[..8] && BigEndian(8, y.fileLength) == Preimage(y)[..8];
    assert BigEndian(4, x.pieceLength) == Preimage(x)[8..12] && BigEndian(4, y.pieceLength) == Preimage(y)[8..12];
    BigEndianDecodes(8, x.fileLength);
    BigEndianDecodes(8, y.fileLength);
    BigEndianDecodes(4, x.pieceLength);
    BigEndianDecodes(4, y.pieceLength);
  }

  /** What stands where in the hashed stream. */
  lemma PreimageLayout(info: InfoHash)
    ensures
      var p, n := Preimage(info), |Utf8.Bytes(info.name)|;
      && |p| == 12 + n + |Concat(info.pieces)|
      && p[..8] == BigEndian(8, info.fileLength) && p[8..12] == BigEndian(4, info.pieceLength)
      && p[12..12 + n] == Utf8.Bytes(info.name) && p[12 + n..] == Concat(info.pieces)
  {
    PreimageParts(info);
    hide BigEndian, Utf8.Bytes, Concat;
  }

  /** The cache text, with its keys and its line breaks. */
  lemma PrintLayout(info: InfoHash)
    ensures
      var lines := ["name: " + info.name, "file_length: " + Decimal(info.fileLength),
                    "piece_length: " + Decimal(info.pieceLength), "pieces:"];
      Print(info) == lines[0] + ("\n" + (lines[1] + ("\n" + (lines[2] + ("\n" + (lines[3] + ("\n" +
                     HexLines(info.pieces))))))))
    ensures forall i :: 0 <= i < |info.pieces| ==>
              HexLines(info.pieces[i..]) == Hex(info.pieces[i]) + ("\n" + HexLines(info.pieces[i + 1..]))
    ensures HexLines([]) == ""
  {
    hide Decimal, Hex;
    forall i | 0 <= i < |info.pieces|
      ensures HexLines(info.pieces[i..]) == Hex(info.pieces[i]) + ("\n" + HexLines(info.pieces[i + 1..]))
    {
      assert info.pieces[i..][1..] == info.pieces[i + 1..];
    }
  }

  predicate NoSpaceAtEnds(s: string) {
    s == "" || (!IsSpace(s[0]) && !IsSpace(s[|s| - 1]))
  }

  predicate AllSpace(s: string) {
    forall i :: 0 <= i < |s| ==> IsSpace(s[i])
  }

  /** Trimming takes away spaces in front and behind, and all of them. */
  lemma {:induction false} TrimSplits(s: string) returns (l: string, r: string)
    ensures s == l + Trim(s) + r && AllSpace(l) && AllSpace(r) && NoSpaceAtEnds(Trim(s))
    decreases |s|
  {
    hide IsSpace;
    if s != "" && IsSpace(s[0]) {
      l, r := TrimSplits(s[1..]);
      assert s == [s[0]] + s[1..];
      assert [s[0]] + (l + Trim(s) + r) == ([s[0]] + l) + Trim(s) + r;
      l := [s[0]] + l;
    } else {
      l := "";
      r := TrimEndSplits(s);
    }
  }

  lemma {:induction false} TrimEndSplits(s: string) returns (r: string)
    ensures s == TrimEnd(s) + r && AllSpace(r)
    ensures TrimEnd(s) != "" ==> !IsSpace(TrimEnd(s)[|TrimEnd(s)| - 1])
    ensures s != "" && !IsSpace(s[0]) ==> TrimEnd(s) != "" && TrimEnd(s)[0] == s[0]
  {
    hide IsSpace;
    if s != "" && IsSpace(s[|s| - 1]) {
      r := TrimEndSplits(s[..|s| - 1]);
      assert s == s[..|s| - 1] + [s[|s| - 1]];
      r := r + [s[|s| - 1]];
    } else {
      r := "";
    }
  }

  /** The white space the standard library trims: eight blocks of the Unicode table. */
  lemma SpacesAre(c: char)
    ensures IsSpace(c) <==> (9 <= c as int <= 13 || c as int == 0x20 || c as int == 0x85 || c as int == 0xA0
              || c as int == 0x1680 || 0x2000 <= c as int <= 0x200A || 0x2028 <= c as int <= 0x2029
              || c as int == 0x202F || c as int == 0x205F || c as int == 0x3000)
  {
  }

  /** The three keyed lines are there and their numbers parse. */
  predicate GoodFields(lines: seq<string>) {
    && |lines| >= 4
    && NAME_KEY <= lines[0] && LENGTH_KEY <= lines[1] && PIECE_LENGTH_KEY <= lines[2]
    && ParseUnsigned(lines[1][|LENGTH_KEY|..], 0x1_0000_0000_0000_0000).Some?
    && ParseUnsigned(lines[2][|PIECE_LENGTH_KEY|..], 0x1_0000_0000).Some?
  }

  /** Exactly when a cache text loads, is refused with an error, or panics, and what is loaded. */
  lemma ParseOutcome(text: string, info: InfoHash)
    ensures
      var lines := Lines(text);
      && (Parse(text).Error? <==> GoodFields(lines) && Trim(lines[3]) != "pieces:")
      && (Parse(text) == Ok(info) <==>
            && GoodFields(lines) && Trim(lines[3]) == "pieces:"
            && lines[0] == NAME_KEY + info.name
            && ParseUnsigned(lines[1][|LENGTH_KEY|..], 0x1_0000_0000_0000_0000) == Some(info.fileLength)
            && ParseUnsigned(lines[2][|PIECE_LENGTH_KEY|..], 0x1_0000_0000) == Some(info.pieceLength)
            && |info.pieces| == |lines| - 4
            && forall i :: 0 <= i < |info.pieces| ==> ParseHex(lines[4 + i]) == Some(info.pieces[i]))
  {
    hide Lines, ParseUnsigned, ParseHex, Trim, ParsePieces;
    var lines := Lines(text);
    if |lines| >= 4 {
      PiecesParse(lines[4..], info.pieces);
      assert forall i :: 0 <= i < |lines| - 4 ==> lines[4..][i] == lines[4 + i];
      NameSplit(lines[0], info.name);
    }
  }

  lemma NameSplit(line: string, name: string)
    ensures StripPrefix(line, NAME_KEY) == Some(name) <==> line == NAME_KEY + name
  {
  }

  lemma {:induction false} PiecesParse(lines: seq<string>, pieces: seq<seq<u8>>)
    ensures ParsePieces(lines) == Some(pieces) <==>
              |pieces| == |lines| && forall i :: 0 <= i < |lines| ==> ParseHex(lines[i]) == Some(pieces[i])
  {
    hide ParseHex;
    if lines != [] && pieces != [] {
      PiecesParse(lines[1..], pieces[1..]);
      assert pieces == [pieces[0]] + pieces[1..];
      assert forall i :: 1 <= i < |lines| ==> lines[i] == lines[1..][i - 1];
      assert forall i :: 1 <= i < |pieces| ==> pieces[i] == pieces[1..][i - 1];
      if |pieces| == |lines| && forall i :: 0 <= i < |lines| ==> ParseHex(lines[i]) == Some(pieces[i]) {
        forall i | 0 <= i < |lines[1..]| ensures ParseHex(lines[1..][i]) == Some(pieces[1..][i]) {
          assert ParseHex(lines[i + 1]) == Some(pieces[i + 1]);
        }
      }
    }
  }

  /** The last line needs no line break, and an empty text has no lines. */
  lemma LastLine(line: string)
    requires forall i :: 0 <= i < |line| ==> line[i] != '\n'
    ensures Lines(line) == if line == "" then [] else [line]
  {
  }
}
