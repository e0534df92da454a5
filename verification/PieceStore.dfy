/** The piece store on disk (client/src/file_handler.rs): pieces read from a finished file, written into a
    sparse `.part` file with a status byte each in `.info`, and moved into place when complete. */
module PieceStore {
  import opened Base
  import opened Pieces
  import PartFile

  /** The files the store touches, by their role and the download's name. */
  datatype Path = PartPath(name: string) | InfoPath(name: string) | FilePath(name: string)

  /** The store of one download; missing files count as freshly created. */
  function Stored(files: map<Path, seq<u8>>, info: InfoHash): PartFile.Part {
    PartFile.Part(
      if PartPath(info.name) in files then files[PartPath(info.name)] else [],
      if InfoPath(info.name) in files then files[InfoPath(info.name)] else Zeros(|info.pieces|))
  }

  class Disk {
    var files: map<Path, seq<u8>>

    constructor ()
      ensures files == map[]
    {
      files := map[];
    }

    /** Makes sure the file is there and says whether it already was. */
    method GetTempFile(path: Path) returns (existed: bool)
      modifies this
      ensures existed <==> path in old(files)
      ensures files == if path in old(files) then old(files) else old(files)[path := []]
    {
      existed := path in files;
      if !existed {
        files := files[path := []];
      }
    }

    /** An existing `.info` file is read byte by byte, a missing one is created with one zero per piece. */
    method GetInfoStatus(info: InfoHash) returns (status: seq<u8>)
      modifies this
      ensures status == Stored(old(files), info).status
      ensures files == old(files)[InfoPath(info.name) := status]
    {
      var path := InfoPath(info.name);
      var existed := GetTempFile(path);
      if existed {
        status := [];
        while |status| < |files[path]|
          invariant files == old(files) && |status| <= |files[path]| && status == files[path][..|status|]
        {
          status := status + [files[path][|status|]];
        }
        assert status == files[path];
      } else {
        status := Zeros(|info.pieces|);
        assert PartFile.WriteAt([], 0, status) == status;
        files := files[path := PartFile.WriteAt(files[path], 0, status)];
      }
    }

    method IsFileComplete(info: InfoHash) returns (complete: bool)
      modifies this
      ensures complete <==> PartFile.AllOnes(Stored(old(files), info).status)
      ensures files == old(files)[InfoPath(info.name) := Stored(old(files), info).status]
    {
      var status := GetInfoStatus(info);
      complete := true;
      var i := 0;
      while i < |status|
        invariant i <= |status| && (complete <==> forall k :: 0 <= k < i ==> status[k] == 1)
      {
        complete := complete && status[i] == 1;
        i := i + 1;
      }
    }

    /** The data is written first; an index without a status byte panics after that. */
    method WritePieceToPart(info: InfoHash, piece: seq<u8>, index: u32) returns (r: Outcome<()>)
      modifies this
      ensures
        var st := Stored(old(files), info);
        if index < |st.status| then
          && r.Ok?
          && Stored(files, info) == PartFile.WritePiece(info.pieceLength, st, index, piece)
          && files == old(files)[PartPath(info.name) := Stored(files, info).data]
                                [InfoPath(info.name) := Stored(files, info).status]
        else
          && r.Panic?
          && files == old(files)
                        [PartPath(info.name) := PartFile.Apply(info.pieceLength, st, PartFile.Data(index, piece)).data]
                        [InfoPath(info.name) := st.status]
    {
      var part, infoPath := PartPath(info.name), InfoPath(info.name);
      var existed := GetTempFile(part);
      files := files[part := PartFile.WriteAt(files[part], Wrap32(index * info.pieceLength), piece)];
      var status := GetInfoStatus(info);
      if index >= |status| {
        return Panic;
      }
      existed := GetTempFile(infoPath);
      files := files[infoPath := PartFile.WriteAt(files[infoPath], index, [1])];
      return Ok(());
    }

    /** Reads one piece; a missing file is created empty and then too short, unless nothing is to be read. */
    method ReadPieceFromFile(info: InfoHash, index: u32) returns (r: Outcome<seq<u8>>)
      modifies this
      ensures r == PieceRead(info,
                             if FilePath(info.name) in old(files) then old(files)[FilePath(info.name)] else [], index)
      ensures files == if FilePath(info.name) in old(files) then old(files) else old(files)[FilePath(info.name) := []]
    {
      var path := FilePath(info.name);
      var existed := GetTempFile(path);
      var length := info.pieceLength;
      if |info.pieces| - 1 == index {
        var tail := info.fileLength - info.pieceLength * (|info.pieces| - 1);
        if tail < 0 {
          return Panic;
        }
        length := tail;
      }
      if length == 0 {
        return Ok([]);
      }
      var offset := Wrap32(info.pieceLength * index);
      if offset + length > |files[path]| {
        return Error;
      }
      return Ok(files[path][offset..offset + length]);
    }

    /** Moves a complete part file into place unless a file of that name is already there. */
    method BuildFile(info: InfoHash) returns (r: Outcome<()>)
      modifies this
      ensures
        var st := Stored(old(files), info);
        if !PartFile.AllOnes(st.status) then
          r.Error? && files == old(files)[InfoPath(info.name) := st.status]
        else if FilePath(info.name) in old(files) then
          r.Error? && files == old(files)[InfoPath(info.name) := st.status][PartPath(info.name) := st.data]
        else
          r.Ok? && files == old(files)[FilePath(info.name) := st.data] - {PartPath(info.name), InfoPath(info.name)}
    {
      var complete := IsFileComplete(info);
      if !complete {
        return Error;
      }
      var part, infoPath, target := PartPath(info.name), InfoPath(info.name), FilePath(info.name);
      var existed := GetTempFile(part);
      existed := GetTempFile(infoPath);
      if target in files {
        return Error;
      }
      files := files[target := files[part]] - {part};
      files := files - {infoPath};
      return Ok(());
    }
  }

  /** Fetch pieces from a seeder's disk in the given order, store each one, and build the file. For every order
      that covers all indices, with any repeats, a fresh store ends up with the seeder's file. */
  method Transfer(seeder: Disk, leecher: Disk, info: InfoHash, content: seq<u8>, order: seq<u32>)
    requires seeder != leecher
    requires FilePath(info.name) in seeder.files && seeder.files[FilePath(info.name)] == content
    requires Describes(info, content) && 0 < |content| <= U32_SIZE
    requires PartPath(info.name) !in leecher.files && InfoPath(info.name) !in leecher.files
    requires FilePath(info.name) !in leecher.files
    requires forall i :: 0 <= i < |order| ==> order[i] < |info.pieces|
    requires forall k: nat :: k < |info.pieces| ==> k in order
    modifies seeder, leecher
    ensures leecher.files == old(leecher.files)[FilePath(info.name) := content]
    ensures seeder.files == old(seeder.files)
  {
    ghost var n, start := |info.pieces|, leecher.files;
    var i := 0;
    while i < |order|
      invariant i <= |order| && seeder.files == old(seeder.files)
      invariant |Stored(leecher.files, info).status| == n
      invariant PartFile.Faithful(info.pieceLength, content, Stored(leecher.files, info))
      invariant forall j :: 0 <= j < i ==> Stored(leecher.files, info).status[order[j]] == 1
      invariant leecher.files - {PartPath(info.name), InfoPath(info.name)} == start
    {
      ghost var before := Stored(leecher.files, info);
      var piece := seeder.ReadPieceFromFile(info, order[i]);
      ReadIsChunk(info, content, order[i]);
      var stored := leecher.WritePieceToPart(info, piece.value, order[i]);
      StoresChunk(info, content, before, order[i]);
      i := i + 1;
    }
    Covered(info, Stored(leecher.files, info).status, order);
    PartFile.FaithfulComplete(info.pieceLength, content, Stored(leecher.files, info));
    var built := leecher.BuildFile(info);
    assert leecher.files == start[FilePath(info.name) := content];
  }

  lemma StoresChunk(info: InfoHash, content: seq<u8>, st: PartFile.Part, k: u32)
    requires Describes(info, content) && |content| <= U32_SIZE && k < |info.pieces| == |st.status|
    requires PartFile.Faithful(info.pieceLength, content, st)
    ensures
      var st' := PartFile.WritePiece(info.pieceLength, st, k, Chunk(content, info.pieceLength, k));
      && PartFile.Faithful(info.pieceLength, content, st')
      && |st'.status| == |st.status| && st'.status[k] == 1
      && forall j :: 0 <= j < |st.status| && st.status[j] == 1 ==> st'.status[j] == 1
  {
    IndexInRange(|content|, info.pieceLength, k);
    PartFile.FaithfulWrite(info.pieceLength, content, st, k);
  }

  lemma Covered(info: InfoHash, status: seq<u8>, order: seq<u32>)
    requires |status| == |info.pieces|
    requires forall i :: 0 <= i < |order| ==> order[i] < |info.pieces| && status[order[i]] == 1
    requires forall k: nat :: k < |info.pieces| ==> k in order
    ensures PartFile.AllOnes(status)
  {
    forall k: nat | k < |status| ensures status[k] == 1 {
      assert k in order;
      var i :| 0 <= i < |order| && order[i] == k;
    }
  }
}
