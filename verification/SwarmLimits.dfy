/** Which files can be downloaded without a deadlock. */
module SwarmLimits {
  import opened Base
  import opened Pieces
  import opened Chunker
  import opened Swarm
  import opened SwarmJams
  import opened SwarmDeadlock
  import opened SwarmAssembly

  function Other(b: u8): u8 {
    if b == 0 then 1 else 0
  }

  /** Some payload is rejected for every piece: one that differs from the k-th hashed buffer in its k-th byte. */
  lemma CorruptExists(cfg: Config, file: seq<u8>) returns (bad: seq<u8>)
    requires Genuine(cfg, file) && CollisionFree(cfg, file)
    ensures Corrupt(cfg, bad)
  {
    hide HashedBuffer;
    MoreBytesThanPieces(|file|);
    forall k | 0 <= k < cfg.Count() ensures |HashedBuffer(file, cfg.PL(), k)| == cfg.PL() {
      FullPieceHashed(file, cfg.PL(), k);
    }
    bad := seq(cfg.PL(), k requires 0 <= k < cfg.PL() =>
      if k < cfg.Count() then Other(HashedBuffer(file, cfg.PL(), k)[k]) else 0);
    forall k | 0 <= k < cfg.Count() ensures cfg.digest(bad) != cfg.info.pieces[k] {
      assert bad[k] != HashedBuffer(file, cfg.PL(), k)[k];
    }
  }

  /** Over any number of connections, a download in which at most so many streams fail can always go on if and only if
      the file is small enough, or just above 64 MiB. */
  lemma NeverStuckIff(cfg: Config, file: seq<u8>, failures: nat)
    requires Genuine(cfg, file) && CollisionFree(cfg, file)
    ensures NeverStuck(cfg, failures) <==>
            var limit := if failures == 0 then 402 else 302;
            |file| <= limit * 65_536 || 67_108_864 < |file| <= limit * 262_144
  {
    hide NeverStuck, Corrupt, CollisionFree, FewPieces;
    var limit := if failures == 0 then 402 else 302;
    GenuineIsValid(cfg, file);
    var bad := CorruptExists(cfg, file);
    ProgressIff(cfg, bad, failures);
    FewPiecesIff(|file|, limit);
    FewPiecesAre(|file|, limit);
  }
}
