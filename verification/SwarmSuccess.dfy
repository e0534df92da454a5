/** Without Cancels nothing aborts: the download always ends with the file in place. */
module SwarmSuccess {
  import opened Base
  import PartFile
  import opened Swarm
  import opened SwarmTokens
  import opened SwarmProgress
  import opened SwarmTermination
  import opened SwarmAssembly

  /** No slot has been removed, and a request about to be sent again names one of them. */
  ghost predicate Whole(cfg: Config, s: State) {
    && (!ResendClosed(s) ==> |s.slots| == cfg.conns)
    && s.numConnections == cfg.conns
    && (s.sender.Addressing? && s.sender.req.Request? ==> s.sender.req.seeder < cfg.conns)
  }

  lemma StepWhole(cfg: Config, s: State, ev: Event)
    requires Valid(cfg) && !cfg.targetExists && Inv(cfg, s) && NoCancels(s) && Whole(cfg, s)
    requires Enabled(cfg, s, ev) && CancelFree(ev)
    ensures !Aborted(Step(cfg, s, ev)) && Whole(cfg, Step(cfg, s, ev))
  {
    hide OneEach, ConnsTyped, Tokens, PartFile.Apply, PartFile.AllOnes;
    StatusLength(cfg, s);
    if OfSender(ev) {
      SenderWhole(cfg, s, ev);
    }
  }

  lemma StatusLength(cfg: Config, s: State)
    requires Inv(cfg, s)
    ensures |s.part.status| == cfg.Count()
  {
  }

  lemma SenderWhole(cfg: Config, s: State, ev: Event)
    requires Valid(cfg) && Inv(cfg, s) && Whole(cfg, s) && Enabled(cfg, s, ev) && OfSender(ev)
    ensures !Aborted(Step(cfg, s, ev)) && Whole(cfg, Step(cfg, s, ev))
  {
    hide OneEach, ConnsTyped, RepliesTyped, Tokens;
    if ResendClosed(s) {
      DoneIsEmpty(cfg, s);
      SenderIdle(cfg, s);
    }
  }

  lemma {:induction false} RunWhole(cfg: Config, s: State, evs: seq<Event>)
    requires Valid(cfg) && !cfg.targetExists && Inv(cfg, s) && NoCancels(s) && Whole(cfg, s)
    requires !Aborted(s) && IsRun(cfg, s, evs) && forall ev :: ev in evs ==> CancelFree(ev)
    ensures !Aborted(After(cfg, s, evs))
    decreases |evs|
  {
    hide Step, Enabled, Inv, Valid, Aborted, NoCancels, Whole, CancelFree;
    if evs != [] {
      StepWhole(cfg, s, evs[0]);
      StepInv(cfg, s, evs[0]);
      StepNoCancels(cfg, s, evs[0]);
      RunWhole(cfg, Step(cfg, s, evs[0]), evs[1..]);
    }
  }

  /** Without Cancels no run aborts, whatever the number of pieces. */
  lemma NeverAborts(cfg: Config, evs: seq<Event>)
    requires Valid(cfg) && !cfg.targetExists && IsRun(cfg, Initial(cfg), evs)
    requires forall ev :: ev in evs ==> CancelFree(ev)
    ensures !Aborted(After(cfg, Initial(cfg), evs))
  {
    hide Step, Enabled, Inv;
    InitialInv(cfg);
    RunWhole(cfg, Initial(cfg), evs);
  }

  /** Up to 402 pieces, any schedule without Cancels and forged replies comes to an end with the seeder's file
      in place, no matter how often corrupted pieces had to be fetched again. */
  lemma DownloadSucceeds(cfg: Config, file: seq<u8>, evs: seq<Event>)
    requires Genuine(cfg, file) && CollisionFree(cfg, file) && !cfg.targetExists && cfg.Count() <= 402
    requires IsRun(cfg, Initial(cfg), evs) && forall ev :: ev in evs ==> CancelFree(ev) && Trusted(cfg, file, ev)
    ensures
      var s := After(cfg, Initial(cfg), evs);
      WithinBound(cfg, evs) && ((exists ev :: Enabled(cfg, s, ev) && CancelFree(ev)) || s.built == Some(file))
  {
    hide Step, Enabled, Genuine, CollisionFree, Trusted, CancelFree;
    GenuineIsValid(cfg, file);
    RunLength(cfg, evs);
    NeverAborts(cfg, evs);
    ProgressWithoutCancels(cfg, evs);
    if After(cfg, Initial(cfg), evs).receiver.Finished? {
      EndToEnd(cfg, file, evs);
    }
  }
}
