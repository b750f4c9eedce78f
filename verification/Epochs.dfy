/** What holds of the epoch ids on every run: the fence pairing, the tests of the scan, the overflow, the slot words. */
module Epochs {
  import opened Common
  import opened ThreadStates
  import opened Protocol
  import opened ThreadInvariant
  import opened PerformerInvariant
  import opened Invariant

  /** What the invariant says about one thread and the performer. */
  lemma ThreadFacts(s: State, t: ThreadId)
    requires Reachable(s) && IsThread(s, t)
    ensures ValidConfig(s.cfg) && ValidEpoch(s.cfg, s.epoch) && PerformerOk(s) && ThreadOk(s.cfg, s.threads, s.slots, t)
    ensures HasSlot(s.threads[t].pc) ==>
              Tracked(s, t) && LocalOk(s.cfg, s.threads[t], Mem(s, t)) && FreshLocal(s.epoch, s.stale,
                  s.threads[t], Mem(s, t))
  {
    ReachableCoreOk(s);
    assert ThreadOk(s.cfg, s.threads, s.slots, t);
    hide Reachable, LocalOk, FreshLocal;
  }

  /** The performer is past the fence behind its epoch store, and reads the slots. */
  predicate Scanning(pc: PerfPc) {
    pc.ScanLen? || pc.ScanSlot?
  }

  /**
   The pairing of the fences. While the performer scans, a waking or starting thread is either marked busy in
   memory, so that the scan sees it, or it has yet to load an epoch id, and the load returns the new one.
   */
  lemma FencePairing(s: State, t: ThreadId)
    requires Reachable(s) && Scanning(s.perf.pc) && IsThread(s, t) && HasSlot(s.threads[t].pc)
    ensures Tracked(s, t)
    ensures Active(s.threads[t].pc) ==> Mem(s, t).busy
    ensures forall th', mem' :: HookStep(LoadAfterFence, s.epoch, s.threads[t], Mem(s, t), th', mem') ==>
              th'.pc == EnterStore(Target(s.perf.phase))
  {
    ThreadFacts(s, t);
    hide Reachable, FreshLocal;
  }

  /** No thread holds pointers from before its last fence: it is active only once its busy mark is in memory. */
  lemma ActiveThreadsAreBusyInMemory(s: State, t: ThreadId)
    requires Reachable(s) && IsThread(s, t) && Active(s.threads[t].pc)
    ensures Tracked(s, t) && Mem(s, t).busy
    ensures s.threads[t].pc.InPoll? ==> ValidEpoch(s.cfg, Mem(s, t).epoch)
  {
    ThreadFacts(s, t);
    hide Reachable, FreshLocal, PerformerOk;
  }

  /** Outside of a grace period. */
  predicate Quiescent(pc: PerfPc) {
    pc.Off? || pc.LoadEpoch? || pc.Settle? || pc.Finished?
  }

  /**
   Between grace periods no active thread has published, or is about to publish, anything but the current
   epoch id; a thread that is still waking up has published 0. This is what the `>=` test relies on, also
   right after the epoch id has started over.
   */
  lemma NoStaleEpochBetweenGracePeriods(s: State, t: ThreadId)
    requires Reachable(s) && Quiescent(s.perf.pc) && IsThread(s, t) && Active(s.threads[t].pc)
    ensures Tracked(s, t)
    ensures Mem(s, t).epoch == 0 || Mem(s, t).epoch == s.epoch
    ensures Latest(s.threads[t], Mem(s, t)).epoch == 0 || Latest(s.threads[t], Mem(s, t)).epoch == s.epoch
    ensures HasSeen(s.threads[t].pc) ==> s.threads[t].pc.seen == s.epoch
  {
    ThreadFacts(s, t);
    hide Reachable, LocalOk;
  }

  /** When a scanned slot is busy, the test of the normal path passes exactly on the new epoch id. */
  lemma BumpTestIsEquality(s: State, t: ThreadId)
    requires Reachable(s) && Scanning(s.perf.pc) && s.perf.phase.Bump?
    requires IsThread(s, t) && Active(s.threads[t].pc)
    ensures Tracked(s, t)
    ensures Seen(s.perf.phase, Mem(s, t).epoch) <==> Mem(s, t).epoch == s.epoch
  {
    ThreadFacts(s, t);
    hide Reachable, LocalOk;
  }

  /** A thread that passes the test will not publish an older epoch id any more, whatever its store buffer holds. */
  lemma PassingIsFinal(s: State, t: ThreadId)
    requires Reachable(s) && Scanning(s.perf.pc) && IsThread(s, t) && Active(s.threads[t].pc) && Tracked(s, t)
    requires Seen(s.perf.phase, Mem(s, t).epoch)
    ensures forall i | 0 <= i < |s.threads[t].buf| :: s.threads[t].buf[i].epoch == s.epoch
    ensures HasSeen(s.threads[t].pc) ==> s.threads[t].pc.seen == s.epoch
  {
    ThreadFacts(s, t);
    hide Reachable;
    var buf := s.threads[t].buf;
    if s.threads[t].pc.LeaveFence? && buf != [] {
      assert forall i | 0 <= i < |buf| - 1 :: buf[i] == buf[..|buf| - 1][i];
    }
  }

  /**
   The overflow of the epoch id. When the first scan of a reset has passed, every active thread but the one
   that polls the performer holds nothing but the reset value (or 0, mid-wake): no thread remembers an epoch id
   of the generation that ends.
   */
  lemma FirstResetScanClearsOldGeneration(s: State, t: ThreadId)
    requires Reachable(s) && s.perf.phase.ResetToMin? && s.perf.passed && (s.perf.pc.DropFlag? || s.perf.pc.DropInfo?)
    requires IsThread(s, t) && Active(s.threads[t].pc) && t != s.perf.host
    ensures s.epoch == EPOCH_ID_MIN && Tracked(s, t)
    ensures Mem(s, t).epoch in {0, EPOCH_ID_MIN} && Latest(s.threads[t], Mem(s, t)).epoch in {0, EPOCH_ID_MIN}
    ensures HasSeen(s.threads[t].pc) ==> s.threads[t].pc.seen == EPOCH_ID_MIN
  {
    ReachableCoreOk(s);
    assert ThreadOk(s.cfg, s.threads, s.slots, t);
    assert Clean(s.epoch, s.threads[t], Mem(s, t));
    hide Reachable, FreshOk;
  }

  /**
   While a reset waits for MIN+2, that value is in no slot unless its thread loaded it after it was stored: the
   epoch ids around are 0, the last two of the old generation, and MIN+2 itself, which are all different.
   */
  lemma ResetEpochsAreDistinguishable(s: State, t: ThreadId)
    requires Reachable(s) && s.perf.phase.ResetToNext? && Scanning(s.perf.pc) && IsThread(s, t)
        && Active(s.threads[t].pc)
    ensures s.epoch == EPOCH_ID_MIN + 2 && Tracked(s, t)
    ensures Mem(s, t).epoch in {0, s.cfg.epochMax, EPOCH_ID_MIN, EPOCH_ID_MIN + 2}
    ensures |{0, s.cfg.epochMax, EPOCH_ID_MIN, EPOCH_ID_MIN + 2}| == 4
  {
    ThreadFacts(s, t);
    hide Reachable, LocalOk;
  }

  // ----- the slot words -----

  /** The word in memory, and every word on its way there, is an encoding that fits the machine integer. */
  lemma SlotWordsAreValid(s: State, t: ThreadId)
    requires Reachable(s) && IsThread(s, t) && HasSlot(s.threads[t].pc)
    ensures Tracked(s, t) && ValidEpoch(s.cfg, s.epoch)
    ensures Encodable(Mem(s, t)) && Encode(Mem(s, t)) <= s.cfg.epochMax + 1
    ensures Decode(Encode(Mem(s, t))) == Some(Mem(s, t))
    ensures Encodable(Latest(s.threads[t], Mem(s, t))) && Encode(Latest(s.threads[t], Mem(s, t))) <= s.cfg.epochMax + 1
  {
    ThreadFacts(s, t);
    hide Reachable, FreshLocal, PerformerOk;
    DecodeInvertsEncode(Mem(s, t));
  }

  /** Parking masks the word without decoding it, and this never turns a live slot into a vacant one. */
  lemma ParkingKeepsSlotLive(s: State, s': State, t: ThreadId, th': Thread, mem': ThreadState)
    requires Reachable(s) && DoHook(s, s', t, MarkParked, th', mem')
    ensures Encodable(Mem(s, t)) && Encodable(mem')
    ensures Encode(mem') == ClearBusyBit(Encode(Mem(s, t))) && ClearBusyBit(Encode(Mem(s, t))) != VACANT_WORD
  {
    ThreadFacts(s, t);
    hide Reachable, FreshLocal, PerformerOk;
    MaskParksExactlyPublishedStates(Mem(s, t));
  }

  /** `on_after_task_poll` always finds its own slot live and busy, with an epoch id published before. */
  lemma AfterPollFindsBusySlot(s: State, t: ThreadId)
    requires Reachable(s) && IsThread(s, t) && s.threads[t].pc.LeaveStore?
    ensures Tracked(s, t) && Latest(s.threads[t], Mem(s, t)).busy
    ensures ValidEpoch(s.cfg, Latest(s.threads[t], Mem(s, t)).epoch) && ValidEpoch(s.cfg, s.threads[t].pc.seen)
  {
    ThreadFacts(s, t);
    hide Reachable, FreshLocal, PerformerOk;
  }
}
