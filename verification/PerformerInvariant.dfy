/**
 What the performer of a grace period keeps: which epoch store is pending or has landed in every phase,
 and which threads the scan has already cleared of stale epoch ids.
 */
module PerformerInvariant {
  import opened Common
  import opened ThreadStates
  import opened Protocol
  import opened ThreadInvariant

  /** The epoch id that a phase replaces. */
  function Prior(cfg: Config, phase: Phase): nat {
    match phase
    case Bump(target) => if target >= 2 then target - 2 else 0
    case ResetToMin => cfg.epochMax
    case ResetToNext => EPOCH_ID_MIN
  }

  function PriorStale(cfg: Config, phase: Phase): set<nat> {
    if phase.ResetToNext? then {cfg.epochMax} else {}
  }

  predicate PhaseOk(cfg: Config, phase: Phase) {
    phase.Bump? ==> ValidEpoch(cfg, phase.target) && phase.target >= EPOCH_ID_MIN + 2
  }

  predicate BeforeEpoch(s: State) {
    && PhaseOk(s.cfg, s.perf.phase)
    && s.epoch == Prior(s.cfg, s.perf.phase) && s.stale == PriorStale(s.cfg, s.perf.phase)
  }

  predicate EpochLanded(s: State) {
    && PhaseOk(s.cfg, s.perf.phase)
    && s.epoch == Target(s.perf.phase)
    && s.stale == PriorStale(s.cfg, s.perf.phase) + {Prior(s.cfg, s.perf.phase)}
  }

  predicate Offs(buf: seq<PerfWrite>) {
    forall i | 0 <= i < |buf| :: buf[i] == FlagWrite(false)
  }

  /** The pending stores of the performer once it has issued its epoch store. */
  predicate EpochIssued(s: State, buf: seq<PerfWrite>) {
    || (Offs(buf) && EpochLanded(s))
    || (buf != [] && buf[|buf| - 1] == EpochWrite(Target(s.perf.phase)) && Offs(buf[..|buf| - 1]) && BeforeEpoch(s))
  }

  predicate FlagIssued(s: State, buf: seq<PerfWrite>) {
    || (buf == [] && EpochLanded(s))
    || (buf != [] && buf[|buf| - 1] == FlagWrite(true) && EpochIssued(s, buf[..|buf| - 1]))
  }

  /** The last scan of the grace period went through. */
  predicate PassedFinal(p: Performer) {
    (p.pc.DropFlag? || p.pc.DropInfo?) && p.passed && !p.phase.ResetToMin?
  }

  predicate PerformerOk(s: State) {
    && (Hosted(s.perf.pc) ==> Polling(s, s.perf.host) && HasSlot(s.threads[s.perf.host].pc))
    && match s.perf.pc
       case SetEpoch => BeforeEpoch(s) && Offs(s.perf.buf) && !s.perf.passed
       case SetFlag => EpochIssued(s, s.perf.buf) && !s.perf.passed
       case Snapshot => FlagIssued(s, s.perf.buf) && !s.perf.passed
       case Fence => FlagIssued(s, s.perf.buf) && !s.perf.passed
       case DropFlag =>
         s.perf.buf == [] && if PassedFinal(s.perf) then s.stale == {}
             && s.epoch == Target(s.perf.phase) else EpochLanded(s)
       case DropInfo =>
         Offs(s.perf.buf) && if PassedFinal(s.perf) then s.stale == {}
             && s.epoch == Target(s.perf.phase) else EpochLanded(s)
       case Settle => Offs(s.perf.buf) && s.stale == {}
       case Off => s.perf.buf == [] && s.stale == {}
       case LoadEpoch => s.perf.buf == [] && s.stale == {}
       case Finished => s.perf.buf == [] && s.stale == {}
       case _ => s.perf.buf == [] && EpochLanded(s) && !s.perf.passed
  }

  /** The scan has been past the slot, or the slot is younger than the scan. */
  predicate Scanned(p: Performer, slot: nat) {
    slot < p.idx || p.len <= slot
  }

  predicate ResetSeen(p: Performer) {
    (p.pc.DropFlag? || p.pc.DropInfo?) && p.passed && p.phase.ResetToMin?
  }

  /** Whose stale epoch ids the scan has ruled out so far; the first scan of a reset skips its host. */
  predicate ScanOk(s: State) {
    && (s.perf.pc.ScanSlot? ==> s.perf.idx <= s.perf.len <= |s.slots|)
    && (s.perf.pc.ScanSlot? || ResetSeen(s.perf) ==>
          forall t | 0 <= t < |s.threads| && OwnsSlot(s.threads, s.slots, t) &&
                     (ResetSeen(s.perf) || Scanned(s.perf, s.threads[t].slot)) &&
                     !(s.perf.phase.ResetToMin? && t == s.perf.host) ::
            Clean(s.epoch, s.threads[t], s.slots[s.threads[t].slot].value.value))
  }

  predicate CoreOk(s: State) {
    ThreadsOk(s) && PerformerOk(s) && ScanOk(s)
  }

  /** A busy thread whose memory word passes the test of the scan has published the current epoch id for good. */
  lemma PassingThreadIsClean(cfg: Config, phase: Phase, epoch: nat, stale: set<nat>, th: Thread, mem: ThreadState)
    requires ValidConfig(cfg) && PhaseOk(cfg, phase) && LocalOk(cfg, th, mem) && FreshLocal(epoch, stale, th, mem)
    requires epoch == Target(phase) && stale == PriorStale(cfg, phase) + {Prior(cfg, phase)}
    requires SlotPasses(Some(mem), phase, false)
    ensures Clean(epoch, th, mem)
  {
    if Active(th.pc) {
      assert mem.busy;
      assert mem.epoch == epoch;
    }
  }

  // ----- steps of the threads -----

  lemma HookKeepsCoreOk(s: State, s': State, t: ThreadId, h: Hook, th': Thread, mem': ThreadState)
    requires CoreOk(s) && DoHook(s, s', t, h, th', mem')
    ensures CoreOk(s')
  {
    HookKeepsThreadsOk(s, s', t, h, th', mem');
    assert ThreadOk(s.cfg, s.threads, s.slots, t);
    HookKeepsSlot(s.cfg, h, s.epoch, s.threads[t], Mem(s, t), th', mem');
    HookKeepsFreshLocalAnyStale(s, t, h, th', mem');
    HookKeepsHost(s, s', t, h, th', mem');
    hide HookStep, LocalOk, FreshLocal, HasSlot;
    forall u | 0 <= u < |s.threads| && u != t && OwnsSlot(s'.threads, s'.slots, u)
      ensures OwnsSlot(s.threads, s.slots, u) && s'.slots[s'.threads[u].slot] == s.slots[s.threads[u].slot]
    {
      assert ThreadOk(s.cfg, s.threads, s.slots, u);
    }
  }

  lemma HookKeepsFreshLocalAnyStale(s: State, t: ThreadId, h: Hook, th': Thread, mem': ThreadState)
    requires ThreadsOk(s) && Tracked(s, t) && HookStep(h, s.epoch, s.threads[t], Mem(s, t), th', mem')
    ensures Clean(s.epoch, s.threads[t], Mem(s, t)) ==> Clean(s.epoch, th', mem')
  {
    assert ThreadOk(s.cfg, s.threads, s.slots, t);
    if Clean(s.epoch, s.threads[t], Mem(s, t)) {
      HookKeepsFreshLocal(s.cfg, h, s.epoch, {}, s.threads[t], Mem(s, t), th', mem');
    }
  }

  lemma HookKeepsHost(s: State, s': State, t: ThreadId, h: Hook, th': Thread, mem': ThreadState)
    requires PerformerOk(s) && DoHook(s, s', t, h, th', mem')
    ensures Hosted(s.perf.pc) ==> Polling(s', s.perf.host)
  {
  }

  lemma AllocateKeepsCoreOk(s: State, s': State, t: ThreadId, i: nat)
    requires CoreOk(s) && DoAllocate(s, s', t, i)
    ensures CoreOk(s')
  {
    AllocateKeepsThreadsOk(s, s', t, i);
    forall u | 0 <= u < |s.threads| && u != t && OwnsSlot(s'.threads, s'.slots, u)
      ensures OwnsSlot(s.threads, s.slots, u) && s'.slots[s'.threads[u].slot] == s.slots[s.threads[u].slot]
    {
      assert ThreadOk(s.cfg, s.threads, s.slots, u);
    }
  }

  lemma ReleaseKeepsCoreOk(s: State, s': State, t: ThreadId)
    requires CoreOk(s) && DoRelease(s, s', t)
    ensures CoreOk(s')
  {
    ReleaseKeepsThreadsOk(s, s', t);
    forall u | 0 <= u < |s.threads| && OwnsSlot(s'.threads, s'.slots, u)
      ensures OwnsSlot(s.threads, s.slots, u) && s'.slots[s'.threads[u].slot] == s.slots[s.threads[u].slot]
    {
      assert ThreadOk(s.cfg, s.threads, s.slots, u);
    }
  }

  lemma StopFenceKeepsCoreOk(s: State, s': State, t: ThreadId)
    requires CoreOk(s) && DoStopFence(s, s', t)
    ensures CoreOk(s')
  {
    MoveKeepsThreadsOk(s, s', t, s'.threads[t].pc);
  }

  /** A notifier moves only itself, apart from the channel and the wake-up of the performer. */
  lemma NotifyMovesOneThread(s: State, s': State, t: ThreadId)
    requires DoNotify(s, s', t)
    ensures s'.threads == MoveTo(s, t, s'.threads[t].pc)
    ensures s' == s.(threads := s'.threads, flag := s'.flag, num := s'.num, info := s'.info, perf := s'.perf)
    ensures s'.perf == s.perf.(woken := s'.perf.woken)
    ensures || s'.threads[t].pc == Resume(s.threads[t].pc.next)
            || (s'.threads[t].pc.Notifying? && s'.threads[t].pc.next == s.threads[t].pc.next)
  {
  }

  lemma NotifyKeepsCoreOk(s: State, s': State, t: ThreadId)
    requires CoreOk(s) && DoNotify(s, s', t)
    ensures CoreOk(s')
  {
    NotifyMovesOneThread(s, s', t);
    hide DoNotify;
    MoveKeepsThreadsOk(s, s', t, s'.threads[t].pc);
    assert ThreadOk(s.cfg, s.threads, s.slots, t);
    hide ThreadsOk, LocalOk;
  }

  // ----- steps of the performer -----

  /** Once every slot has been scanned, nobody is left with a stale epoch id, and the stale ids are forgotten. */
  lemma PassedScanForgetsStale(s: State, s': State)
    requires CoreOk(s) && s.perf.pc.ScanSlot? && s.perf.idx == s.perf.len && DoScan(s, s')
    ensures CoreOk(s')
  {
  }

  lemma ScanSlotKeepsCoreOk(s: State, s': State)
    requires CoreOk(s) && s.perf.pc.ScanSlot? && s.perf.idx < s.perf.len && DoScan(s, s')
    ensures CoreOk(s')
  {
    var p := s.perf;
    if s'.perf.pc.ScanSlot? {
      assert ThreadOk(s.cfg, s.threads, s.slots, p.host);
      forall t | 0 <= t < |s.threads| && OwnsSlot(s.threads, s.slots, t) && s.threads[t].slot == p.idx &&
                 !(p.phase.ResetToMin? && t == p.host)
        ensures Clean(s.epoch, s.threads[t], s.slots[s.threads[t].slot].value.value)
      {
        assert ThreadOk(s.cfg, s.threads, s.slots, t);
        PassingThreadIsClean(s.cfg, p.phase, s.epoch, s.stale, s.threads[t], Mem(s, t));
      }
    }
  }

  lemma ScanKeepsCoreOk(s: State, s': State)
    requires CoreOk(s) && DoScan(s, s')
    ensures CoreOk(s')
  {
    if s.perf.pc.ScanSlot? {
      if s.perf.idx == s.perf.len {
        PassedScanForgetsStale(s, s');
      } else {
        ScanSlotKeepsCoreOk(s, s');
      }
    }
  }

  lemma ChooseEpochKeepsCoreOk(s: State, s': State)
    requires CoreOk(s) && DoChooseEpoch(s, s')
    ensures CoreOk(s')
  {
    if s.perf.pc.SetEpoch? {
      assert s'.perf.buf[..|s'.perf.buf| - 1] == s.perf.buf;
    }
    hide FreshOk, SlotsOk;
  }

  lemma SubscribeKeepsCoreOk(s: State, s': State)
    requires CoreOk(s) && DoSubscribe(s, s')
    ensures CoreOk(s')
  {
    if s.perf.pc.SetFlag? {
      assert s'.perf.buf[..|s'.perf.buf| - 1] == s.perf.buf;
    }
    hide FreshOk, SlotsOk;
  }

  lemma PollSubscriberKeepsCoreOk(s: State, s': State)
    requires CoreOk(s) && DoPollSubscriber(s, s')
    ensures CoreOk(s')
  {
    hide FreshOk, SlotsOk;
  }

  lemma DropSubscriberKeepsCoreOk(s: State, s': State)
    requires CoreOk(s) && DoDropSubscriber(s, s')
    ensures CoreOk(s')
  {
    hide FreshOk, SlotsOk;
  }

  lemma PerformKeepsCoreOk(s: State, s': State)
    requires CoreOk(s) && DoPerform(s, s')
    ensures CoreOk(s')
  {
    hide CoreOk;
    if DoChooseEpoch(s, s') {
      ChooseEpochKeepsCoreOk(s, s');
    } else if DoSubscribe(s, s') {
      SubscribeKeepsCoreOk(s, s');
    } else if DoPollSubscriber(s, s') {
      PollSubscriberKeepsCoreOk(s, s');
    } else if DoDropSubscriber(s, s') {
      DropSubscriberKeepsCoreOk(s, s');
    } else {
      ScanKeepsCoreOk(s, s');
    }
  }

  lemma ResumeKeepsCoreOk(s: State, s': State, t: ThreadId)
    requires CoreOk(s) && DoResume(s, s', t)
    ensures CoreOk(s')
  {
  }

  lemma DrainPerformerKeepsCoreOk(s: State, s': State)
    requires CoreOk(s) && DoDrainPerformer(s, s')
    ensures CoreOk(s')
  {
    DrainKeepsPerformerOk(s, s');
    if s.perf.buf[0].EpochWrite? {
      forall t | 0 <= t < |s.threads| && OwnsSlot(s.threads, s.slots, t)
        ensures FreshLocal(s'.epoch, s'.stale, s.threads[t], s.slots[s.threads[t].slot].value.value)
      {
        NewEpochKeepsFreshLocal(s.epoch, s.stale, s.threads[t], s.slots[s.threads[t].slot].value.value, s'.epoch);
      }
    }
  }

  lemma DrainKeepsPerformerOk(s: State, s': State)
    requires ValidConfig(s.cfg) && PerformerOk(s) && DoDrainPerformer(s, s')
    ensures PerformerOk(s')
    ensures s.perf.buf[0].EpochWrite? ==>
              ValidEpoch(s.cfg, s'.epoch) && s'.epoch != s.epoch && s'.epoch !in s.stale && !s.perf.pc.DropInfo?
  {
    var buf := s.perf.buf;
    var rest := buf[1..];
    if rest != [] {
      assert rest[..|rest| - 1] == buf[..|buf| - 1][1..];
    }
  }
}
