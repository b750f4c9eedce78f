/**
 The notification channel between the hooks and the performer: when the hint flag is up, who may hold the
 subscriber info, and that one subscription leaves nothing behind for the next one.
 */
module ChannelInvariant {
  import opened Common
  import opened ThreadStates
  import opened Protocol
  import opened ThreadInvariant
  import opened PerformerInvariant

  predicate IsClearing(pc: HookPc) { pc.Notifying? && pc.at.ClearFlag? }

  /** The subscriber has been polled, or is being polled or dropped. */
  predicate Subscribed(pc: PerfPc) {
    || pc.FirstCheck? || pc.Register? || pc.UpdateInfo? || pc.SecondCheck? || pc.Asleep? || pc.DropFlag? || pc.DropInfo?
  }

  /** Once the pending stores have landed, the hint flag is down. */
  predicate FlagOff(flag: bool, buf: seq<PerfWrite>) {
    flag ==> buf != [] && buf[0] == FlagWrite(false)
  }

  /** The hint flag, by the position of the performer. */
  ghost predicate FlagOk(threads: seq<Thread>, flag: bool, info: Option<ThreadId>, p: Performer) {
    match p.pc
    case Off => !flag
    case LoadEpoch => !flag
    case Finished => !flag
    case SetEpoch => FlagOff(flag, p.buf)
    case SetFlag => FlagOff(flag, p.buf)
    case DropInfo => FlagOff(flag, p.buf)
    case Settle => FlagOff(flag, p.buf)
    case Snapshot => p.buf == [] ==> flag
    case Fence => p.buf == [] ==> flag
    case ScanLen => flag
    case ScanSlot => flag
    case _ => if info.Some? || !p.registered then flag else InfoUnlocked(threads) ==> !flag
  }

  predicate SubscriberOk(num: nat, info: Option<ThreadId>, p: Performer) {
    && (info.Some? ==> p.registered && Subscribed(p.pc))
    && (p.pc.Fence? || p.pc.ScanLen? || p.pc.ScanSlot? ==> !p.registered && !p.consumed)
    && (p.pc.SecondCheck? || p.pc.Asleep? ==> p.registered && (info.None? ==> p.woken))
    && (p.pc.SecondCheck? || p.pc.Asleep? ==> info.None? || info == Some(p.host))
    && (p.pc.UpdateInfo? ==> p.registered)
    && (Subscribed(p.pc) || p.pc.Fence? || p.pc.ScanLen? || p.pc.ScanSlot? ==> p.snapshot <= num)
  }

  ghost predicate ConsumedOk(threads: seq<Thread>, info: Option<ThreadId>, p: Performer) {
    Subscribed(p.pc) && p.consumed ==>
      (p.pc.DropFlag? || p.pc.DropInfo?) && p.registered && info.None? && InfoUnlocked(threads)
  }

  /**
   At most one notifier is between taking the info and clearing the flag, and only during the subscription it
   woke.
   */
  ghost predicate ClearingOk(threads: seq<Thread>, info: Option<ThreadId>, p: Performer) {
    && (forall t, u | 0 <= t < |threads| && 0 <= u < |threads| && t != u ::
          IsClearing(threads[t].pc) ==> !IsClearing(threads[u].pc))
    && (!InfoUnlocked(threads) ==> info.None? && p.registered && Subscribed(p.pc))
  }

  ghost predicate ChannelOk(s: State) {
    && SubscriberOk(s.num, s.info, s.perf) && ClearingOk(s.threads, s.info, s.perf)
    && FlagOk(s.threads, s.flag, s.info, s.perf) && ConsumedOk(s.threads, s.info, s.perf)
  }

  // ----- steps of the threads -----

  /** Steps of a thread outside of its notification do not touch the channel. */
  lemma ThreadKeepsChannelOk(s: State, s': State, t: ThreadId)
    requires ChannelOk(s) && IsThread(s, t) && t < |s'.threads| && s'.threads == s.threads[t := s'.threads[t]]
    requires !IsClearing(s.threads[t].pc) && !IsClearing(s'.threads[t].pc)
    requires s'.flag == s.flag && s'.num == s.num && s'.info == s.info && s'.perf == s.perf
    ensures ChannelOk(s')
  {
    assert InfoUnlocked(s'.threads) <==> InfoUnlocked(s.threads) by {
      assert forall u | 0 <= u < |s.threads| :: IsClearing(s'.threads[u].pc) <==> IsClearing(s.threads[u].pc);
    }
    hide InfoUnlocked, IsClearing, FlagOff, SubscriberOk;
  }

  lemma NotifyKeepsChannelOk(s: State, s': State, t: ThreadId)
    requires PerformerOk(s) && ChannelOk(s) && DoNotify(s, s', t)
    ensures ChannelOk(s')
  {
    var at := s.threads[t].pc.at;
    if at.WriteInfo? && !Ignores(s, t) {
      TakeKeepsChannelOk(s, s', t);
    } else if at.ClearFlag? {
      ClearKeepsChannelOk(s, s', t);
    } else if at.Increment? {
      hide PerformerOk;
      assert IsThread(s, t) && s'.threads == s.threads[t := s'.threads[t]];
      ThreadKeepsChannelOk(s, s'.(num := s.num), t);
      hide FlagOk, ConsumedOk, ClearingOk;
    } else {
      hide PerformerOk;
      ThreadKeepsChannelOk(s, s', t);
    }
  }

  /** Taking the subscriber info wakes the performer, with the flag still up until the lock is released. */
  lemma TakeKeepsChannelOk(s: State, s': State, t: ThreadId)
    requires ChannelOk(s) && IsNotifier(s, t) && s.threads[t].pc.at.WriteInfo? && !Ignores(s, t) && DoNotify(s, s', t)
    ensures ChannelOk(s')
  {
    assert IsClearing(s'.threads[t].pc);
    assert forall u | 0 <= u < |s.threads| && u != t :: !IsClearing(s'.threads[u].pc);
    assert !InfoUnlocked(s'.threads);
  }

  lemma ClearKeepsChannelOk(s: State, s': State, t: ThreadId)
    requires PerformerOk(s) && ChannelOk(s) && IsNotifier(s, t) && s.threads[t].pc.at.ClearFlag? && DoNotify(s, s', t)
    ensures ChannelOk(s')
  {
    assert IsClearing(s.threads[t].pc) && !InfoUnlocked(s.threads);
    assert forall u | 0 <= u < |s.threads| :: !IsClearing(s'.threads[u].pc);
    assert InfoUnlocked(s'.threads);
    hide InfoUnlocked, PerformerOk;
  }

  // ----- steps of the performer -----

  lemma ChooseEpochKeepsChannelOk(s: State, s': State)
    requires PerformerOk(s) && ChannelOk(s) && DoChooseEpoch(s, s')
    ensures ChannelOk(s')
  {
    hide InfoUnlocked, EpochIssued, FlagIssued, BeforeEpoch, EpochLanded;
  }

  lemma SubscribeKeepsChannelOk(s: State, s': State)
    requires PerformerOk(s) && ChannelOk(s) && DoSubscribe(s, s')
    ensures ChannelOk(s')
  {
    hide InfoUnlocked, BeforeEpoch, EpochLanded, HasSlot;
  }

  lemma ScanKeepsChannelOk(s: State, s': State)
    requires ChannelOk(s) && DoScan(s, s')
    ensures ChannelOk(s')
  {
    hide InfoUnlocked, SlotPasses, FlagOff;
  }

  lemma PollSubscriberKeepsChannelOk(s: State, s': State)
    requires ChannelOk(s) && DoPollSubscriber(s, s')
    ensures ChannelOk(s')
  {
    hide InfoUnlocked, IsClearing, FlagOff;
  }

  lemma DropSubscriberKeepsChannelOk(s: State, s': State)
    requires PerformerOk(s) && ChannelOk(s) && DoDropSubscriber(s, s')
    ensures ChannelOk(s')
  {
    hide InfoUnlocked, IsClearing, EpochIssued, FlagIssued, BeforeEpoch, EpochLanded, HasSlot;
  }

  lemma PerformKeepsChannelOk(s: State, s': State)
    requires PerformerOk(s) && ChannelOk(s) && DoPerform(s, s')
    ensures ChannelOk(s')
  {
    hide PerformerOk, ChannelOk;
    if DoChooseEpoch(s, s') {
      ChooseEpochKeepsChannelOk(s, s');
    } else if DoSubscribe(s, s') {
      SubscribeKeepsChannelOk(s, s');
    } else if DoScan(s, s') {
      ScanKeepsChannelOk(s, s');
    } else if DoPollSubscriber(s, s') {
      PollSubscriberKeepsChannelOk(s, s');
    } else {
      DropSubscriberKeepsChannelOk(s, s');
    }
  }

  lemma ResumeKeepsChannelOk(s: State, s': State, t: ThreadId)
    requires ChannelOk(s) && DoResume(s, s', t)
    ensures ChannelOk(s')
  {
    hide InfoUnlocked, IsClearing, FlagOff;
  }

  lemma DrainPerformerKeepsChannelOk(s: State, s': State)
    requires PerformerOk(s) && ChannelOk(s) && DoDrainPerformer(s, s')
    ensures ChannelOk(s')
  {
    var buf := s.perf.buf;
    if s.perf.pc.SetFlag? && |buf| > 1 {
      assert buf[..|buf| - 1][0] == buf[0];
    }
    if (s.perf.pc.Snapshot? || s.perf.pc.Fence?) && |buf| > 1 {
      assert buf[..|buf| - 1][0] == buf[0];
    }
    hide InfoUnlocked, IsClearing, BeforeEpoch, EpochLanded, HasSlot;
  }
}
