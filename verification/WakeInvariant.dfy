/**
 No lost wakeup: while the performer waits, there is always a thread whose progress will wake it. The
 thread either still fails the test of the scan, or is on its way from its slot store to the performer's waker.
 */
module WakeInvariant {
  import opened Common
  import opened ThreadStates
  import opened Protocol
  import opened ThreadInvariant
  import opened PerformerInvariant
  import opened ChannelInvariant

  /** The last state that the thread stored does not satisfy the scan. */
  predicate Failing(s: State, t: ThreadId) {
    && OwnsSlot(s.threads, s.slots, t)
    && Latest(s.threads[t], Mem(s, t)).busy && !Seen(s.perf.phase, Latest(s.threads[t], Mem(s, t)).epoch)
  }

  predicate BeforeNotify(pc: HookPc) {
    pc.EnterFence? || pc.LeaveFence? || pc.ParkFence? || pc.StopFence?
  }

  /** On the way to the performer's waker, and not there yet. */
  predicate InFlight(pc: HookPc) {
    BeforeNotify(pc) || (pc.Notifying? && !pc.at.ClearFlag?)
  }

  /** On the way to counting the notification. */
  predicate Uncounted(pc: HookPc) {
    BeforeNotify(pc) || (pc.Notifying? && (pc.at.LoadFlag? || pc.at.Increment?))
  }

  predicate SkipsSelf(pc: HookPc) {
    pc.ParkFence? || (pc.Notifying? && pc.skipSelf)
  }

  /** The thread will count a notification. */
  predicate WillCount(s: State, t: ThreadId) {
    t < |s.threads| && (Failing(s, t) || Uncounted(s.threads[t].pc))
  }

  /** The thread will wake the registered performer. */
  predicate WillWake(s: State, t: ThreadId) {
    t < |s.threads| && (Failing(s, t) || (InFlight(s.threads[t].pc) && !(SkipsSelf(s.threads[t].pc)
        && s.info == Some(t))))
  }

  ghost predicate SomeoneWillCount(s: State) {
    exists t | 0 <= t < |s.threads| :: WillCount(s, t)
  }

  ghost predicate SomeoneWillWake(s: State) {
    exists t | 0 <= t < |s.threads| :: WillWake(s, t)
  }

  /** Everything the registered thread stored since it polled the performer is the current epoch id. */
  predicate SelfFresh(epoch: nat, th: Thread, mem: ThreadState) {
    && (HasSeen(th.pc) ==> th.pc.seen == epoch)
    && (th.pc.Ready? || th.pc.EnterFence? || th.pc.LeaveFence? || (th.pc.Notifying? && th.pc.next.ToReady?) ==>
          Latest(th, mem).epoch == epoch)
  }

  predicate RegisteredOk(s: State) {
    s.info.Some? ==>
      && s.info.value < |s.threads|
      && (OwnsSlot(s.threads, s.slots, s.info.value) ==> SelfFresh(s.epoch, s.threads[s.info.value], Mem(s,
          s.info.value)))
  }

  predicate Checking(pc: PerfPc) {
    pc.FirstCheck? || pc.Register? || pc.UpdateInfo? || pc.SecondCheck?
  }

  ghost predicate WaitOk(s: State) {
    && (Checking(s.perf.pc) && !s.perf.registered ==> s.num > s.perf.snapshot || SomeoneWillCount(s))
    && (Checking(s.perf.pc) && s.info.Some? ==> s.num > s.perf.snapshot || SomeoneWillWake(s))
    && (s.perf.pc.Asleep? && s.info.Some? ==> SomeoneWillWake(s))
  }

  ghost predicate WakeOk(s: State) {
    RegisteredOk(s) && WaitOk(s)
  }

  /** The performer waits, and no notifier has taken its info. */
  predicate Waiting(s: State) {
    (Checking(s.perf.pc) && (!s.perf.registered || s.info.Some?)) || (s.perf.pc.Asleep? && s.info.Some?)
  }

  // ----- steps of the threads -----

  /** What a step of one thread must keep: the promises of the other threads, and its own. */
  predicate KeepsPromises(s: State, s': State) {
    && |s'.threads| == |s.threads| && s'.epoch == s.epoch
    && s'.perf == s.perf.(woken := s'.perf.woken)
    && (s'.info == s.info || s'.info.None?) && s'.num >= s.num
    && (forall t | 0 <= t < |s.threads| && WillCount(s, t) :: WillCount(s', t) || s'.num > s.perf.snapshot)
    && (s'.info.Some? ==>
          forall t | 0 <= t < |s.threads| && WillWake(s, t) :: WillWake(s', t))
  }

  lemma PromisesKeepWakeOk(s: State, s': State)
    requires SubscriberOk(s.num, s.info, s.perf) && WakeOk(s) && RegisteredOk(s')
    requires s.num <= s'.num && s'.perf == s.perf.(woken := s'.perf.woken) && (s'.info == s.info || s'.info.None?)
    requires Waiting(s) ==> KeepsPromises(s, s')
    ensures WakeOk(s')
  {
    hide WillCount, WillWake, RegisteredOk;
    if SomeoneWillCount(s) {
      var t :| 0 <= t < |s.threads| && WillCount(s, t);
      assert Waiting(s) ==> WillCount(s', t) || s'.num > s.perf.snapshot;
    }
    if SomeoneWillWake(s) {
      var t :| 0 <= t < |s.threads| && WillWake(s, t);
      assert Waiting(s) && s'.info.Some? ==> WillWake(s', t);
    }
  }

  lemma HookKeepsRegisteredOk(s: State, s': State, t: ThreadId, h: Hook, th': Thread, mem': ThreadState)
    requires CoreOk(s) && RegisteredOk(s) && DoHook(s, s', t, h, th', mem')
    ensures RegisteredOk(s')
  {
    if s.info.Some? && s.info.value != t && OwnsSlot(s'.threads, s'.slots, s.info.value) {
      assert ThreadOk(s.cfg, s.threads, s.slots, s.info.value) && ThreadOk(s.cfg, s.threads, s.slots, t);
      assert Mem(s', s.info.value) == Mem(s, s.info.value);
    } else if s.info == Some(t) {
      assert ThreadOk(s.cfg, s.threads, s.slots, t);
      HookKeepsSlot(s.cfg, h, s.epoch, s.threads[t], Mem(s, t), th', mem');
      HookKeepsSelfFresh(s.cfg, h, s.epoch, s.threads[t], Mem(s, t), th', mem');
      hide HookStep, SelfFresh, CoreOk;
    }
  }

  lemma HookKeepsSelfFresh(cfg: Config, h: Hook, epoch: nat, th: Thread, mem: ThreadState, th': Thread,
      mem': ThreadState)
    requires LocalOk(cfg, th, mem) && HookStep(h, epoch, th, mem, th', mem') && SelfFresh(epoch, th, mem)
    ensures SelfFresh(epoch, th', mem')
  {
  }

  /**
   A hook step of a failing thread leaves it failing or takes it to its notification, which does not skip
   itself unless the step parks the thread.
   */
  lemma FailingThreadNotifies(cfg: Config, phase: Phase, h: Hook, epoch: nat, th: Thread, mem: ThreadState,
      th': Thread, mem': ThreadState)
    requires LocalOk(cfg, th, mem) && HookStep(h, epoch, th, mem, th', mem')
    requires Latest(th, mem).busy && !Seen(phase, Latest(th, mem).epoch)
    ensures || (Latest(th', mem').busy && !Seen(phase, Latest(th', mem').epoch))
            || (BeforeNotify(th'.pc) && (SkipsSelf(th'.pc) ==> h.MarkParked? && th.pc.Ready?))
  {
  }

  lemma HookKeepsInFlight(cfg: Config, h: Hook, epoch: nat, th: Thread, mem: ThreadState, th': Thread,
      mem': ThreadState)
    requires LocalOk(cfg, th, mem) && HookStep(h, epoch, th, mem, th', mem')
    ensures Uncounted(th.pc) ==> Uncounted(th'.pc) && SkipsSelf(th'.pc) == SkipsSelf(th.pc)
    ensures InFlight(th.pc) ==> InFlight(th'.pc) && SkipsSelf(th'.pc) == SkipsSelf(th.pc)
  {
  }

  /** The thread that the performer is registered on is not failing when it could park. */
  lemma RegisteredThreadIsSeen(s: State, t: ThreadId)
    requires CoreOk(s) && RegisteredOk(s) && SubscriberOk(s.num, s.info, s.perf) && Waiting(s) && s.info == Some(t)
    ensures Failing(s, t) ==> !s.threads[t].pc.Ready?
  {
    assert Seen(s.perf.phase, s.epoch);
  }

  /** The hook step of a thread keeps what this thread and the others promised. */
  lemma HookKeepsPromises(s: State, s': State, t: ThreadId, h: Hook, th': Thread, mem': ThreadState)
    requires CoreOk(s) && RegisteredOk(s) && SubscriberOk(s.num, s.info, s.perf) && Waiting(s) && DoHook(s, s', t,
        h, th', mem')
    ensures KeepsPromises(s, s')
  {
    assert ThreadOk(s.cfg, s.threads, s.slots, t);
    HookKeepsSlot(s.cfg, h, s.epoch, s.threads[t], Mem(s, t), th', mem');
    HookKeepsInFlight(s.cfg, h, s.epoch, s.threads[t], Mem(s, t), th', mem');
    if Failing(s, t) {
      FailingThreadNotifies(s.cfg, s.perf.phase, h, s.epoch, s.threads[t], Mem(s, t), th', mem');
      if s.info == Some(t) { RegisteredThreadIsSeen(s, t); }
    }
    forall u | 0 <= u < |s.threads| && u != t
      ensures Failing(s', u) <==> Failing(s, u)
    {
      assert ThreadOk(s.cfg, s.threads, s.slots, u);
    }
    hide HookStep, CoreOk, SelfFresh, InFlight, Uncounted, SkipsSelf, BeforeNotify;
    assert Failing(s, t) ==> Failing(s', t) || BeforeNotify(th'.pc);
    PromisesByThread(s, s', t);
  }

  /** `KeepsPromises` from what one thread did, the others not having moved. */
  lemma PromisesByThread(s: State, s': State, t: ThreadId)
    requires |s'.threads| == |s.threads| && t < |s.threads| && s'.epoch == s.epoch
    requires s'.perf == s.perf && s'.info == s.info && s'.num == s.num
    requires forall u | 0 <= u < |s.threads| && u != t :: s'.threads[u] == s.threads[u]
    requires forall u | 0 <= u < |s.threads| && u != t :: Failing(s, u) ==> Failing(s', u)
    requires Uncounted(s.threads[t].pc) ==> Uncounted(s'.threads[t].pc)
    requires InFlight(s.threads[t].pc) ==>
               InFlight(s'.threads[t].pc) && SkipsSelf(s'.threads[t].pc) == SkipsSelf(s.threads[t].pc)
    requires Failing(s, t) ==>
               Failing(s', t) || (BeforeNotify(s'.threads[t].pc) && !(SkipsSelf(s'.threads[t].pc) && s.info == Some(t)))
    ensures KeepsPromises(s, s')
  {
    hide Failing, SkipsSelf;
  }

  lemma HookKeepsWakeOk(s: State, s': State, t: ThreadId, h: Hook, th': Thread, mem': ThreadState)
    requires CoreOk(s) && ChannelOk(s) && WakeOk(s) && DoHook(s, s', t, h, th', mem')
    ensures WakeOk(s')
  {
    HookKeepsRegisteredOk(s, s', t, h, th', mem');
    if Waiting(s) {
      HookKeepsPromises(s, s', t, h, th', mem');
    }
    hide CoreOk, HookStep, KeepsPromises, WakeOk, Waiting, RegisteredOk;
    PromisesKeepWakeOk(s, s');
  }

  // ----- allocation, release, and the notifier -----

  lemma AllocateKeepsWakeOk(s: State, s': State, t: ThreadId, i: nat)
    requires CoreOk(s) && ChannelOk(s) && WakeOk(s) && DoAllocate(s, s', t, i)
    ensures WakeOk(s')
  {
    forall u | 0 <= u < |s.threads| && u != t
      ensures Failing(s, u) <==> Failing(s', u)
      ensures OwnsSlot(s'.threads, s'.slots, u) ==> OwnsSlot(s.threads, s.slots, u) && Mem(s', u) == Mem(s, u)
    {
      assert ThreadOk(s.cfg, s.threads, s.slots, u);
    }
    hide CoreOk;
    PromisesByThread(s, s', t) by { hide RegisteredOk, WaitOk; }
    PromisesKeepWakeOk(s, s') by { hide KeepsPromises, WaitOk; }
  }

  lemma ReleaseKeepsWakeOk(s: State, s': State, t: ThreadId)
    requires CoreOk(s) && ChannelOk(s) && WakeOk(s) && DoRelease(s, s', t)
    ensures WakeOk(s')
  {
    assert ThreadOk(s.cfg, s.threads, s.slots, t);
    forall u | 0 <= u < |s.threads| && u != t
      ensures Failing(s, u) <==> Failing(s', u)
      ensures OwnsSlot(s'.threads, s'.slots, u) ==> OwnsSlot(s.threads, s.slots, u) && Mem(s', u) == Mem(s, u)
    {
      assert ThreadOk(s.cfg, s.threads, s.slots, u);
    }
    hide CoreOk;
    PromisesByThread(s, s', t) by { hide RegisteredOk, WaitOk; }
    PromisesKeepWakeOk(s, s') by { hide KeepsPromises, WaitOk; }
  }

  lemma StopFenceKeepsWakeOk(s: State, s': State, t: ThreadId)
    requires CoreOk(s) && ChannelOk(s) && WakeOk(s) && DoStopFence(s, s', t)
    ensures WakeOk(s')
  {
    forall u | 0 <= u < |s.threads|
      ensures Failing(s, u) <==> Failing(s', u)
      ensures OwnsSlot(s'.threads, s'.slots, u) ==> OwnsSlot(s.threads, s.slots, u) && Mem(s', u) == Mem(s, u)
    {
    }
    hide CoreOk;
    PromisesByThread(s, s', t) by { hide RegisteredOk, WaitOk; }
    PromisesKeepWakeOk(s, s') by { hide KeepsPromises, WaitOk; }
  }

  /** A notifier leaves its slot alone; only its own position and the channel change. */
  lemma NotifyKeepsFailing(s: State, s': State, t: ThreadId)
    requires CoreOk(s) && DoNotify(s, s', t)
    ensures |s'.threads| == |s.threads| && s'.epoch == s.epoch
    ensures forall u | 0 <= u < |s.threads| && u != t :: s'.threads[u] == s.threads[u]
    ensures forall u | 0 <= u < |s.threads| :: Failing(s, u) <==> Failing(s', u)
    ensures RegisteredOk(s) ==> RegisteredOk(s')
  {
    assert ThreadOk(s.cfg, s.threads, s.slots, t);
    NotifyMovesOneThread(s, s', t);
    assert s'.info == s.info || s'.info.None?;
    hide CoreOk, DoNotify, LocalOk;
  }

  /** What a notifier that has not given up does next, while the hint flag is up. */
  lemma NotifierProceeds(s: State, s': State, t: ThreadId)
    requires DoNotify(s, s', t) && (s.threads[t].pc.at.LoadFlag? ==> s.flag)
    ensures s'.num >= s.num && (s'.info == s.info || s'.info.None?) && s'.perf == s.perf.(woken := s'.perf.woken)
    ensures s.threads[t].pc.at.Increment? ==> s'.num == s.num + 1
    ensures Uncounted(s.threads[t].pc) ==> Uncounted(s'.threads[t].pc) || s'.num == s.num + 1
    ensures InFlight(s.threads[t].pc) && !(SkipsSelf(s.threads[t].pc) && s.info == Some(t)) && s'.info.Some? ==>
              InFlight(s'.threads[t].pc) && SkipsSelf(s'.threads[t].pc) == SkipsSelf(s.threads[t].pc)
  {
    hide InfoUnlocked;
  }

  lemma NotifyKeepsWakeOk(s: State, s': State, t: ThreadId)
    requires CoreOk(s) && ChannelOk(s) && WakeOk(s) && DoNotify(s, s', t)
    ensures WakeOk(s')
  {
    NotifyKeepsFailing(s, s', t);
    assert Waiting(s) ==> s.flag && s.perf.snapshot <= s.num;
    NotifyMovesOneThread(s, s', t);
    assert s'.num >= s.num && (s'.info == s.info || s'.info.None?);
    if Waiting(s) {
      NotifierProceeds(s, s', t);
      hide CoreOk, ChannelOk, DoNotify, Failing, InFlight, Uncounted, SkipsSelf, WakeOk;
      assert KeepsPromises(s, s');
    }
    hide CoreOk, KeepsPromises, DoNotify, Waiting, RegisteredOk, WaitOk;
    PromisesKeepWakeOk(s, s');
  }

  // ----- steps of the performer -----

  /** The slot that stops the scan belongs to a thread that will count a notification. */
  lemma StoppingSlotWillCount(s: State)
    requires CoreOk(s) && s.perf.idx < |s.slots|
    requires !SlotPasses(s.slots[s.perf.idx].value, s.perf.phase, false)
    ensures SomeoneWillCount(s)
  {
    var t := s.slots[s.perf.idx].owner;
    assert OwnsSlot(s.threads, s.slots, t) && s.threads[t].slot == s.perf.idx;
    assert ThreadOk(s.cfg, s.threads, s.slots, t);
    assert Mem(s, t).busy && !Seen(s.perf.phase, Mem(s, t).epoch);
    if s.threads[t].buf != [] && !Uncounted(s.threads[t].pc) {
      assert Latest(s.threads[t], Mem(s, t)) == Mem(s, t);
    }
    assert WillCount(s, t);
  }

  lemma ScanKeepsWakeOk(s: State, s': State)
    requires CoreOk(s) && ChannelOk(s) && WakeOk(s) && DoScan(s, s')
    ensures WakeOk(s')
  {
    assert s.info.None?;
    if s'.perf.pc.FirstCheck? {
      StoppingSlotWillCount(s);
      hide CoreOk, ChannelOk;
      assert forall t | 0 <= t < |s.threads| :: Failing(s, t) == Failing(s', t);
      var t :| 0 <= t < |s.threads| && WillCount(s, t);
      assert WillCount(s', t);
    }
  }

  /** The host polls the performer, so it is not on its way out of its own slot store. */
  lemma RegisteringHostKeepsPromises(s: State, s': State)
    requires PerformerOk(s) && Hosted(s.perf.pc) && s'.threads == s.threads && s'.slots == s.slots
    requires s'.perf.phase == s.perf.phase && (s'.info == s.info || s'.info == Some(s.perf.host))
    ensures SomeoneWillCount(s) ==> SomeoneWillCount(s')
    ensures SomeoneWillCount(s) && s'.info == Some(s.perf.host) ==> SomeoneWillWake(s')
    ensures SomeoneWillWake(s) && (s.info.Some? || s'.info == s.info) ==> SomeoneWillWake(s')
    ensures RegisteredOk(s) && s'.epoch == s.epoch ==> RegisteredOk(s')
  {
    assert Polling(s, s.perf.host);
    hide PerformerOk;
    assert forall t | 0 <= t < |s.threads| :: Failing(s, t) == Failing(s', t);
    hide Failing;
    if SomeoneWillCount(s) {
      var t :| 0 <= t < |s.threads| && WillCount(s, t);
      assert WillCount(s', t);
      assert s'.info == Some(s.perf.host) ==> WillWake(s', t);
    }
    if SomeoneWillWake(s) && (s.info.Some? || s'.info == s.info) {
      var t :| 0 <= t < |s.threads| && WillWake(s, t);
      assert WillWake(s', t);
    }
  }

  lemma PollSubscriberKeepsWakeOk(s: State, s': State)
    requires PerformerOk(s) && ChannelOk(s) && WakeOk(s) && DoPollSubscriber(s, s')
    ensures WakeOk(s')
  {
    assert s'.perf.phase == s.perf.phase && (s'.info == s.info || s'.info == Some(s.perf.host));
    assert s'.threads == s.threads && s'.slots == s.slots && s'.epoch == s.epoch && s'.num == s.num;
    RegisteringHostKeepsPromises(s, s');
    hide PerformerOk, SomeoneWillCount, SomeoneWillWake, RegisteredOk, InfoUnlocked, FlagOk, ClearingOk, ConsumedOk;
  }

  /** Steps of the performer that do not touch a registration it waits on. */
  lemma OtherPerformKeepsWakeOk(s: State, s': State)
    requires PerformerOk(s) && ChannelOk(s) && WakeOk(s)
    requires DoChooseEpoch(s, s') || DoSubscribe(s, s') || DoDropSubscriber(s, s')
    ensures WakeOk(s')
  {
    assert s'.info.Some? ==> s'.info == s.info;
    assert !Checking(s'.perf.pc) && !s'.perf.pc.Asleep?;
    assert s'.threads == s.threads && s'.slots == s.slots && s'.epoch == s.epoch;
    hide PerformerOk, ChannelOk, SomeoneWillCount, SomeoneWillWake, DoChooseEpoch, DoSubscribe, DoDropSubscriber;
  }

  lemma PerformKeepsWakeOk(s: State, s': State)
    requires CoreOk(s) && ChannelOk(s) && WakeOk(s) && DoPerform(s, s')
    ensures WakeOk(s')
  {
    assert PerformerOk(s);
    hide CoreOk, ChannelOk, WakeOk, PerformerOk, DoScan, DoPollSubscriber, DoChooseEpoch, DoSubscribe, DoDropSubscriber;
    if DoScan(s, s') {
      ScanKeepsWakeOk(s, s');
    } else if DoPollSubscriber(s, s') {
      PollSubscriberKeepsWakeOk(s, s');
    } else {
      OtherPerformKeepsWakeOk(s, s');
    }
  }

  lemma ResumeKeepsWakeOk(s: State, s': State, t: ThreadId)
    requires ChannelOk(s) && WakeOk(s) && DoResume(s, s', t)
    ensures WakeOk(s')
  {
    assert s.perf.registered;
    hide ChannelOk;
    assert forall u | 0 <= u < |s.threads| :: Failing(s, u) == Failing(s', u);
    if SomeoneWillWake(s) {
      var u :| 0 <= u < |s.threads| && WillWake(s, u);
      assert WillWake(s', u);
    }
  }

  lemma DrainPerformerKeepsWakeOk(s: State, s': State)
    requires PerformerOk(s) && ChannelOk(s) && WakeOk(s) && DoDrainPerformer(s, s')
    ensures WakeOk(s')
  {
    assert !Checking(s.perf.pc) && !s.perf.pc.Asleep?;
    if s.perf.buf[0].EpochWrite? {
      assert !s.perf.pc.DropInfo? && s.info.None?;
    }
    hide PerformerOk, ChannelOk;
  }
}
