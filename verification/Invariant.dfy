/** The invariant of the whole protocol, and that every reachable state satisfies it. */
module Invariant {
  import opened Common
  import opened ThreadStates
  import opened Protocol
  import opened ThreadInvariant
  import opened PerformerInvariant
  import opened CallInvariant
  import opened CoverInvariant
  import opened ChannelInvariant
  import opened WakeInvariant
  import opened ClientInvariant

  ghost predicate Inv(s: State) {
    CoreOk(s) && CallsOk(s) && CoverOk(s) && ChannelOk(s) && WakeOk(s) && ClientOk(s)
  }

  lemma InitEstablishesInv(s: State)
    requires Init(s)
    ensures Inv(s)
  {
    assert CoreOk(s);
    assert forall t | 0 <= t < |s.threads| :: !IsClearing(s.threads[t].pc);
    assert ChannelOk(s) && WakeOk(s) by { hide CoreOk; }
    hide CoreOk, ChannelOk, WakeOk;
    assert CallsOk(s) && CoverOk(s);
    hide CallsOk, CoverOk;
    forall b ensures !SomeCallHas(s.calls, b) {}
  }

  lemma HookKeepsInv(s: State, s': State, t: ThreadId, h: Hook, th': Thread, mem': ThreadState)
    requires Inv(s) && DoHook(s, s', t, h, th', mem')
    ensures Inv(s')
  {
    assert s'.calls == s.calls && s'.cfg == s.cfg && s'.started == s.started && s'.finished == s.finished
        && s'.perf == s.perf;
    assert !IsClearing(s.threads[t].pc) && !IsClearing(s'.threads[t].pc) by {
      assert ThreadOk(s.cfg, s.threads, s.slots, t);
    }
    assert CallsOk(s') by {
      hide CoreOk, CoverOk, ChannelOk, WakeOk, ClientOk, DoHook, LocksOk, DistinctOk, CountersOk, LeadersOk,
        PerformerLinked;
    }
    hide CoreOk, CallsOk, CoverOk, ChannelOk, WakeOk, ClientOk;
    HookKeepsCoreOk(s, s', t, h, th', mem');
    HookKeepsCoverOk(s, s', t, h, th', mem');
    ThreadKeepsChannelOk(s, s', t);
    HookKeepsWakeOk(s, s', t, h, th', mem');
    HookKeepsClientOk(s, s', t, h, th', mem');
  }

  lemma AllocateKeepsInv(s: State, s': State, t: ThreadId, i: nat)
    requires Inv(s) && DoAllocate(s, s', t, i)
    ensures Inv(s')
  {
    assert CallsOk(s') by {
      hide CoreOk, CoverOk, ChannelOk, WakeOk, ClientOk, LocksOk, DistinctOk, CountersOk, LeadersOk, PerformerLinked;
    }
    hide CoreOk, CallsOk, CoverOk, ChannelOk, WakeOk, ClientOk;
    AllocateKeepsCoreOk(s, s', t, i);
    OutsidePollKeepsCoverOk(s, s', t);
    ThreadKeepsChannelOk(s, s', t);
    AllocateKeepsWakeOk(s, s', t, i);
    OutsidePollKeepsClientOk(s, s', t);
  }

  lemma ReleaseKeepsInv(s: State, s': State, t: ThreadId)
    requires Inv(s) && DoRelease(s, s', t)
    ensures Inv(s')
  {
    assert forall i | 0 <= i < |s.slots| && s.slots[i].value.Some?
        && s.slots[i].owner != t :: s'.slots[i] == s.slots[i] by {
      assert ThreadOk(s.cfg, s.threads, s.slots, t);
      hide LocalOk;
    }
    assert CallsOk(s') by {
      hide CoreOk, CoverOk, ChannelOk, WakeOk, ClientOk, LocksOk, DistinctOk, CountersOk, LeadersOk, PerformerLinked;
    }
    hide CoreOk, CallsOk, CoverOk, ChannelOk, WakeOk, ClientOk;
    ReleaseKeepsCoreOk(s, s', t);
    OutsidePollKeepsCoverOk(s, s', t);
    ThreadKeepsChannelOk(s, s', t);
    ReleaseKeepsWakeOk(s, s', t);
    OutsidePollKeepsClientOk(s, s', t);
  }

  lemma StopFenceKeepsInv(s: State, s': State, t: ThreadId)
    requires Inv(s) && DoStopFence(s, s', t)
    ensures Inv(s')
  {
    assert CallsOk(s') by {
      hide CoreOk, CoverOk, ChannelOk, WakeOk, ClientOk, LocksOk, DistinctOk, CountersOk, LeadersOk, PerformerLinked;
    }
    hide CoreOk, CallsOk, CoverOk, ChannelOk, WakeOk, ClientOk;
    StopFenceKeepsCoreOk(s, s', t);
    OutsidePollKeepsCoverOk(s, s', t);
    ThreadKeepsChannelOk(s, s', t);
    StopFenceKeepsWakeOk(s, s', t);
    OutsidePollKeepsClientOk(s, s', t);
  }

  lemma NotifyKeepsInv(s: State, s': State, t: ThreadId)
    requires Inv(s) && DoNotify(s, s', t)
    ensures Inv(s')
  {
    NotifyMovesOneThread(s, s', t);
    assert PerformerOk(s);
    assert CallsOk(s') by {
      hide CoreOk, CoverOk, ChannelOk, WakeOk, ClientOk, DoNotify, LocksOk, DistinctOk, CountersOk, LeadersOk;
    }
    hide CoreOk, CallsOk, CoverOk, ChannelOk, WakeOk, ClientOk, PerformerOk;
    NotifyKeepsCoreOk(s, s', t);
    NotifyKeepsChannelOk(s, s', t);
    NotifyKeepsWakeOk(s, s', t);
    hide DoNotify;
    OutsidePollKeepsCoverOk(s, s', t);
    OutsidePollKeepsClientOk(s, s', t);
  }

  // ----- the performer -----

  lemma ChooseEpochStaysOn(s: State, s': State)
    requires DoChooseEpoch(s, s')
    ensures !s.perf.pc.Off? && !s'.perf.pc.Off?
  {
    hide SlotPasses, InfoUnlocked, HostDrained, Target;
  }

  lemma SubscribeStaysOn(s: State, s': State)
    requires DoSubscribe(s, s')
    ensures !s.perf.pc.Off? && !s'.perf.pc.Off?
  {
    hide SlotPasses, InfoUnlocked, HostDrained, Target;
  }

  lemma ScanStaysOn(s: State, s': State)
    requires DoScan(s, s')
    ensures !s.perf.pc.Off? && !s'.perf.pc.Off?
  {
    hide SlotPasses, InfoUnlocked, HostDrained, Target;
  }

  lemma PollSubscriberStaysOn(s: State, s': State)
    requires DoPollSubscriber(s, s')
    ensures !s.perf.pc.Off? && !s'.perf.pc.Off?
  {
    hide SlotPasses, InfoUnlocked, HostDrained, Target;
  }

  lemma DropSubscriberStaysOn(s: State, s': State)
    requires DoDropSubscriber(s, s')
    ensures !s.perf.pc.Off? && !s'.perf.pc.Off?
  {
    hide SlotPasses, InfoUnlocked, HostDrained, Target;
  }

  lemma PerformStaysOn(s: State, s': State)
    requires DoPerform(s, s')
    ensures !s.perf.pc.Off? && !s'.perf.pc.Off?
  {
    hide DoChooseEpoch, DoSubscribe, DoScan, DoPollSubscriber, DoDropSubscriber;
    if DoChooseEpoch(s, s') {
      ChooseEpochStaysOn(s, s');
    } else if DoSubscribe(s, s') {
      SubscribeStaysOn(s, s');
    } else if DoScan(s, s') {
      ScanStaysOn(s, s');
    } else if DoPollSubscriber(s, s') {
      PollSubscriberStaysOn(s, s');
    } else {
      DropSubscriberStaysOn(s, s');
    }
  }

  lemma PerformKeepsInv(s: State, s': State)
    requires Inv(s) && DoPerform(s, s')
    ensures Inv(s')
  {
    assert PerformerOk(s);
    PerformFrame(s, s');
    PerformStaysOn(s, s');
    assert CallsOk(s') by {
      hide CoreOk, CoverOk, ChannelOk, WakeOk, ClientOk, DoPerform, LocksOk, DistinctOk, CountersOk, LeadersOk;
    }
    hide CoreOk, CallsOk, CoverOk, ChannelOk, WakeOk, ClientOk, PerformerOk, DoPerform;
    PerformKeepsCoreOk(s, s');
    PerformKeepsCoverOk(s, s');
    PerformKeepsChannelOk(s, s');
    PerformKeepsWakeOk(s, s');
    ThreadsKeepClientOk(s, s');
  }

  lemma ResumeKeepsInv(s: State, s': State, t: ThreadId)
    requires Inv(s) && DoResume(s, s', t)
    ensures Inv(s')
  {
    assert CallsOk(s') by {
      hide CoreOk, CoverOk, ChannelOk, WakeOk, ClientOk, LocksOk, DistinctOk, CountersOk, LeadersOk;
    }
    hide CoreOk, CallsOk, CoverOk, ChannelOk, WakeOk, ClientOk;
    ResumeKeepsCoreOk(s, s', t);
    ResumeKeepsCoverOk(s, s', t);
    ResumeKeepsChannelOk(s, s', t);
    ResumeKeepsWakeOk(s, s', t);
    ThreadsKeepClientOk(s, s');
  }

  lemma DrainPerformerKeepsInv(s: State, s': State)
    requires Inv(s) && DoDrainPerformer(s, s')
    ensures Inv(s')
  {
    assert PerformerOk(s);
    assert CallsOk(s') by {
      hide CoreOk, CoverOk, ChannelOk, WakeOk, ClientOk, LocksOk, DistinctOk, CountersOk, LeadersOk;
    }
    hide CoreOk, CallsOk, CoverOk, ChannelOk, WakeOk, ClientOk, PerformerOk;
    DrainPerformerKeepsCoreOk(s, s');
    DrainPerformerKeepsCoverOk(s, s');
    DrainPerformerKeepsChannelOk(s, s');
    DrainPerformerKeepsWakeOk(s, s');
    ThreadsKeepClientOk(s, s');
  }

  // ----- the calls -----

  /** The steps of the calls leave threads, performer and channel alone, except where a grace period starts or ends. */
  lemma CallsKeepProtocolOk(s: State, s': State)
    requires CoreOk(s) && ChannelOk(s) && WakeOk(s)
    requires s'.cfg == s.cfg && s'.epoch == s.epoch && s'.stale == s.stale && s'.slots == s.slots
        && s'.threads == s.threads
    requires s'.flag == s.flag && s'.num == s.num && s'.info == s.info && s'.perf == s.perf
    ensures CoreOk(s') && ChannelOk(s') && WakeOk(s')
  {
    assert CoreOk(s') by { hide ChannelOk, WakeOk, SlotsOk, FreshOk, EpochIssued, FlagIssued; }
    assert ChannelOk(s') by { hide CoreOk, WakeOk, SubscriberOk, FlagOk, ClearingOk, ConsumedOk; }
    assert WakeOk(s') by {
      hide CoreOk, ChannelOk;
      assert forall t | 0 <= t < |s.threads| ::
        WillCount(s', t) == WillCount(s, t) && WillWake(s', t) == WillWake(s, t);
      hide WillCount, WillWake, SelfFresh;
    }
  }

  lemma BracketKeepsProtocolOk(s: State, s': State, k: CallId, t: ThreadId)
    requires CallsOk(s) && CoreOk(s) && ChannelOk(s) && WakeOk(s) && DoSerialized(s, s', k, t)
    requires s.calls[k].pc.StartPerforming? || s.calls[k].pc.Performing?
    ensures CoreOk(s') && ChannelOk(s') && WakeOk(s')
  {
    assert s.perf.pc.Off? || s.perf.pc.Finished?;
    assert s'.perf.pc.Off? || s'.perf.pc.LoadEpoch?;
    assert s' == s.(calls := s'.calls, finished := s'.finished, perf := s.perf.(pc := s'.perf.pc,
        host := s'.perf.host));
    assert Hosted(s'.perf.pc) ==> Polling(s', s'.perf.host) && HasSlot(s'.threads[s'.perf.host].pc);
    hide CallsOk, DoSerialized;
    assert CoreOk(s') by { hide ChannelOk, WakeOk, SlotsOk, FreshOk, EpochIssued, FlagIssued; }
    assert s.info.None?;
    assert ChannelOk(s') by { hide CoreOk, WakeOk; }
    assert WakeOk(s') by { hide CoreOk, ChannelOk; }
  }

  lemma BeginKeepsInv(s: State, s': State, k: CallId, olds: set<BoxId>)
    requires Inv(s) && DoBegin(s, s', k, olds)
    ensures Inv(s')
  {
    hide CoreOk, CallsOk, CoverOk, ChannelOk, WakeOk, ClientOk;
    CallsKeepProtocolOk(s, s');
    BeginKeepsCallsOk(s, s', k, olds);
    BeginKeepsCoverOk(s, s', k, olds);
    BeginKeepsClientOk(s, s', k, olds);
  }

  lemma TakeIdKeepsInv(s: State, s': State, k: CallId)
    requires Inv(s) && DoTakeId(s, s', k)
    ensures Inv(s')
  {
    hide CoreOk, CallsOk, CoverOk, ChannelOk, WakeOk, ClientOk, NoWriter, PollsInProgress;
    CallsKeepProtocolOk(s, s');
    TakeIdKeepsCallsOk(s, s', k);
    TakeIdKeepsCoverOk(s, s', k);
    TakeIdKeepsClientOk(s, s', k);
  }

  lemma LeadKeepsInv(s: State, s': State, k: CallId)
    requires Inv(s) && DoLead(s, s', k)
    ensures Inv(s')
  {
    hide CoreOk, CallsOk, CoverOk, ChannelOk, WakeOk, ClientOk, NoWriter, NoReader, NotifyFollowers;
    CallsKeepProtocolOk(s, s');
    LeadKeepsCallsOk(s, s', k);
    LeadKeepsCoverOk(s, s', k);
    LeadKeepsClientOk(s, s', k);
  }

  lemma FollowKeepsInv(s: State, s': State, k: CallId)
    requires Inv(s) && DoFollow(s, s', k)
    ensures Inv(s')
  {
    hide CoreOk, CallsOk, CoverOk, ChannelOk, WakeOk, ClientOk;
    CallsKeepProtocolOk(s, s');
    FollowKeepsCallsOk(s, s', k);
    FollowKeepsCoverOk(s, s', k);
    FollowKeepsClientOk(s, s', k);
  }

  lemma SerializedKeepsInv(s: State, s': State, k: CallId, t: ThreadId)
    requires Inv(s) && DoSerialized(s, s', k, t)
    ensures Inv(s')
  {
    hide CoreOk, CallsOk, CoverOk, ChannelOk, WakeOk, ClientOk, MutexFree;
    if s.calls[k].pc.StartPerforming? || s.calls[k].pc.Performing? {
      BracketKeepsProtocolOk(s, s', k, t);
    } else {
      CallsKeepProtocolOk(s, s');
    }
    SerializedKeepsCallsOk(s, s', k, t);
    SerializedKeepsCoverOk(s, s', k, t);
    SerializedKeepsClientOk(s, s', k, t);
  }

  lemma ReturnKeepsInv(s: State, s': State, k: CallId)
    requires Inv(s) && DoReturn(s, s', k)
    ensures Inv(s')
  {
    hide CoreOk, CallsOk, CoverOk, ChannelOk, WakeOk, ClientOk;
    CallsKeepProtocolOk(s, s');
    ReturnKeepsCallsOk(s, s', k);
    ReturnKeepsCoverOk(s, s', k);
    ReturnKeepsClientOk(s, s', k);
  }

  lemma ClientKeepsInv(s: State, s': State, a: Client)
    requires Inv(s) && DoClient(s, s', a)
    ensures Inv(s')
  {
    assert CallsOk(s') && CoverOk(s') by {
      hide CoreOk, ChannelOk, WakeOk, ClientOk, LocksOk, DistinctOk, CountersOk, LeadersOk, PerformerLinked,
          SnapOk, Ended;
      QuietCallsKeepCoverOk(s, s') by { hide Ended; }
    }
    hide CoreOk, CallsOk, CoverOk, ChannelOk, WakeOk, ClientOk;
    CallsKeepProtocolOk(s, s');
    ClientKeepsClientOk(s, s', a);
  }

  // ----- all steps, all runs -----

  lemma NextKeepsInv(s: State, s': State)
    requires Inv(s) && Next(s, s')
    ensures Inv(s')
  {
    hide Inv, DoHook, DoAllocate, DoRelease, DoStopFence, DoNotify, DoPerform, DoResume, DoDrainPerformer;
    hide DoBegin, DoTakeId, DoLead, DoFollow, DoSerialized, DoReturn, DoClient;
    var step :| NextBy(s, s', step);
    match step {
      case HookOf(t, h, th, mem) => HookKeepsInv(s, s', t, h, th, mem);
      case AllocateOf(t, i) => AllocateKeepsInv(s, s', t, i);
      case ReleaseOf(t) => ReleaseKeepsInv(s, s', t);
      case StopFenceOf(t) => StopFenceKeepsInv(s, s', t);
      case NotifyOf(t) => NotifyKeepsInv(s, s', t);
      case PerformOf => PerformKeepsInv(s, s');
      case ResumeOf(t) => ResumeKeepsInv(s, s', t);
      case DrainPerformerOf => DrainPerformerKeepsInv(s, s');
      case BeginOf(k, olds) => BeginKeepsInv(s, s', k, olds);
      case TakeIdOf(k) => TakeIdKeepsInv(s, s', k);
      case LeadOf(k) => LeadKeepsInv(s, s', k);
      case FollowOf(k) => FollowKeepsInv(s, s', k);
      case SerializedOf(k, t) => SerializedKeepsInv(s, s', k, t);
      case ReturnOf(k) => ReturnKeepsInv(s, s', k);
      case ClientOf(a) => ClientKeepsInv(s, s', a);
    }
  }

  lemma {:induction false} RunKeepsInv(run: seq<State>, i: nat)
    requires IsRun(run) && i < |run|
    ensures Inv(run[i])
  {
    hide Inv, Init, Next;
    if i == 0 {
      InitEstablishesInv(run[0]);
    } else {
      RunKeepsInv(run, i - 1);
      assert Next(run[i - 1], run[i - 1 + 1]);
      NextKeepsInv(run[i - 1], run[i]);
    }
  }

  lemma ReachableImpliesInv(s: State)
    requires Reachable(s)
    ensures Inv(s)
  {
    var run :| IsRun(run) && run[|run| - 1] == s;
    RunKeepsInv(run, |run| - 1);
  }

  lemma ReachableCoreOk(s: State)
    requires Reachable(s)
    ensures CoreOk(s)
  {
    ReachableImpliesInv(s);
    hide Reachable, CoreOk, CallsOk, CoverOk, ChannelOk, WakeOk, ClientOk;
  }

  lemma ReachableCallsOk(s: State)
    requires Reachable(s)
    ensures CallsOk(s)
  {
    ReachableImpliesInv(s);
    hide Reachable, CoreOk, CallsOk, CoverOk, ChannelOk, WakeOk, ClientOk;
  }

  lemma ReachableCoverOk(s: State)
    requires Reachable(s)
    ensures CoverOk(s)
  {
    ReachableImpliesInv(s);
    hide Reachable, CoreOk, CallsOk, CoverOk, ChannelOk, WakeOk, ClientOk;
  }

  lemma ReachableChannelOk(s: State)
    requires Reachable(s)
    ensures ChannelOk(s)
  {
    ReachableImpliesInv(s);
    hide Reachable, CoreOk, CallsOk, CoverOk, ChannelOk, WakeOk, ClientOk;
  }

  lemma ReachableWakeOk(s: State)
    requires Reachable(s)
    ensures WakeOk(s)
  {
    ReachableImpliesInv(s);
    hide Reachable, CoreOk, CallsOk, CoverOk, ChannelOk, WakeOk, ClientOk;
  }

  lemma ReachableClientOk(s: State)
    requires Reachable(s)
    ensures ClientOk(s)
  {
    ReachableImpliesInv(s);
    hide Reachable, CoreOk, CallsOk, CoverOk, ChannelOk, WakeOk, ClientOk;
  }
}
