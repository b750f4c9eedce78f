/**
 What the single subscriber of the notification channel answers, and what its notifiers leave alone: a subscription is
 ready only if it was notified, a poll that finds nothing new goes back to sleep under the polling thread's name, and a
 thread that parks never wakes the performer that it polled last.
 */
module Subscriptions {
  import opened Common
  import opened Protocol
  import opened PerformerInvariant
  import ThreadInvariant
  import ThreadStates
  import CallInvariant
  import opened ChannelInvariant
  import opened CoverInvariant
  import opened Invariant
  import opened GracePeriods
  import opened HookRuns

  // ----- the subscriber's poll -----

  /**
   What each look of a poll decides. It is over if and only if the counter has moved since the subscription, or the
   info that it had registered was taken.
   */
  lemma PollIsReadyExactly(s: State, s': State)
    requires Reachable(s) && DoPollSubscriber(s, s')
    ensures var p, p' := s.perf, s'.perf;
      && (p.pc.FirstCheck? ==> if s.num > p.snapshot then p'.pc.DropFlag? else p'.pc.Register?)
      && (p.pc.SecondCheck? ==> if s.num > p.snapshot then p'.pc.DropFlag? else p'.pc.Asleep?)
      && (p.pc.Register? || p.pc.UpdateInfo? ==> (p'.pc.DropFlag? <==> p.registered && s.info.None?))
      && (p'.pc.SecondCheck? || p'.pc.Asleep? ==> p'.registered && (s'.info.None? || s'.info == Some(p.host)))
      && (p'.consumed <==> p.consumed || ((p.pc.Register? || p.pc.UpdateInfo?) && p'.pc.DropFlag?))
  {
    ReachableChannelOk(s);
    hide Reachable, InfoUnlocked, FlagOk, ClearingOk, ConsumedOk;
  }

  /** A subscription is ready only if a notification was counted since it began, or its registered info was taken. */
  lemma ReadyOnlyIfNotified(s: State, s': State)
    requires Reachable(s) && DoPollSubscriber(s, s') && s'.perf.pc.DropFlag?
    ensures s.num > s.perf.snapshot || (s.perf.registered && s.info.None?)
  {
    PollIsReadyExactly(s, s');
    hide Reachable, InfoUnlocked;
  }

  /** In the middle of a poll that finds its info where it was and the counter unmoved. */
  predicate FindsNothing(s: State) {
    && s.perf.registered && s.info.Some? && s.num == s.perf.snapshot
    && (s.perf.pc.FirstCheck? || s.perf.pc.Register? || s.perf.pc.UpdateInfo? || s.perf.pc.SecondCheck?)
  }

  /** The performer is back asleep, registered under the name of the thread that polled it. */
  predicate AsleepAgain(s: State, host: ThreadId) {
    && s.perf.pc.Asleep? && s.perf.registered && s.info == Some(host) && s.perf.host == host && s.num == s.perf.snapshot
  }

  /** How many steps of the poll are still to come at most. */
  function LooksLeft(pc: PerfPc): nat {
    match pc
    case FirstCheck => 4
    case Register => 3
    case UpdateInfo => 2
    case SecondCheck => 1
    case _ => 0
  }

  /** Whichever way the poll takes, its next step finds nothing either, or is the last one and goes back to sleep. */
  lemma FindsNothingAgain(s: State, s': State)
    requires Reachable(s) && FindsNothing(s) && DoPollSubscriber(s, s')
    ensures LooksLeft(s'.perf.pc) < LooksLeft(s.perf.pc) && s'.perf.host == s.perf.host
    ensures FindsNothing(s') || AsleepAgain(s', s.perf.host)
    ensures s'.flag == s.flag && s'.perf.buf == s.perf.buf && s'.perf.woken == s.perf.woken
  {
    ReachableChannelOk(s);
    hide Reachable, InfoUnlocked, FlagOk, ClearingOk, ConsumedOk;
  }

  /**
   A performer that is polled again without having been notified, with nobody in between, goes back to sleep, and is
   registered under the thread that polled it now. All runs of the poll end so, and there is one.
   */
  lemma {:induction false} RepollFallsAsleep(path: seq<State>)
    requires |path| > 0 && Reachable(path[0]) && FindsNothing(path[0])
    requires forall i :: 0 <= i < |path| - 1 ==> DoPollSubscriber(path[i], path[i + 1])
    requires !FindsNothing(path[|path| - 1])
    ensures AsleepAgain(path[|path| - 1], path[0].perf.host)
    decreases |path|
  {
    hide Reachable, DoPollSubscriber, FindsNothing, AsleepAgain;
    assert DoPollSubscriber(path[0], path[1]);
    FindsNothingAgain(path[0], path[1]);
    PollStepExtends(path[0], path[1]);
    var rest := path[1..];
    if FindsNothing(path[1]) {
      forall i | 0 <= i < |rest| - 1 ensures DoPollSubscriber(rest[i], rest[i + 1]) {
        assert DoPollSubscriber(path[i + 1], path[i + 1 + 1]);
      }
      RepollFallsAsleep(rest);
    } else if |path| > 2 {
      assert DoPollSubscriber(path[1], path[2]);
      AsleepTakesNoStep(path[1], path[2], path[0].perf.host);
    }
  }

  lemma PollStepExtends(s: State, s': State)
    requires Reachable(s) && DoPollSubscriber(s, s')
    ensures Reachable(s')
  {
    hide Reachable;
    assert DoPerform(s, s') by { hide DoChooseEpoch, DoSubscribe, DoScan, DoPollSubscriber, DoDropSubscriber; }
    hide DoPerform;
    Extend(s, s', PerformOf);
  }

  lemma AsleepTakesNoStep(s: State, s': State, host: ThreadId)
    requires AsleepAgain(s, host)
    ensures !DoPollSubscriber(s, s')
  {
  }

  lemma {:induction false} RepollRuns(s: State) returns (path: seq<State>)
    requires Reachable(s) && FindsNothing(s)
    ensures |path| > 1 && path[0] == s && !FindsNothing(path[|path| - 1])
    ensures forall i :: 0 <= i < |path| - 1 ==> DoPollSubscriber(path[i], path[i + 1])
    decreases LooksLeft(s.perf.pc)
  {
    var s' := RepollStep(s);
    FindsNothingAgain(s, s');
    PollStepExtends(s, s');
    hide Reachable, DoPollSubscriber, FindsNothing, AsleepAgain;
    if FindsNothing(s') {
      var rest := RepollRuns(s');
      path := [s] + rest;
      forall i | 0 <= i < |path| - 1 ensures DoPollSubscriber(path[i], path[i + 1]) {
        assert i > 0 ==> DoPollSubscriber(rest[i - 1], rest[i - 1 + 1]);
      }
    } else {
      path := [s, s'];
    }
  }

  lemma RepollStep(s: State) returns (s': State)
    requires Reachable(s) && FindsNothing(s)
    ensures DoPollSubscriber(s, s')
  {
    ReachableChannelOk(s);
    hide Reachable, FlagOk, ConsumedOk;
    assert InfoUnlocked(s.threads);
    hide InfoUnlocked;
    s' := match s.perf.pc
      case FirstCheck => s.(perf := s.perf.(pc := Register))
      case Register => if s.info == Some(s.perf.host) then s.(perf := s.perf.(pc := SecondCheck))
                       else s.(perf := s.perf.(pc := UpdateInfo))
      case UpdateInfo => s.(perf := s.perf.(pc := SecondCheck), info := Some(s.perf.host))
      case _ => s.(perf := s.perf.(pc := Asleep));
  }

  /** While the performer sleeps, an info that is still there names the thread that polled it last. */
  lemma InfoNamesLastPoller(s: State)
    requires Reachable(s) && s.perf.pc.Asleep?
    ensures s.info.None? || s.info == Some(s.perf.host)
  {
    ReachableChannelOk(s);
    hide Reachable, FlagOk, ClearingOk, ConsumedOk;
  }

  // ----- a whole subscription -----

  /** In this step a notifier counts a notification or takes the subscriber info. */
  predicate NotifiesChannel(s: State, s': State) {
    s'.num > s.num || (s.info.Some? && s'.info.None? && s'.perf.woken)
  }

  /** A subscription in the making or at work, whose registered info nobody has taken. */
  predicate Unnotified(s: State) {
    && (s.perf.pc.Fence? || s.perf.pc.ScanLen? || s.perf.pc.ScanSlot? || FindsSubscriber(s.perf.pc))
    && s.num == s.perf.snapshot && (s.perf.registered ==> s.info.Some?)
  }

  predicate FindsSubscriber(pc: PerfPc) {
    pc.FirstCheck? || pc.Register? || pc.UpdateInfo? || pc.SecondCheck? || pc.Asleep?
  }

  lemma PerformKeepsUnnotified(s: State, s': State)
    requires Reachable(s) && Unnotified(s) && DoPerform(s, s')
    ensures Unnotified(s') || (s.perf.pc.ScanSlot? && s'.perf.passed)
  {
    ReachableChannelOk(s);
    PerformFrame(s, s');
    hide Reachable, InfoUnlocked, FlagOk, ClearingOk, ConsumedOk, SlotPasses, HostDrained;
    if DoScan(s, s') {
      hide DoChooseEpoch, DoSubscribe, DoPollSubscriber, DoDropSubscriber;
    } else if DoPollSubscriber(s, s') {
      hide DoChooseEpoch, DoSubscribe, DoScan, DoDropSubscriber;
    } else {
      hide DoScan, DoPollSubscriber;
    }
  }

  lemma NotifyKeepsUnnotified(s: State, s': State, t: ThreadId)
    requires Unnotified(s) && DoNotify(s, s', t)
    ensures Unnotified(s') || NotifiesChannel(s, s')
  {
    hide InfoUnlocked;
  }

  /** Only the call that performs touches the performer, at its start and at its end. */
  lemma CallsKeepUnnotified(s: State, s': State, step: Step)
    requires Reachable(s) && Unnotified(s) && NextBy(s, s', step) && ByCall(step)
    ensures Unnotified(s')
  {
    hide Reachable, DoSerialized, Unnotified;
    if step.SerializedOf? {
      SerializedKeepsUnnotified(s, s', step.k, step.t);
    } else {
      OtherCallsLeaveChannel(s, s', step);
      SameChannelIsUnnotified(s, s');
    }
  }

  lemma SameChannelIsUnnotified(s: State, s': State)
    requires Unnotified(s) && s'.perf == s.perf && s'.num == s.num && s'.info == s.info
    ensures Unnotified(s')
  {
  }

  lemma OtherCallsLeaveChannel(s: State, s': State, step: Step)
    requires NextBy(s, s', step) && ByCall(step) && !step.SerializedOf?
    ensures s'.perf == s.perf && s'.num == s.num && s'.info == s.info
  {
    hide NoWriter, NoReader, PollsInProgress, NotifyFollowers;
  }

  lemma SerializedKeepsUnnotified(s: State, s': State, k: CallId, t: ThreadId)
    requires Reachable(s) && Unnotified(s) && DoSerialized(s, s', k, t)
    ensures Unnotified(s')
  {
    ReachableCallsOk(s);
    hide Reachable, MutexFree, CallInvariant.CountersOk, CallInvariant.DistinctOk, CallInvariant.LeadersOk;
    assert s.calls[k].pc.StartPerforming? ==> s.perf.pc.Off?;
  }

  /** An unnotified subscription ends only when its scan passes; otherwise it takes a notifier to end it. */
  lemma StepKeepsUnnotified(s: State, s': State)
    requires Reachable(s) && Next(s, s') && Unnotified(s)
    ensures Unnotified(s') || NotifiesChannel(s, s') || (s.perf.pc.ScanSlot? && s'.perf.passed)
  {
    hide Reachable, DoPerform, DoNotify, DoBegin, DoTakeId, DoLead, DoFollow, DoSerialized, DoReturn, HookStep;
    var step :| NextBy(s, s', step);
    if step.PerformOf? {
      PerformKeepsUnnotified(s, s');
    } else if step.NotifyOf? {
      NotifyKeepsUnnotified(s, s', step.t);
    } else if ByCall(step) {
      CallsKeepUnnotified(s, s', step);
    }
  }

  /**
   On every run, a subscription that has taken its snapshot in state `b` and is no longer unnotified in state `j` was
   notified in a step in between, or its scan passed.
   */
  lemma {:induction false} SubscriptionEndsByNotification(run: seq<State>, b: nat, j: nat) returns (m: nat)
    requires IsRun(run) && b <= j < |run| && Unnotified(run[b]) && !Unnotified(run[j])
    ensures b <= m < j && Unnotified(run[m])
    ensures NotifiesChannel(run[m], run[m + 1]) || (run[m].perf.pc.ScanSlot? && run[m + 1].perf.passed)
  {
    hide IsRun, Next, Reachable, Unnotified, NotifiesChannel;
    if Unnotified(run[j - 1]) {
      m := j - 1;
      PrefixIsRun(run, m);
      RunStep(run, m);
      StepKeepsUnnotified(run[m], run[m + 1]);
    } else {
      m := SubscriptionEndsByNotification(run, b, j - 1);
    }
  }

  /** The step that takes the snapshot makes the subscription unnotified. */
  lemma SnapshotStartsUnnotified(s: State, s': State)
    requires Reachable(s) && DoSubscribe(s, s') && s.perf.pc.Snapshot?
    ensures Unnotified(s')
  {
    hide Reachable;
  }

  // ----- the end of a subscription -----

  /**
   The subscriber stores to the hint flag when it is dropped, except if it saw that its info was taken: then the flag is
   down in memory already.
   */
  lemma DropSkipsOnlyNeedlessStore(s: State, s': State)
    requires Reachable(s) && DoDropSubscriber(s, s') && s.perf.pc.DropFlag?
    ensures s'.perf.buf == if s.perf.consumed then [] else [FlagWrite(false)]
    ensures s.perf.consumed ==> !s.flag
  {
    ReachableCoreOk(s);
    ReachableChannelOk(s);
    hide Reachable, SubscriberOk, ClearingOk, ThreadInvariant.ThreadsOk, ScanOk;
  }

  // ----- notifiers that have nobody to wake -----

  /** A notifier with nothing to do gives up at its first look at the info, before it would take the lock to write. */
  lemma NobodyToWake(s: State, s': State, t: ThreadId)
    requires DoNotify(s, s', t) && s.threads[t].pc.at.ReadInfo?
    ensures !s'.threads[t].pc.Notifying? <==> s.info.None? || (s.threads[t].pc.skipSelf && s.info == Some(t))
  {
    hide InfoUnlocked;
  }

  /**
   The rule against waking one's own thread: as long as the info names the thread of a notifier that must skip it, no
   step of that notifier takes the info, wakes the performer, or gets to clearing the flag.
   */
  lemma SkipsOwnThread(s: State, s': State, t: ThreadId)
    requires DoNotify(s, s', t) && s.threads[t].pc.skipSelf && s.info == Some(t) && !s.threads[t].pc.at.ClearFlag?
    ensures s'.info == s.info && s'.flag == s.flag && s'.perf == s.perf && !IsClearing(s'.threads[t].pc)
  {
    hide InfoUnlocked;
  }

  /** On its way from the mask of `on_thread_park` to sleep. */
  predicate Parking(pc: HookPc) {
    pc.ParkFence? || pc.Parked? || (pc.Notifying? && pc.skipSelf && pc.next.ToParked? && !pc.at.ClearFlag?)
  }

  lemma ParkingLeavesSubscription(s: State, s': State, t: ThreadId)
    requires Reachable(s) && IsThread(s, t) && Parking(s.threads[t].pc) && !s.threads[t].pc.Parked?
    requires s.info == Some(t) && Moves(s, s', t)
    ensures IsThread(s', t) && Parking(s'.threads[t].pc) && LeavesSubscription(s, s') && Reachable(s')
  {
    hide Reachable, DoNotify, DoHook, DoPerform, DoBegin, DoTakeId, DoLead, DoFollow, DoSerialized, DoReturn;
    var step :| NextBy(s, s', step) && StepOf(s, step, t);
    Extend(s, s', step);
    if step.NotifyOf? {
      OnlyOwnNotifier(s, s', step.t);
      assert step.t == t;
      NotifierLeavesSubscription(s, s', t);
    } else if step.HookOf? {
      HookStaysParking(s, s', t, step.h, step.th, step.mem);
    }
  }

  lemma OnlyOwnNotifier(s: State, s': State, u: ThreadId)
    requires Reachable(s) && s.info.Some? && DoNotify(s, s', u)
    ensures IsNotifier(s, u) && !IsClearing(s.threads[u].pc)
  {
    ReachableChannelOk(s);
    hide Reachable, FlagOk, SubscriberOk, ConsumedOk;
  }

  lemma NotifierLeavesSubscription(s: State, s': State, t: ThreadId)
    requires DoNotify(s, s', t) && Parking(s.threads[t].pc) && s.info == Some(t)
    ensures IsThread(s', t) && Parking(s'.threads[t].pc) && LeavesSubscription(s, s')
  {
    SkipsOwnThread(s, s', t);
    NotifyMovesOneThread(s, s', t);
    hide InfoUnlocked;
  }

  lemma HookStaysParking(s: State, s': State, t: ThreadId, h: Hook, th': Thread, mem': ThreadStates.ThreadState)
    requires DoHook(s, s', t, h, th', mem') && Parking(s.threads[t].pc) && !s.threads[t].pc.Parked?
    ensures IsThread(s', t) && Parking(s'.threads[t].pc) && LeavesSubscription(s, s')
  {
  }

  /** Whatever steps a thread takes to park, it leaves the performer that it polled last asleep and registered. */
  lemma {:induction false} ParkingNeverWakesOwnTask(path: seq<State>, t: ThreadId)
    requires IsPath(path, t) && Reachable(path[0]) && IsThread(path[0], t) && Parking(path[0].threads[t].pc)
    requires path[0].info == Some(t)
    requires forall i :: 0 <= i < |path| - 1 ==> IsThread(path[i], t) && !path[i].threads[t].pc.Parked?
    ensures LeavesSubscription(path[0], path[|path| - 1])
    decreases |path|
  {
    hide Reachable, Moves, Parking;
    if |path| > 1 {
      assert Moves(path[0], path[0 + 1], t);
      ParkingLeavesSubscription(path[0], path[1], t);
      var rest := path[1..];
      forall i | 0 <= i < |rest| - 1
        ensures Moves(rest[i], rest[i + 1], t) && IsThread(rest[i], t) && !rest[i].threads[t].pc.Parked?
      {
        assert Moves(path[i + 1], path[i + 1 + 1], t);
        assert IsThread(path[i + 1], t) && !path[i + 1].threads[t].pc.Parked?;
      }
      ParkingNeverWakesOwnTask(rest, t);
    }
  }
}
