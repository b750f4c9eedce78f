/** What the notification channel guarantees on every run. */
module Wakeups {
  import opened Common
  import opened ThreadStates
  import opened Protocol
  import opened ThreadInvariant
  import opened PerformerInvariant
  import opened ChannelInvariant
  import opened WakeInvariant
  import opened Invariant

  /** The thread has stored to its slot and has not finished the notification that belongs to the store. */
  predicate BetweenStoreAndWake(s: State, t: ThreadId)
    requires IsThread(s, t)
  {
    var pc := s.threads[t].pc;
    pc.Enter? || (InFlight(pc) && !(SkipsSelf(pc) && s.info == Some(t)))
  }

  /** The thread's word in memory fails the test of the scan. */
  predicate FailsScan(s: State, t: ThreadId) {
    Tracked(s, t) && !SlotPasses(Some(Mem(s, t)), s.perf.phase, false)
  }

  /** The thread is inside the task poll, or the hook behind it, and will look at the epoch id before it may park. */
  predicate StillToLeavePoll(pc: HookPc) {
    pc.InPoll? || pc.LeaveLoad? || pc.LeaveStore?
  }

  /**
   No lost wakeup. While the performer sleeps and nobody has woken it, some thread still fails the test of the
   scan, or is between its slot store and its wake-up. If that thread is the one that polled the performer last,
   whose parking does not wake it, then it has still to leave its poll or to finish waking up; it cannot park
   before it has published the new epoch id.
   */
  lemma NoLostWakeup(s: State) returns (t: ThreadId)
    requires Reachable(s) && s.perf.pc.Asleep? && !s.perf.woken
    ensures IsThread(s, t) && (FailsScan(s, t) || BetweenStoreAndWake(s, t))
    ensures s.info == Some(t) && !BetweenStoreAndWake(s, t) ==>
              StillToLeavePoll(s.threads[t].pc) || s.threads[t].pc.EnterLoad? || s.threads[t].pc.EnterStore?
  {
    ReachableCoreOk(s);
    ReachableChannelOk(s);
    ReachableWakeOk(s);
    hide Reachable;
    t := WakerOf(s);
  }

  lemma WakerOf(s: State) returns (t: ThreadId)
    requires CoreOk(s) && ChannelOk(s) && WakeOk(s) && s.perf.pc.Asleep? && !s.perf.woken
    ensures IsThread(s, t) && (FailsScan(s, t) || BetweenStoreAndWake(s, t))
    ensures s.info == Some(t) && !BetweenStoreAndWake(s, t) ==>
              StillToLeavePoll(s.threads[t].pc) || s.threads[t].pc.EnterLoad? || s.threads[t].pc.EnterStore?
  {
    assert s.info.Some?;
    t :| 0 <= t < |s.threads| && WillWake(s, t);
    assert ThreadOk(s.cfg, s.threads, s.slots, t);
    hide ChannelOk, SlotsOk, FreshOk;
  }

  /**
   The thread that polled the performer last may skip its own wake-up when it parks: by then its slot does not
   fail the test of the scan.
   */
  lemma SkippingOwnParkIsHarmless(s: State, t: ThreadId)
    requires Reachable(s) && s.perf.pc.Asleep? && s.info == Some(t) && IsThread(s, t) && s.threads[t].pc.Ready?
    ensures Tracked(s, t) && !FailsScan(s, t) && Seen(s.perf.phase, Latest(s.threads[t], Mem(s, t)).epoch)
  {
    ReachableCoreOk(s);
    ReachableWakeOk(s);
    hide Reachable, WaitOk, FreshOk;
    assert ThreadOk(s.cfg, s.threads, s.slots, t);
    assert Latest(s.threads[t], Mem(s, t)) == Mem(s, t);
  }

  /** While a subscription waits and nobody has taken its info, the hint flag is up in memory for every notifier. */
  lemma WaitingSubscriberIsVisible(s: State)
    requires Reachable(s) && Subscribed(s.perf.pc) && !s.perf.pc.DropInfo? && (s.info.Some? || !s.perf.registered)
    ensures s.flag
  {
    ReachableChannelOk(s);
    hide Reachable;
  }

  /**
   Isolation of subscriptions. Outside of a subscription there is no subscriber info, no notifier is between
   taking an info and clearing the flag, and the flag is down up to the stores of the performer itself; so no
   late notifier can erase the flag of the next subscription.
   */
  lemma SubscriptionsAreIsolated(s: State, t: ThreadId)
    requires Reachable(s) && !Subscribed(s.perf.pc)
    ensures s.info.None? && (IsThread(s, t) ==> !IsClearing(s.threads[t].pc))
    ensures s.perf.pc.Off? || s.perf.pc.LoadEpoch? || s.perf.pc.Finished? ==> !s.flag
    ensures s.perf.pc.SetEpoch? || s.perf.pc.SetFlag? || s.perf.pc.Settle? ==> FlagOff(s.flag, s.perf.buf)
    ensures s.perf.pc.ScanLen? || s.perf.pc.ScanSlot? ==> s.flag
  {
    ReachableChannelOk(s);
    hide Reachable;
  }

  /** A subscriber info is taken at most once per subscription, and taking it wakes the performer. */
  lemma TakenInfoWakesPerformer(s: State)
    requires Reachable(s) && s.perf.pc.Asleep?
    ensures s.perf.registered && (s.info.None? ==> s.perf.woken)
    ensures forall t, u | 0 <= t < |s.threads| && 0 <= u < |s.threads| ::
              IsClearing(s.threads[t].pc) && IsClearing(s.threads[u].pc) ==> t == u
  {
    ReachableChannelOk(s);
    hide Reachable;
  }

  // ----- the performer is never stuck -----

  /**
   A step that brings the performer forward: its own, a drain of its host's buffer, or the release of the info
   lock.
   */
  ghost predicate Helps(s: State, s': State) {
    || DoPerform(s, s') || DoDrainPerformer(s, s')
    || (exists th, mem :: DoHook(s, s', s.perf.host, DrainStore, th, mem))
    || (exists t: ThreadId :: IsNotifier(s, t) && IsClearing(s.threads[t].pc) && DoNotify(s, s', t))
  }

  /** Unless it sleeps, the performer can always take a step, once its stores are drained and the info lock is free. */
  lemma PerformerNeverStuck(s: State) returns (s': State)
    requires Reachable(s) && Hosted(s.perf.pc)
    ensures Helps(s, s') && Next(s, s')
  {
    ReachableCoreOk(s);
    hide Reachable, FreshOk;
    assert ThreadOk(s.cfg, s.threads, s.slots, s.perf.host);
    if !InfoUnlocked(s.threads) {
      s' := ReleaseInfoLock(s);
    } else if s.threads[s.perf.host].buf != [] {
      s' := DrainHost(s);
    } else if s.perf.buf != [] && !s.perf.pc.SetEpoch? {
      s' := DrainPerformer(s);
    } else {
      s' := PerformOnce(s);
    }
  }

  lemma ReleaseInfoLock(s: State) returns (s': State)
    requires !InfoUnlocked(s.threads)
    ensures Helps(s, s') && Next(s, s')
  {
    var t: ThreadId :| t < |s.threads| && s.threads[t].pc.Notifying? && s.threads[t].pc.at.ClearFlag?;
    s' := s.(threads := MoveTo(s, t, Resume(s.threads[t].pc.next)), flag := false);
    assert NextBy(s, s', NotifyOf(t)) && DoNotify(s, s', t);
    hide DoNotify, DoPerform, DoDrainPerformer, DoHook;
  }

  lemma DrainHost(s: State) returns (s': State)
    requires Tracked(s, s.perf.host) && s.threads[s.perf.host].buf != []
    ensures Helps(s, s') && Next(s, s')
  {
    var t := s.perf.host;
    var th := s.threads[t].(buf := s.threads[t].buf[1..]);
    var mem := s.threads[t].buf[0];
    s' := s.(threads := s.threads[t := th], slots := s.slots[s.threads[t].slot := Slot(Some(mem), t)]);
    assert DoHook(s, s', t, DrainStore, th, mem);
    assert NextBy(s, s', HookOf(t, DrainStore, th, mem));
    hide DoHook, DoPerform, DoDrainPerformer, DoNotify;
  }

  lemma DrainPerformer(s: State) returns (s': State)
    requires IsThread(s, s.perf.host) && s.threads[s.perf.host].buf == [] && s.perf.buf != []
    ensures Helps(s, s') && Next(s, s')
  {
    var rest := s.perf.(buf := s.perf.buf[1..]);
    match s.perf.buf[0] {
      case EpochWrite(e) => s' := s.(perf := rest, stale := s.stale + {s.epoch}, epoch := e);
      case FlagWrite(on) => s' := s.(perf := rest, flag := on);
    }
    assert NextBy(s, s', DrainPerformerOf) && DoDrainPerformer(s, s');
    hide DoHook, DoPerform, DoDrainPerformer, DoNotify;
  }

  lemma PerformOnce(s: State) returns (s': State)
    requires Hosted(s.perf.pc) && InfoUnlocked(s.threads) && IsThread(s, s.perf.host)
        && s.threads[s.perf.host].buf == []
    requires s.perf.buf == [] || s.perf.pc.SetEpoch?
    requires s.perf.pc.ScanSlot? ==> s.perf.len <= |s.slots|
    ensures Helps(s, s') && Next(s, s')
  {
    var p := s.perf;
    match p.pc {
      case LoadEpoch =>
        s' := s.(perf := p.(pc := SetEpoch, passed := false,
                            phase := if s.epoch == s.cfg.epochMax then ResetToMin else Bump(s.epoch + 2)));
      case SetEpoch => s' := s.(perf := p.(pc := SetFlag, buf := p.buf + [EpochWrite(Target(p.phase))]));
      case SetFlag => s' := s.(perf := p.(pc := Snapshot, buf := p.buf + [FlagWrite(true)]));
      case Snapshot =>
        s' := s.(perf := p.(pc := Fence, snapshot := s.num, registered := false, consumed := false, woken := false));
      case Fence => s' := s.(perf := p.(pc := ScanLen));
      case ScanLen => s' := s.(perf := p.(pc := ScanSlot, len := |s.slots|, idx := 0));
      case ScanSlot =>
        if p.idx < p.len {
          var skipped := p.phase.ResetToMin? && p.idx == s.threads[p.host].slot;
          s' := s.(perf := if SlotPasses(s.slots[p.idx].value, p.phase, skipped) then p.(idx := p.idx + 1)
                           else p.(pc := FirstCheck));
        } else {
          s' := s.(perf := p.(pc := DropFlag, passed := true), stale := if p.phase.ResetToMin? then s.stale else {});
        }
      case FirstCheck => s' := s.(perf := p.(pc := if s.num != p.snapshot then DropFlag else Register));
      case Register =>
        if !p.registered {
          s' := s.(perf := p.(pc := SecondCheck, registered := true), info := Some(p.host));
        } else if s.info.None? {
          s' := s.(perf := p.(pc := DropFlag, consumed := true));
        } else {
          s' := s.(perf := p.(pc := UpdateInfo));
        }
      case UpdateInfo =>
        if s.info.None? {
          s' := s.(perf := p.(pc := DropFlag, consumed := true));
        } else {
          s' := s.(perf := p.(pc := SecondCheck), info := Some(p.host));
        }
      case SecondCheck => s' := s.(perf := p.(pc := if s.num != p.snapshot then DropFlag else Asleep));
      case DropFlag => s' := s.(perf := p.(pc := DropInfo,
          buf := if p.consumed then p.buf else p.buf + [FlagWrite(false)]));
      case DropInfo => s' := if p.registered then s.(perf := AfterDrop(p), info := None) else s.(perf := AfterDrop(p));
      case Settle => s' := s.(perf := p.(pc := Finished));
    }
    assert DoPerform(s, s') by { hide SlotPasses, InfoUnlocked; }
    assert NextBy(s, s', PerformOf);
    hide DoHook, DoPerform, DoDrainPerformer, DoNotify;
  }
}
