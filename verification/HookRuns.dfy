/**
 Every hook call that the order of the hooks allows is a run of the protocol: one thread alone, apart from another
 notifier that has to let go of the subscriber info first, can take it from its first access to its last. A run of
 hooks that notifies wakes a sleeping performer.
 */
module HookRuns {
  import opened Common
  import opened ThreadStates
  import opened Protocol
  import opened ThreadInvariant
  import opened PerformerInvariant
  import opened ChannelInvariant
  import opened Invariant
  import opened HookOrder

  // ----- runs of one thread -----

  /** A step of thread `t`, or of a notifier that releases the subscriber info, or the end of a read by `t`. */
  predicate StepOf(s: State, step: Step, t: ThreadId) {
    match step
    case HookOf(u, _, _, _) => u == t
    case AllocateOf(u, _) => u == t
    case ReleaseOf(u) => u == t
    case StopFenceOf(u) => u == t
    case NotifyOf(u) => u == t || (IsNotifier(s, u) && IsClearing(s.threads[u].pc))
    case ClientOf(a) => a.EndRead? && a.t == t
    case _ => false
  }

  ghost predicate Moves(s: State, s': State, t: ThreadId) {
    exists step :: NextBy(s, s', step) && StepOf(s, step, t)
  }

  ghost predicate IsPath(path: seq<State>, t: ThreadId) {
    |path| > 0 && forall i :: 0 <= i < |path| - 1 ==> Moves(path[i], path[i + 1], t)
  }

  /** What the steps of one thread leave alone. */
  ghost predicate SameProtocol(s: State, s': State) {
    && s'.cfg == s.cfg && s'.epoch == s.epoch && s'.calls == s.calls && |s'.threads| == |s.threads|
    && s'.perf == s.perf.(woken := s'.perf.woken) && (s.perf.woken ==> s'.perf.woken)
    && |s'.held| == |s.held|
  }

  /** Thread `t` gets from one reachable state to another. */
  ghost predicate Runs(s: State, s': State, t: ThreadId) {
    && Reachable(s') && SameProtocol(s, s')
    && exists path :: IsPath(path, t) && path[0] == s && path[|path| - 1] == s'
  }

  lemma StayingIsRun(s: State, t: ThreadId)
    requires Reachable(s)
    ensures Runs(s, s, t)
  {
    hide Reachable;
    assert IsPath([s], t) && [s][0] == s && [s][|[s]| - 1] == s;
  }

  lemma RunsOn(s: State, s': State, s'': State, t: ThreadId)
    requires Runs(s, s', t) && Runs(s', s'', t)
    ensures Runs(s, s'', t)
  {
    hide Reachable, Moves;
    var first :| IsPath(first, t) && first[0] == s && first[|first| - 1] == s';
    var second :| IsPath(second, t) && second[0] == s' && second[|second| - 1] == s'';
    var path := first + second[1..];
    forall i | 0 <= i < |path| - 1 ensures Moves(path[i], path[i + 1], t) {
      if i < |first| - 1 {
        assert Moves(first[i], first[i + 1], t);
      } else {
        assert path[i] == second[i - |first| + 1];
        assert Moves(second[i - |first| + 1], second[i - |first| + 1 + 1], t);
      }
    }
    assert IsPath(path, t) && path[0] == s && path[|path| - 1] == s'';
  }

  lemma StepIsRun(s: State, s': State, step: Step, t: ThreadId)
    requires Reachable(s) && NextBy(s, s', step) && StepOf(s, step, t) && SameProtocol(s, s')
    ensures Runs(s, s', t)
  {
    hide Reachable, NextBy, StepOf, SameProtocol;
    Extend(s, s', step);
    assert Moves(s, s', t);
    var path := [s, s'];
    assert IsPath(path, t) && path[0] == s && path[|path| - 1] == s';
  }

  // ----- single accesses -----

  /** What the invariant says about a thread with a slot. */
  lemma SlotFacts(s: State, t: ThreadId)
    requires Reachable(s) && IsThread(s, t)
    ensures ValidConfig(s.cfg) && ValidEpoch(s.cfg, s.epoch)
    ensures if HasSlot(s.threads[t].pc) then Tracked(s, t) && LocalOk(s.cfg, s.threads[t], Mem(s, t))
            else s.threads[t].buf == []
  {
    ReachableCoreOk(s);
    assert ThreadOk(s.cfg, s.threads, s.slots, t);
    hide Reachable, LocalOk;
  }

  lemma HookMove(s: State, t: ThreadId, h: Hook, th': Thread, mem': ThreadState) returns (s': State)
    requires Reachable(s) && Tracked(s, t) && HookStep(h, s.epoch, s.threads[t], Mem(s, t), th', mem')
    requires h.EndPoll? ==> t < |s.held| && s.held[t] == {} && !IsHost(s, t)
    ensures Runs(s, s', t) && Tracked(s', t) && s'.threads[t] == th' && Mem(s', t) == mem'
    ensures s'.held == s.held && s'.info == s.info && s'.flag == s.flag && s'.perf == s.perf
  {
    SlotFacts(s, t);
    hide Reachable;
    HookKeepsSlot(s.cfg, h, s.epoch, s.threads[t], Mem(s, t), th', mem');
    hide LocalOk;
    s' := s.(threads := s.threads[t := th'], slots := s.slots[s.threads[t].slot := Slot(Some(mem'), t)]);
    assert DoHook(s, s', t, h, th', mem');
    hide HookStep, DoHook;
    StepIsRun(s, s', HookOf(t, h, th', mem'), t);
  }

  /** All buffered stores of the thread reach memory. */
  lemma {:induction false} Drains(s: State, t: ThreadId) returns (s': State)
    requires Reachable(s) && Tracked(s, t)
    ensures Runs(s, s', t) && Tracked(s', t) && s'.threads[t] == s.threads[t].(buf := [])
    ensures Mem(s', t) == Latest(s.threads[t], Mem(s, t))
    ensures s'.held == s.held && s'.info == s.info && s'.flag == s.flag && s'.perf == s.perf
    decreases |s.threads[t].buf|
  {
    hide Reachable, Runs;
    var th := s.threads[t];
    if th.buf == [] {
      StayingIsRun(s, t);
      s' := s;
    } else {
      var s1 := HookMove(s, t, DrainStore, th.(buf := th.buf[1..]), th.buf[0]);
      RunIsReachable(s, s1, t);
      s' := Drains(s1, t);
      RunsOn(s, s1, s', t);
    }
  }

  lemma RunIsReachable(s: State, s': State, t: ThreadId)
    requires Runs(s, s', t)
    ensures Reachable(s') && SameProtocol(s, s')
  {
    hide Reachable, SameProtocol;
  }

  /** The read-side sections of the thread end. */
  lemma {:induction false} EndsReads(s: State, t: ThreadId) returns (s': State)
    requires Reachable(s) && t < |s.held|
    ensures Runs(s, s', t) && s' == s.(held := s.held[t := {}])
    decreases |s.held[t]|
  {
    hide Reachable, Runs;
    if s.held[t] == {} {
      StayingIsRun(s, t);
      s' := s;
      assert s.held[t := {}] == s.held;
    } else {
      var b :| b in s.held[t];
      var s1 := s.(held := s.held[t := s.held[t] - {b}]);
      assert NextBy(s, s1, ClientOf(EndRead(t, b)));
      StepIsRun(s, s1, ClientOf(EndRead(t, b)), t);
      RunIsReachable(s, s1, t);
      s' := EndsReads(s1, t);
      RunsOn(s, s1, s', t);
      assert s1.held[t := {}] == s.held[t := {}];
    }
  }

  // ----- the notification -----

  lemma NotifyMove(s: State, s': State, u: ThreadId, t: ThreadId)
    requires Reachable(s) && DoNotify(s, s', u) && (u == t || IsClearing(s.threads[u].pc))
    ensures Runs(s, s', t)
  {
    NotifyMovesOneThread(s, s', u);
    assert s.perf.woken ==> s'.perf.woken;
    hide DoNotify, Reachable;
    StepIsRun(s, s', NotifyOf(u), t);
  }

  /** A notifier that holds the subscriber info lets go of it; there is only one, and it has woken the performer. */
  lemma InfoIsReleased(s: State, t: ThreadId) returns (s': State)
    requires Reachable(s) && IsThread(s, t) && !IsClearing(s.threads[t].pc)
    ensures Runs(s, s', t) && InfoUnlocked(s'.threads) && IsThread(s', t) && s'.threads[t] == s.threads[t]
    ensures s'.slots == s.slots && s'.held == s.held && s'.info == s.info && s'.perf == s.perf && s'.num == s.num
    ensures s.info.Some? ==> s' == s
  {
    ReachableChannelOk(s);
    hide Reachable;
    if InfoUnlocked(s.threads) {
      StayingIsRun(s, t) by { hide ChannelOk; }
      s' := s;
    } else {
      var u: ThreadId :| u < |s.threads| && s.threads[u].pc.Notifying? && s.threads[u].pc.at.ClearFlag?;
      assert IsClearing(s.threads[u].pc);
      s' := s.(threads := MoveTo(s, u, Resume(s.threads[u].pc.next)), flag := false);
      assert forall v | 0 <= v < |s.threads| && v != u :: !IsClearing(s.threads[v].pc);
      assert InfoUnlocked(s'.threads);
      hide ChannelOk;
      NotifyMove(s, s', u, t);
    }
  }

  /** While the performer sleeps unwoken, its info is there to be taken, and the hint flag is up. */
  lemma SleeperIsVisible(s: State)
    requires Reachable(s) && s.perf.pc.Asleep?
    ensures s.perf.woken || (s.info.Some? && s.flag)
  {
    ReachableChannelOk(s);
    hide Reachable;
  }

  /** The notification does not skip the performer. */
  predicate Reaching(s: State, t: ThreadId)
    requires IsNotifier(s, t)
  {
    !s.threads[t].pc.at.ClearFlag? && !(s.threads[t].pc.skipSelf && s.info == Some(t))
  }

  /** The notification must leave alone the performer that this very thread polled last. */
  predicate Skipping(s: State, t: ThreadId)
    requires IsNotifier(s, t)
  {
    s.threads[t].pc.skipSelf && s.info == Some(t)
  }

  /** Nothing of the subscription has changed. */
  predicate LeavesSubscription(s: State, s': State) {
    s'.info == s.info && s'.flag == s.flag && s'.perf == s.perf
  }

  /** The subscriber info has been taken, its waker called, and the hint flag cleared. */
  predicate TakesSubscription(s: State, s': State) {
    s.info.Some? && s'.info.None? && !s'.flag && s'.perf.woken
  }

  /** If the performer slept, it has been woken. */
  predicate Wakes(s: State, s': State) {
    s.perf.pc.Asleep? ==> s'.perf.woken
  }

  /** What the end of a notification leaves: the thread moved on, and nothing else about it changed. */
  predicate AfterNotify(s: State, s': State, t: ThreadId)
    requires IsNotifier(s, t)
  {
    && IsThread(s', t) && s'.threads[t] == s.threads[t].(pc := Resume(s.threads[t].pc.next))
    && s'.slots == s.slots && s'.held == s.held
  }

  lemma FinishClear(s: State, t: ThreadId) returns (s': State)
    requires Reachable(s) && IsNotifier(s, t) && s.threads[t].pc.at.ClearFlag?
    ensures Runs(s, s', t) && AfterNotify(s, s', t)
    ensures s'.info == s.info && s'.perf == s.perf && s'.num == s.num && !s'.flag
  {
    hide Reachable;
    s' := s.(threads := MoveTo(s, t, Resume(s.threads[t].pc.next)), flag := false);
    NotifyMove(s, s', t, t);
  }

  lemma FinishWrite(s: State, t: ThreadId) returns (s': State)
    requires Reachable(s) && IsNotifier(s, t) && s.threads[t].pc.at.WriteInfo?
    ensures Runs(s, s', t) && AfterNotify(s, s', t) && (Reaching(s, t) ==> Wakes(s, s'))
    ensures if s.info.None? then s'.info == s.info && s'.perf == s.perf
            else if Skipping(s, t) then LeavesSubscription(s, s')
            else TakesSubscription(s, s')
    ensures s'.num == s.num
  {
    var s1 := InfoIsReleased(s, t);
    RunIsReachable(s, s1, t);
    if s.perf.pc.Asleep? {
      SleeperIsVisible(s1);
    }
    hide Reachable, Runs;
    var pc := s1.threads[t].pc;
    if Ignores(s1, t) {
      s' := s1.(threads := MoveTo(s1, t, Resume(pc.next)));
      NotifyMove(s1, s', t, t);
    } else {
      var s2 := s1.(threads := MoveTo(s1, t, pc.(at := ClearFlag)), info := None, perf := s1.perf.(woken := true));
      NotifyMove(s1, s2, t, t);
      RunIsReachable(s1, s2, t);
      s' := FinishClear(s2, t);
      RunIsReachable(s2, s', t);
      RunsOn(s1, s2, s', t);
    }
    RunsOn(s, s1, s', t);
  }

  lemma FinishRead(s: State, t: ThreadId) returns (s': State)
    requires Reachable(s) && IsNotifier(s, t) && s.threads[t].pc.at.ReadInfo?
    ensures Runs(s, s', t) && AfterNotify(s, s', t) && (Reaching(s, t) ==> Wakes(s, s'))
    ensures if s.info.None? then s'.info == s.info && s'.perf == s.perf
            else if Skipping(s, t) then LeavesSubscription(s, s')
            else TakesSubscription(s, s')
    ensures s'.num == s.num
  {
    var s1 := InfoIsReleased(s, t);
    RunIsReachable(s, s1, t);
    if s.perf.pc.Asleep? {
      SleeperIsVisible(s1);
    }
    hide Reachable, Runs;
    var pc := s1.threads[t].pc;
    if Ignores(s1, t) {
      s' := s1.(threads := MoveTo(s1, t, Resume(pc.next)));
      NotifyMove(s1, s', t, t);
    } else {
      var s2 := s1.(threads := MoveTo(s1, t, pc.(at := WriteInfo)));
      NotifyMove(s1, s2, t, t);
      RunIsReachable(s1, s2, t);
      s' := FinishWrite(s2, t);
      RunsOn(s1, s2, s', t);
    }
    RunsOn(s, s1, s', t);
  }

  lemma FinishIncrement(s: State, t: ThreadId) returns (s': State)
    requires Reachable(s) && IsNotifier(s, t) && s.threads[t].pc.at.Increment?
    ensures Runs(s, s', t) && AfterNotify(s, s', t) && (Reaching(s, t) ==> Wakes(s, s'))
    ensures if s.info.None? then s'.info == s.info && s'.perf == s.perf
            else if Skipping(s, t) then LeavesSubscription(s, s')
            else TakesSubscription(s, s')
    ensures s'.num == s.num + 1
  {
    SlotFacts(s, t);
    hide Reachable, Runs;
    var s1 := s.(threads := MoveTo(s, t, s.threads[t].pc.(at := ReadInfo)), num := s.num + 1);
    NotifyMove(s, s1, t, t);
    RunIsReachable(s, s1, t);
    s' := FinishRead(s1, t);
    RunsOn(s, s1, s', t);
  }

  /**
   A notifier gets to the end of its notification. From its start it does nothing if the hint flag is down; otherwise it
   counts one notification, and then takes the subscriber info, wakes the performer and clears the flag if there is an
   info and it must not skip it, and leaves the subscription alone if it must.
   */
  lemma FinishNotify(s: State, t: ThreadId) returns (s': State)
    requires Reachable(s) && IsNotifier(s, t)
    ensures Runs(s, s', t) && AfterNotify(s, s', t) && (Reaching(s, t) ==> Wakes(s, s'))
    ensures s.threads[t].pc.at.LoadFlag? ==>
              if s.flag then s'.num == s.num + 1 else s'.num == s.num && LeavesSubscription(s, s')
    ensures !s.threads[t].pc.at.ClearFlag? && (s.threads[t].pc.at.LoadFlag? ==> s.flag) ==>
              if s.info.None? then s'.info == s.info && s'.perf == s.perf
              else if Skipping(s, t) then LeavesSubscription(s, s')
              else TakesSubscription(s, s')
    ensures Skipping(s, t) && !s.threads[t].pc.at.ClearFlag? ==> LeavesSubscription(s, s')
  {
    if s.perf.pc.Asleep? {
      SleeperIsVisible(s);
    }
    hide Reachable, Runs;
    var pc := s.threads[t].pc;
    match pc.at
    case LoadFlag =>
      var s1 := s.(threads := MoveTo(s, t, if s.flag then pc.(at := Increment) else Resume(pc.next)));
      NotifyMove(s, s1, t, t);
      RunIsReachable(s, s1, t);
      if s.flag {
        s' := FinishIncrement(s1, t);
        RunsOn(s, s1, s', t);
      } else {
        s' := s1;
      }
    case Increment => s' := FinishIncrement(s, t);
    case ReadInfo => s' := FinishRead(s, t);
    case WriteInfo => s' := FinishWrite(s, t);
    case ClearFlag => s' := FinishClear(s, t);
  }

  // ----- the rest of a hook, from every point of it -----

  /** Thread `t` gets to `pc`, with its slot if it has one there. */
  ghost predicate Gets(s: State, s': State, t: ThreadId, pc: HookPc) {
    && Runs(s, s', t) && IsThread(s', t) && s'.threads[t].pc == pc
    && (HasSlot(pc) ==> Tracked(s', t))
  }

  /** The drain, the fence and the notification that end a hook. */
  lemma FenceAndNotify(s: State, t: ThreadId, h: Hook, skipSelf: bool, next: Continuation) returns (s': State)
    requires Reachable(s) && Tracked(s, t) && !next.ToUntracked?
    requires var th, mem := s.threads[t].(buf := []), Latest(s.threads[t], Mem(s, t));
      HookStep(h, s.epoch, th, mem, th.(pc := Notifying(LoadFlag, skipSelf, next)), mem) && !h.EndPoll?
    ensures Gets(s, s', t, Resume(next))
    ensures Latest(s'.threads[t], Mem(s', t)) == Latest(s.threads[t], Mem(s, t))
    ensures if skipSelf && s.info == Some(t) then s'.info == s.info && s'.perf == s.perf else Wakes(s, s')
  {
    hide Reachable, Runs;
    var s1 := Drains(s, t);
    RunIsReachable(s, s1, t);
    var s2 := HookMove(s1, t, h, s1.threads[t].(pc := Notifying(LoadFlag, skipSelf, next)), Mem(s1, t));
    RunIsReachable(s1, s2, t);
    RunsOn(s, s1, s2, t);
    hide HookStep;
    s' := FinishNotify(s2, t);
    RunsOn(s, s2, s', t);
  }

  lemma FromEnterFence(s: State, t: ThreadId) returns (s': State)
    requires Reachable(s) && Tracked(s, t) && s.threads[t].pc.EnterFence?
    ensures Gets(s, s', t, Ready) && Wakes(s, s')
  {
    hide Reachable, Runs;
    s' := FenceAndNotify(s, t, FenceBeforeNotify, false, ToReady);
  }

  lemma FromEnterStore(s: State, t: ThreadId) returns (s': State)
    requires Reachable(s) && Tracked(s, t) && s.threads[t].pc.EnterStore?
    ensures Gets(s, s', t, Ready) && Wakes(s, s')
  {
    hide Reachable, Runs;
    var buf := s.threads[t].buf + [ThreadState(s.threads[t].pc.seen, true)];
    var s1 := HookMove(s, t, StoreSeen, s.threads[t].(pc := EnterFence, buf := buf), Mem(s, t));
    RunIsReachable(s, s1, t);
    s' := FromEnterFence(s1, t);
    RunsOn(s, s1, s', t);
  }

  lemma FromEnterLoad(s: State, t: ThreadId) returns (s': State)
    requires Reachable(s) && Tracked(s, t) && s.threads[t].pc.EnterLoad?
    ensures Gets(s, s', t, Ready) && Wakes(s, s')
  {
    hide Reachable, Runs;
    var s1 := HookMove(s, t, LoadAfterFence, s.threads[t].(pc := EnterStore(s.epoch)), Mem(s, t));
    RunIsReachable(s, s1, t);
    s' := FromEnterStore(s1, t);
    RunsOn(s, s1, s', t);
  }

  lemma FromEnter(s: State, t: ThreadId) returns (s': State)
    requires Reachable(s) && Tracked(s, t) && s.threads[t].pc.Enter?
    ensures Gets(s, s', t, Ready) && Wakes(s, s')
  {
    hide Reachable, Runs;
    var s1 := Drains(s, t);
    RunIsReachable(s, s1, t);
    var s2 := HookMove(s1, t, FenceAfterBusy, s1.threads[t].(pc := EnterLoad), Mem(s1, t));
    RunIsReachable(s1, s2, t);
    RunsOn(s, s1, s2, t);
    s' := FromEnterLoad(s2, t);
    RunsOn(s, s2, s', t);
  }

  /** `on_thread_unpark`. */
  lemma FromParked(s: State, t: ThreadId) returns (s': State)
    requires Reachable(s) && Tracked(s, t) && s.threads[t].pc.Parked?
    ensures Gets(s, s', t, Ready) && Wakes(s, s')
  {
    hide Reachable, Runs;
    var buf := s.threads[t].buf + [ThreadState(0, true)];
    var s1 := HookMove(s, t, MarkWaking, s.threads[t].(pc := Enter, buf := buf), Mem(s, t));
    RunIsReachable(s, s1, t);
    s' := FromEnter(s1, t);
    RunsOn(s, s1, s', t);
  }

  /** `on_before_task_poll` of a thread without a slot, up to its notification. */
  lemma FromUntracked(s: State, t: ThreadId) returns (s': State)
    requires Reachable(s) && IsThread(s, t) && s.threads[t].pc.Untracked?
    ensures Gets(s, s', t, Ready) && Wakes(s, s')
  {
    SlotFacts(s, t);
    hide Reachable, Runs;
    var taken := Slot(Some(ThreadState(0, true)), t);
    var s1 := s.(threads := s.threads[t := s.threads[t].(pc := Enter, slot := |s.slots|)], slots := s.slots + [taken]);
    assert DoAllocate(s, s1, t, |s.slots|);
    hide DoAllocate;
    StepIsRun(s, s1, AllocateOf(t, |s.slots|), t);
    RunIsReachable(s, s1, t);
    s' := FromEnter(s1, t);
    RunsOn(s, s1, s', t);
  }

  lemma FromLeaveFence(s: State, t: ThreadId) returns (s': State)
    requires Reachable(s) && Tracked(s, t) && s.threads[t].pc.LeaveFence?
    ensures Gets(s, s', t, Ready) && Wakes(s, s')
  {
    hide Reachable, Runs;
    s' := FenceAndNotify(s, t, FenceAfterPoll, false, ToReady);
  }

  /** The epoch id that the thread published last, in memory or not. */
  function Published(s: State, t: ThreadId): nat
    requires Tracked(s, t)
  {
    Latest(s.threads[t], Mem(s, t)).epoch
  }

  /** The rest of `on_after_task_poll`: it notifies if the epoch id is a new one, and publishes it in any case. */
  lemma FromLeaveStore(s: State, t: ThreadId) returns (s': State)
    requires Reachable(s) && Tracked(s, t) && s.threads[t].pc.LeaveStore?
    ensures Gets(s, s', t, Ready)
    ensures if Published(s, t) != s.threads[t].pc.seen then Wakes(s, s') else Published(s', t) == Published(s, t)
  {
    hide Reachable, Runs;
    var seen := s.threads[t].pc.seen;
    var pc := if Published(s, t) != seen then LeaveFence else Ready;
    var s1 := HookMove(s, t, StoreAfterPoll,
                       s.threads[t].(pc := pc, buf := s.threads[t].buf + [ThreadState(seen, true)]), Mem(s, t));
    RunIsReachable(s, s1, t);
    if Published(s, t) != seen {
      s' := FromLeaveFence(s1, t);
      RunsOn(s, s1, s', t);
    } else {
      s' := s1;
    }
  }

  lemma FromLeaveLoad(s: State, t: ThreadId) returns (s': State)
    requires Reachable(s) && Tracked(s, t) && s.threads[t].pc.LeaveLoad?
    ensures Gets(s, s', t, Ready) && (Published(s, t) != s.epoch ==> Wakes(s, s'))
  {
    hide Reachable, Runs;
    var s1 := HookMove(s, t, LoadAfterPoll, s.threads[t].(pc := LeaveStore(s.epoch)), Mem(s, t));
    RunIsReachable(s, s1, t);
    s' := FromLeaveStore(s1, t);
    RunsOn(s, s1, s', t);
  }

  /** The end of a task poll, and `on_after_task_poll`. */
  lemma FromInPoll(s: State, t: ThreadId) returns (s': State)
    requires Reachable(s) && Tracked(s, t) && s.threads[t].pc.InPoll? && !IsHost(s, t)
    ensures Gets(s, s', t, Ready) && (Published(s, t) != s.epoch ==> Wakes(s, s'))
  {
    HeldIsPerThread(s);
    hide Reachable, Runs;
    var s1 := EndsReads(s, t);
    RunIsReachable(s, s1, t);
    var th := s.threads[t].(pc := LeaveLoad, polls := s.threads[t].polls + 1);
    var s2 := HookMove(s1, t, EndPoll, th, Mem(s1, t));
    RunIsReachable(s1, s2, t);
    RunsOn(s, s1, s2, t);
    s' := FromLeaveLoad(s2, t);
    RunsOn(s, s2, s', t);
  }

  lemma HeldIsPerThread(s: State)
    requires Reachable(s)
    ensures |s.held| == |s.threads|
  {
    ReachableClientOk(s);
    hide Reachable, ClientInvariant.OwnershipOk, ClientInvariant.OldsGuarded;
  }

  /** The start of a task poll. */
  lemma FromReady(s: State, t: ThreadId) returns (s': State)
    requires Reachable(s) && Tracked(s, t) && s.threads[t].pc.Ready?
    ensures Gets(s, s', t, InPoll) && Published(s', t) == Published(s, t)
  {
    hide Reachable, Runs;
    s' := HookMove(s, t, BeginPoll, s.threads[t].(pc := InPoll), Mem(s, t));
  }

  lemma FromParkFence(s: State, t: ThreadId) returns (s': State)
    requires Reachable(s) && Tracked(s, t) && s.threads[t].pc.ParkFence?
    ensures Gets(s, s', t, Parked)
    ensures if s.info == Some(t) then s'.info == s.info && s'.perf == s.perf else Wakes(s, s')
  {
    SlotFacts(s, t);
    hide Reachable, Runs;
    s' := FenceAndNotify(s, t, FenceAfterPark, true, ToParked);
  }

  /** `on_thread_park`. It does not wake the performer that this thread polled last. */
  lemma Parks(s: State, t: ThreadId) returns (s': State)
    requires Reachable(s) && Tracked(s, t) && s.threads[t].pc.Ready?
    ensures Gets(s, s', t, Parked)
    ensures if s.info == Some(t) then s'.info == s.info && s'.perf == s.perf else Wakes(s, s')
  {
    hide Reachable, Runs;
    var s1 := Drains(s, t);
    RunIsReachable(s, s1, t);
    var s2 := HookMove(s1, t, MarkParked, s1.threads[t].(pc := ParkFence), Mem(s1, t).(busy := false));
    RunIsReachable(s1, s2, t);
    RunsOn(s, s1, s2, t);
    s' := FromParkFence(s2, t);
    RunsOn(s, s2, s', t);
  }

  lemma FromStopFence(s: State, t: ThreadId) returns (s': State)
    requires Reachable(s) && IsThread(s, t) && s.threads[t].pc.StopFence?
    ensures Gets(s, s', t, Untracked) && Wakes(s, s')
  {
    SlotFacts(s, t);
    hide Reachable, Runs;
    var s1 := s.(threads := s.threads[t := s.threads[t].(pc := Notifying(LoadFlag, false, ToUntracked))]);
    StepIsRun(s, s1, StopFenceOf(t), t);
    RunIsReachable(s, s1, t);
    s' := FinishNotify(s1, t);
    RunsOn(s, s1, s', t);
  }

  /** `on_thread_stop`. */
  lemma Stops(s: State, t: ThreadId) returns (s': State)
    requires Reachable(s) && Tracked(s, t) && s.threads[t].pc.Ready?
    ensures Gets(s, s', t, Untracked)
  {
    hide Reachable, Runs;
    var s1 := Drains(s, t);
    RunIsReachable(s, s1, t);
    var s2 := s1.(threads := s1.threads[t := s1.threads[t].(pc := StopFence)],
                  slots := s1.slots[s1.threads[t].slot := Slot(None, t)]);
    StepIsRun(s1, s2, ReleaseOf(t), t);
    RunIsReachable(s1, s2, t);
    RunsOn(s, s1, s2, t);
    s' := FromStopFence(s2, t);
    RunsOn(s, s2, s', t);
  }

  // ----- hook calls -----

  /** Between two hook calls. */
  predicate AtRest(s: State, t: ThreadId) {
    && IsThread(s, t)
    && var pc := s.threads[t].pc;
       pc.Untracked? || pc.Ready? || pc.InPoll? || pc.Parked?
  }

  predicate Does(s: State, t: ThreadId, a: Activity) {
    AtRest(s, t) && ActivityOf(s.threads[t].pc) == a
  }

  lemma UntrackedCallRuns(s: State, t: ThreadId, call: HookCall) returns (s': State)
    requires Reachable(s) && IsThread(s, t) && s.threads[t].pc.Untracked? && After(NoSlot, call).Some?
    ensures Runs(s, s', t) && Does(s', t, After(NoSlot, call).value)
  {
    hide Reachable, Runs;
    if call.BeforeTaskPoll? {
      var s1 := FromUntracked(s, t);
      RunIsReachable(s, s1, t);
      s' := FromReady(s1, t);
      RunsOn(s, s1, s', t);
    } else {
      StayingIsRun(s, t);
      s' := s;
    }
  }

  lemma ReadyCallRuns(s: State, t: ThreadId, call: HookCall) returns (s': State)
    requires Reachable(s) && Tracked(s, t) && s.threads[t].pc.Ready? && After(Running, call).Some?
    ensures Runs(s, s', t) && Does(s', t, After(Running, call).value)
  {
    hide Reachable, Runs;
    if call.BeforeTaskPoll? {
      s' := FromReady(s, t);
    } else if call.ThreadPark? {
      s' := Parks(s, t);
    } else {
      s' := Stops(s, t);
    }
  }

  /** Every hook call that is allowed at rest is a run of the thread to the next point of rest. */
  lemma AllowedCallRuns(s: State, t: ThreadId, call: HookCall) returns (s': State)
    requires Reachable(s) && AtRest(s, t) && !IsHost(s, t) && After(ActivityOf(s.threads[t].pc), call).Some?
    ensures Runs(s, s', t) && Does(s', t, After(ActivityOf(s.threads[t].pc), call).value)
  {
    SlotFacts(s, t);
    hide Reachable, Runs, LocalOk, IsHost;
    if s.threads[t].pc.Untracked? {
      s' := UntrackedCallRuns(s, t, call);
    } else if s.threads[t].pc.Ready? {
      s' := ReadyCallRuns(s, t, call);
    } else if s.threads[t].pc.InPoll? {
      s' := FromInPoll(s, t);
    } else {
      s' := FromParked(s, t);
    }
  }

  /** The thread makes the hook calls one after the other, each a run that ends as the order of the hooks says. */
  ghost predicate CallRuns(s: State, t: ThreadId, calls: seq<HookCall>, s': State)
    decreases |calls|
  {
    if calls == [] then s' == s
    else
      AtRest(s, t) &&
      exists mid: State ::
        && Runs(s, mid, t) && AtRest(mid, t)
        && After(ActivityOf(s.threads[t].pc), calls[0]) == Some(ActivityOf(mid.threads[t].pc))
        && CallRuns(mid, t, calls[1..], s')
  }

  /** Every sequence of hook calls that the order allows is a run of the protocol. */
  lemma {:induction false} AllowedCallsRun(s: State, t: ThreadId, calls: seq<HookCall>) returns (s': State)
    requires Reachable(s) && AtRest(s, t) && !IsHost(s, t) && AfterAll(ActivityOf(s.threads[t].pc), calls).Some?
    ensures CallRuns(s, t, calls, s') && Runs(s, s', t)
    ensures Does(s', t, AfterAll(ActivityOf(s.threads[t].pc), calls).value)
    decreases |calls|
  {
    hide Reachable, Runs, ActivityOf, After;
    if calls == [] {
      StayingIsRun(s, t);
      s' := s;
    } else {
      var mid := AllowedCallRuns(s, t, calls[0]);
      RunIsReachable(s, mid, t);
      s' := AllowedCallsRun(mid, t, calls[1..]);
      RunsOn(s, mid, s', t);
    }
  }

  /** Two sequences of hook calls in a row are one. */
  lemma {:induction false} JoinCalls(s: State, t: ThreadId, first: seq<HookCall>, mid: State,
      second: seq<HookCall>, s': State)
    requires CallRuns(s, t, first, mid) && CallRuns(mid, t, second, s')
    ensures CallRuns(s, t, first + second, s')
    decreases |first|
  {
    hide Reachable, Runs;
    if first == [] {
      assert first + second == second;
    } else {
      var next: State :|
        && Runs(s, next, t) && AtRest(next, t)
        && After(ActivityOf(s.threads[t].pc), first[0]) == Some(ActivityOf(next.threads[t].pc))
        && CallRuns(next, t, first[1..], mid);
      JoinCalls(next, t, first[1..], mid, second, s');
      assert (first + second)[1..] == first[1..] + second;
    }
  }
}
