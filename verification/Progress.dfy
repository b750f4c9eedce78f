/** From every reachable state with an unfinished call, some thread can bring a call or the performer a step further. */
module Progress {
  import opened Common
  import opened ThreadStates
  import opened Protocol
  import opened ThreadInvariant
  import opened PerformerInvariant
  import opened CallInvariant
  import opened ChannelInvariant
  import opened WakeInvariant
  import opened Invariant
  import opened Resets
  import opened Wakeups
  import opened HookRuns

  // ----- a thread gets to its next task poll -----

  /** From any point of its hooks a thread gets to a point of rest. */
  lemma ComesToRest(s: State, t: ThreadId) returns (s': State)
    requires Reachable(s) && IsThread(s, t)
    ensures Runs(s, s', t) && AtRest(s', t)
  {
    SlotFacts(s, t);
    hide Reachable, Runs, LocalOk;
    match s.threads[t].pc
    case Enter => s' := FromEnter(s, t);
    case EnterLoad => s' := FromEnterLoad(s, t);
    case EnterStore(_) => s' := FromEnterStore(s, t);
    case EnterFence => s' := FromEnterFence(s, t);
    case LeaveLoad => s' := FromLeaveLoad(s, t);
    case LeaveStore(_) => s' := FromLeaveStore(s, t);
    case LeaveFence => s' := FromLeaveFence(s, t);
    case ParkFence => s' := FromParkFence(s, t);
    case StopFence => s' := FromStopFence(s, t);
    case Notifying(_, _, _) => s' := FinishNotify(s, t);
    case _ =>
      StayingIsRun(s, t);
      s' := s;
  }

  /** Every thread can get into a task poll. */
  lemma GetsPolled(s: State, t: ThreadId) returns (s': State)
    requires Reachable(s) && IsThread(s, t)
    ensures Runs(s, s', t) && Polling(s', t)
  {
    var s1 := ComesToRest(s, t);
    RunIsReachable(s, s1, t);
    SlotFacts(s1, t);
    hide Reachable, Runs, LocalOk;
    if s1.threads[t].pc.InPoll? {
      s' := s1;
    } else {
      var s2 := s1;
      if s1.threads[t].pc.Untracked? {
        s2 := FromUntracked(s1, t);
        RunIsReachable(s1, s2, t);
      } else if s1.threads[t].pc.Parked? {
        s2 := FromParked(s1, t);
        RunIsReachable(s1, s2, t);
      } else {
        StayingIsRun(s1, t);
      }
      s' := FromReady(s2, t);
      RunsOn(s1, s2, s', t);
      RunsOn(s, s1, s', t);
    }
  }

  // ----- the sleeping performer is woken -----

  /** A thread whose published epoch id is not the current one notifies when it leaves its next task poll. */
  lemma StaleThreadWakes(s: State, t: ThreadId) returns (s': State)
    requires Reachable(s) && Tracked(s, t) && s.perf.pc.Asleep? && Published(s, t) != s.epoch
    requires s.threads[t].pc.Ready? || s.threads[t].pc.InPoll?
    ensures Runs(s, s', t) && s'.perf.woken
  {
    hide Reachable, Runs;
    if s.threads[t].pc.InPoll? {
      s' := FromInPoll(s, t);
      RunIsReachable(s, s', t);
    } else {
      var s1 := FromReady(s, t);
      RunIsReachable(s, s1, t);
      s' := FromInPoll(s1, t);
      RunIsReachable(s1, s', t);
      RunsOn(s, s1, s', t);
    }
  }

  /** A thread that fails the scan wakes the performer. */
  lemma FailingThreadWakes(s: State, t: ThreadId) returns (s': State)
    requires Reachable(s) && s.perf.pc.Asleep? && Failing(s, t)
    ensures Runs(s, s', t) && s'.perf.woken
  {
    SlotFacts(s, t);
    FailingIsStale(s, t);
    hide Reachable, Runs, Failing;
    var pc := s.threads[t].pc;
    if pc.Ready? || pc.InPoll? {
      s' := StaleThreadWakes(s, t);
    } else {
      var s1 := FailingFinishesHook(s, t);
      RunIsReachable(s, s1, t);
      if s1.perf.woken {
        s' := s1;
      } else {
        s' := StaleThreadWakes(s1, t);
        RunsOn(s, s1, s', t);
      }
    }
  }

  lemma FailingIsStale(s: State, t: ThreadId)
    requires Reachable(s) && s.perf.pc.Asleep? && Failing(s, t)
    ensures Published(s, t) != s.epoch && Latest(s.threads[t], Mem(s, t)).busy
  {
    ReachableCoreOk(s);
    hide Reachable, SlotsOk, FreshOk;
  }

  /** In the middle of a hook, a stale thread wakes the performer, or gets ready for a task poll and is still stale. */
  lemma FailingFinishesHook(s: State, t: ThreadId) returns (s': State)
    requires Reachable(s) && s.perf.pc.Asleep? && Tracked(s, t) && LocalOk(s.cfg, s.threads[t], Mem(s, t))
    requires Published(s, t) != s.epoch && Latest(s.threads[t], Mem(s, t)).busy
    requires !s.threads[t].pc.Ready? && !s.threads[t].pc.InPoll?
    ensures Runs(s, s', t)
    ensures s'.perf.woken || (Tracked(s', t) && s'.threads[t].pc.Ready? && Published(s', t) != s'.epoch)
  {
    hide Reachable, Runs;
    match s.threads[t].pc {
      case Enter => s' := FromEnter(s, t);
      case EnterLoad => s' := FromEnterLoad(s, t);
      case EnterStore(_) => s' := FromEnterStore(s, t);
      case EnterFence => s' := FromEnterFence(s, t);
      case LeaveLoad => s' := FromLeaveLoad(s, t);
      case LeaveStore(_) => s' := FromLeaveStore(s, t);
      case LeaveFence => s' := FromLeaveFence(s, t);
      case Notifying(_, _, _) => s' := FinishNotify(s, t);
      case _ => assert false;
    }
    RunIsReachable(s, s', t);
  }

  /** The thread that NoLostWakeup names wakes the performer by going through with its hook. */
  lemma SleeperCanBeWoken(s: State) returns (s': State, t: ThreadId)
    requires Reachable(s) && s.perf.pc.Asleep? && !s.perf.woken
    ensures IsThread(s, t) && Runs(s, s', t) && s'.perf.woken
  {
    hide Reachable, Runs;
    t := WhoWakes(s);
    if Failing(s, t) {
      s' := FailingThreadWakes(s, t);
    } else {
      s' := NotifyingThreadWakes(s, t);
    }
  }

  lemma WhoWakes(s: State) returns (t: ThreadId)
    requires Reachable(s) && s.perf.pc.Asleep? && !s.perf.woken
    ensures IsThread(s, t) && WillWake(s, t)
  {
    ReachableChannelOk(s);
    ReachableWakeOk(s);
    hide Reachable;
    assert s.info.Some?;
    t :| 0 <= t < |s.threads| && WillWake(s, t);
  }

  lemma NotifyingThreadWakes(s: State, t: ThreadId) returns (s': State)
    requires Reachable(s) && s.perf.pc.Asleep? && IsThread(s, t)
    requires InFlight(s.threads[t].pc) && !(SkipsSelf(s.threads[t].pc) && s.info == Some(t))
    ensures Runs(s, s', t) && s'.perf.woken
  {
    SlotFacts(s, t);
    hide Reachable, Runs, LocalOk;
    match s.threads[t].pc {
      case EnterFence => s' := FromEnterFence(s, t);
      case LeaveFence => s' := FromLeaveFence(s, t);
      case ParkFence => s' := FromParkFence(s, t);
      case StopFence => s' := FromStopFence(s, t);
      case Notifying(_, _, _) => s' := FinishNotify(s, t);
    }
  }

  // ----- the whole system -----

  /** A step of an unfinished call or of the performer. The sleeping performer goes on only if it was woken. */
  ghost predicate Advances(s: State, s': State) {
    && Next(s, s')
    && (|| (exists j: CallId :: IsCall(s, j) && Unfinished(s.calls[j].pc) && CallStep(s, s', j)
                        && (s.calls[j].pc.WantRead? ==> !WriterAhead(s.calls)))
        || Helps(s, s')
        || (s.perf.woken && exists t :: DoResume(s, s', t)))
  }

  /**
   Nothing is ever stuck. From every reachable state with an unfinished call, the steps of one thread inside of its
   hooks, or none at all, lead to a state in which a call or the performer advances. Locks that prefer waiting writers
   are allowed for, and a sleeping performer is really woken first.
   */
  lemma SystemProgresses(s: State, k: CallId) returns (t: ThreadId, mid: State, s': State)
    requires Reachable(s) && IsCall(s, k) && Unfinished(s.calls[k].pc) && |s.threads| > 0
    ensures IsThread(s, t) && Runs(s, mid, t) && Advances(mid, s')
  {
    var j: CallId;
    j, s' := CallsNeverDeadlock(s, k);
    hide Reachable, Runs, CallStep, Next, WriterAhead, Helps;
    t, mid := 0, s;
    if s.calls[j].pc.Performing? {
      t, mid, s' := PerformerProgresses(s, j);
    } else if s.calls[j].pc.StartPerforming? && forall u :: !Polling(s, u) {
      mid := GetsPolled(s, 0);
      RunIsReachable(s, mid, 0);
      s' := SerializedStep(mid, j, 0);
      assert CallStep(mid, s', j);
    } else {
      StayingIsRun(s, 0);
    }
  }

  lemma PerformerProgresses(s: State, j: CallId) returns (t: ThreadId, mid: State, s': State)
    requires Reachable(s) && IsCall(s, j) && s.calls[j].pc.Performing? && |s.threads| > 0
    ensures IsThread(s, t) && Runs(s, mid, t) && Advances(mid, s')
  {
    PerformerIsOn(s, j);
    hide Reachable, Runs, Helps;
    t, mid := 0, s;
    if s.perf.pc.Finished? {
      StayingIsRun(s, 0);
      s' := SerializedStep(s, j, 0);
    } else if s.perf.pc.Asleep? {
      t, mid, s' := SleeperProgresses(s);
    } else {
      StayingIsRun(s, 0);
      s' := PerformerNeverStuck(s);
    }
    hide Next, CallStep;
  }

  lemma PerformerIsOn(s: State, j: CallId)
    requires Reachable(s) && IsCall(s, j) && s.calls[j].pc.Performing?
    ensures !s.perf.pc.Off?
  {
    ReachableCallsOk(s);
    hide Reachable, LocksOk, CountersOk, DistinctOk, LeadersOk;
  }

  /** The performer is woken and polled again. */
  lemma SleeperProgresses(s: State) returns (t: ThreadId, mid: State, s': State)
    requires Reachable(s) && s.perf.pc.Asleep? && |s.threads| > 0
    ensures IsThread(s, t) && Runs(s, mid, t) && Advances(mid, s')
  {
    hide Reachable, Runs, Helps, CallStep;
    var s1 := s;
    t := 0;
    if s.perf.woken {
      StayingIsRun(s, t);
    } else {
      s1, t := SleeperCanBeWoken(s);
      RunIsReachable(s, s1, t);
    }
    mid := GetsPolled(s1, t);
    RunIsReachable(s1, mid, t);
    RunsOn(s, s1, mid, t);
    s' := mid.(perf := mid.perf.(pc := FirstCheck, host := t, woken := false));
    assert DoResume(mid, s', t);
    assert NextBy(mid, s', ResumeOf(t));
    hide NextBy, DoResume;
  }
}
