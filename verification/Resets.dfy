/** Batching, and the reset of the id counters, on every run. */
module Resets {
  import opened Common
  import opened Protocol
  import opened PerformerInvariant
  import opened CallInvariant
  import opened CoverInvariant
  import opened Invariant
  import opened GracePeriods

  // ----- batching -----

  /** A call that finds its id covered returns without a grace period of its own, and needs none. */
  lemma CoveredCallNeedsNoGracePeriod(s: State, s': State, k: CallId, t: ThreadId)
    requires Reachable(s) && DoSerialized(s, s', k, t) && s.calls[k].pc.CheckFinished? && s'.calls[k].pc.Unlock?
    ensures Ended(s.threads, s.calls[k].snap) && s.calls[k].id <= s.finished
  {
    ReachableCoverOk(s);
    hide Reachable, Ended, Progress, SnapOk;
  }

  /**
   What a performer publishes covers exactly the calls it performed for: every id up to the sampled value was
   taken before the value was read, and all polls recorded with it have ended. This includes the sampled
   maximum of a pending reset.
   */
  lemma PublishedIdsAreCovered(s: State, s': State, p: CallId, t: ThreadId, k: CallId)
    requires Reachable(s) && DoSerialized(s, s', p, t) && s.calls[p].pc.Performing?
    requires IsCall(s, k) && HasId(s.calls[k].pc) && s.calls[k].id <= s'.finished
    ensures Ended(s.threads, s.calls[k].snap) && s.calls[p].id <= s'.finished <= s.started
  {
    ReachableCallsOk(s);
    assert CallOk(s.cfg, s.calls[p], s.started, s.finished) && s'.finished == s.calls[p].sampled && s.perf.pc.Finished?;
    hide CallsOk, DoSerialized;
    ReachableCoverOk(s);
    hide Reachable, Ended, SnapOk;
    assert Progress(s, s.calls[k].snap);
  }

  /** A new id is larger than everything published, and than everything a performer may publish. */
  lemma NewIdsAreNeverCovered(s: State, s': State, k: CallId, p: CallId)
    requires Reachable(s) && DoTakeId(s, s', k) && s'.calls[k].pc.WantMutex?
    ensures s'.calls[k].id > s'.finished
    ensures IsCall(s, p) && s.calls[p].pc.Performing? ==> s.calls[p].sampled < s'.calls[k].id
  {
    ReachableCallsOk(s);
    hide Reachable;
    NewIdIsUncovered(s, s', k);
    hide CallsOk, DoTakeId;
  }

  /** No call has the maximum as its id, live ids are distinct, and at most one call performs. */
  lemma LiveIdsAreDistinct(s: State, j: CallId, k: CallId)
    requires Reachable(s) && IsCall(s, j) && IsCall(s, k) && HasId(s.calls[j].pc) && HasId(s.calls[k].pc)
    ensures 1 <= s.calls[j].id <= s.started && s.calls[j].id < s.cfg.gpMax
    ensures s.calls[j].id == s.calls[k].id ==> j == k
    ensures s.calls[j].pc.Performing? && s.calls[k].pc.Performing? ==> j == k
  {
    ReachableCallsOk(s);
    hide Reachable;
    assert CallOk(s.cfg, s.calls[j], s.started, s.finished);
    hide LeadersOk, PerformerLinked;
  }

  // ----- the reset -----

  /** The counter is at its maximum exactly while one call leads a reset that has not stored to the counters yet. */
  lemma FullCounterHasOneLeader(s: State)
    requires Reachable(s)
    ensures s.started == s.cfg.gpMax <==> exists k | 0 <= k < |s.calls| :: PendingLeader(s.calls[k].pc)
    ensures forall j, k | 0 <= j < |s.calls| && 0 <= k < |s.calls| ::
              PendingLeader(s.calls[j].pc) && PendingLeader(s.calls[k].pc) ==> j == k
  {
    ReachableCallsOk(s);
    hide Reachable, LocksOk, PerformerLinked;
    assert forall k | 0 <= k < |s.calls| :: CallOk(s.cfg, s.calls[k], s.started, s.finished);
  }

  /** The counters are stored to only while no call holds an id of the old generation. */
  lemma ResetExcludesLiveIds(s: State, k: CallId, j: CallId)
    requires Reachable(s) && IsCall(s, k) && HoldsWrite(s.calls[k].pc) && IsCall(s, j)
    ensures !HasId(s.calls[j].pc) && !HoldsRead(s.calls[j].pc) && (j != k ==> !HoldsWrite(s.calls[j].pc))
    ensures s.perf.pc.Off?
  {
    ReachableCallsOk(s);
    hide Reachable, CountersOk, DistinctOk, LeadersOk;
    assert forall i | 0 <= i < |s.calls| :: !s.calls[i].pc.Performing?;
  }

  /**
   The finished counter never overtakes the started counter, except between the two stores of a reset: there
   the started counter is 0 already, and the finished counter still holds its old value. So the order holds in a
   reachable state if and only if no reset is between its stores, or nothing was published before it.
   */
  lemma FinishedOvertakesOnlyInsideReset(s: State)
    requires Reachable(s)
    ensures s.finished <= s.started <==> (!SomeResetWindow(s.calls) || s.finished == 0)
  {
    ReachableCallsOk(s);
    hide Reachable, LocksOk, DistinctOk, LeadersOk, PerformerLinked;
    assert forall k | 0 <= k < |s.calls| :: CallOk(s.cfg, s.calls[k], s.started, s.finished);
  }

  /** Nobody can see the two counters out of order: while they are, no call is in a place where it reads either. */
  lemma NobodyReadsCountersInsideReset(s: State, j: CallId)
    requires Reachable(s) && s.finished > s.started && IsCall(s, j)
    ensures !s.calls[j].pc.TryIncrement? && !s.calls[j].pc.CheckFinished? && !s.calls[j].pc.LoadStarted?
  {
    FinishedOvertakesOnlyInsideReset(s);
    var k :| 0 <= k < |s.calls| && s.calls[k].pc.LeadResetFinished?;
    ResetExcludesLiveIds(s, k, j);
    hide Reachable;
  }

  /** A follower that has not been notified yet has a leader that is still to notify. */
  lemma FollowerHasLeader(s: State, k: CallId)
    requires Reachable(s) && IsCall(s, k) && Waits(s.calls[k])
    ensures exists j | 0 <= j < |s.calls| :: Leader(s.calls[j].pc)
  {
    ReachableCallsOk(s);
    hide Reachable, LocksOk, DistinctOk, PerformerLinked, CountersOk;
  }

  /** A follower that has not been notified, from the moment on at which it found the counter full. */
  predicate Following(c: Call) { c.pc.FollowSubscribe? || Waits(c) }

  /** In this step the leader `l` notifies all followers and goes on to take an id itself. */
  predicate LeaderNotifies(s: State, s': State, l: CallId) {
    IsCall(s, l) && IsCall(s', l) && s.calls[l].pc.LeadNotify? && s'.calls[l].pc.WantRead?
  }

  ghost predicate KeepsFollowing(s: State, s': State, k: CallId)
    requires IsCall(s, k)
  {
    && IsCall(s', k)
    && (Following(s.calls[k]) ==> Following(s'.calls[k]) || exists l :: LeaderNotifies(s, s', l))
  }

  lemma UpdateKeepsFollowing(s: State, s': State, j: CallId, c: Call, k: CallId)
    requires IsCall(s, j) && IsCall(s, k) && s'.calls == s.calls[j := c]
    requires Following(s.calls[j]) ==> Following(c)
    ensures KeepsFollowing(s, s', k)
  {
  }

  lemma CallStepKeepsFollowing(s: State, s': State, step: Step, k: CallId)
    requires NextBy(s, s', step) && ByCall(step) && IsCall(s, k)
    ensures KeepsFollowing(s, s', k)
  {
    hide KeepsFollowing, NoWriter, NoReader, MutexFree, PollsInProgress, DoLead;
    if step.LeadOf? {
      LeadKeepsFollowing(s, s', step.k, k);
    } else {
      UpdateKeepsFollowing(s, s', step.k, s'.calls[step.k], k);
    }
  }

  lemma LeadKeepsFollowing(s: State, s': State, l: CallId, k: CallId)
    requires DoLead(s, s', l) && IsCall(s, k)
    ensures KeepsFollowing(s, s', k)
  {
    hide NoWriter, NoReader;
    if s.calls[l].pc.LeadNotify? {
      assert LeaderNotifies(s, s', l);
    } else {
      UpdateKeepsFollowing(s, s', l, s'.calls[l], k);
    }
  }

  lemma StepKeepsFollowing(s: State, s': State, k: CallId)
    requires Next(s, s') && IsCall(s, k)
    ensures KeepsFollowing(s, s', k)
  {
    var step :| NextBy(s, s', step);
    hide NextBy;
    if ByCall(step) {
      CallStepKeepsFollowing(s, s', step, k);
    } else {
      OtherStepsKeepCalls(s, s', step);
    }
  }

  /** On every run, a follower goes on only after a leader has notified its followers in a step of its own. */
  lemma {:induction false} FollowerWaitsForLeader(run: seq<State>, b: nat, j: nat, k: CallId)
      returns (m: nat, l: CallId)
    requires IsRun(run) && b <= j < |run| && IsCall(run[b], k) && Following(run[b].calls[k])
    requires IsCall(run[j], k) && !Following(run[j].calls[k])
    ensures b <= m < j && l != k && LeaderNotifies(run[m], run[m + 1], l)
  {
    hide IsRun, Next, Following;
    RunKeepsCalls(run, b, j - 1, k);
    RunStep(run, j - 1);
    StepKeepsFollowing(run[j - 1], run[j], k);
    if Following(run[j - 1].calls[k]) {
      m := j - 1;
      l :| LeaderNotifies(run[m], run[m + 1], l);
      assert l != k by { FollowerIsNoLeader(run[m], k); }
    } else {
      m, l := FollowerWaitsForLeader(run, b, j - 1, k);
    }
  }

  lemma FollowerIsNoLeader(s: State, k: CallId)
    requires IsCall(s, k) && Following(s.calls[k])
    ensures !s.calls[k].pc.LeadNotify?
  {
  }

  lemma {:induction false} RunKeepsCalls(run: seq<State>, b: nat, j: nat, k: CallId)
    requires IsRun(run) && b <= j < |run| && IsCall(run[b], k)
    ensures IsCall(run[j], k)
  {
    hide IsRun, Next;
    if b < j {
      RunKeepsCalls(run, b, j - 1, k);
      RunStep(run, j - 1);
      StepKeepsFollowing(run[j - 1], run[j], k);
    }
  }

  // ----- no deadlock among the calls -----

  predicate Unfinished(pc: CallPc) {
    !pc.Idle? && !pc.Done?
  }

  /** A writer holds the reset lock or queues for it; a fair lock makes new readers wait for either. */
  ghost predicate WriterAhead(calls: seq<Call>) {
    exists j | 0 <= j < |calls| :: HoldsWrite(calls[j].pc) || calls[j].pc.LeadWantWrite?
  }

  /** Nothing that belongs to the calls holds this one back, even if readers queue behind waiting writers. */
  ghost predicate CanStep(calls: seq<Call>, k: CallId)
    requires k < |calls|
  {
    match calls[k].pc
    case WantRead => !WriterAhead(calls)
    case LeadWantWrite => NoReader(calls) && NoWriter(calls)
    case FollowWait => calls[k].notified
    case WantMutex => MutexFree(calls)
    case pc => Unfinished(pc) && !pc.Performing?
  }

  /** Call `k` takes a step of its own. */
  ghost predicate CallStep(s: State, s': State, k: CallId) {
    || DoTakeId(s, s', k) || DoLead(s, s', k) || DoFollow(s, s', k) || DoReturn(s, s', k)
    || exists t :: DoSerialized(s, s', k, t)
  }

  /** A call that nothing holds back has a step in the protocol; starting to perform takes a thread in a task poll. */
  lemma CanStepTakesStep(s: State, k: CallId, t: ThreadId) returns (s': State)
    requires IsCall(s, k) && CanStep(s.calls, k) && (s.calls[k].pc.StartPerforming? ==> Polling(s, t))
    ensures CallStep(s, s', k) && Next(s, s')
  {
    var c := s.calls[k];
    match c.pc {
      case WantRead => s' := TakeIdStep(s, k);
      case TryIncrement => s' := TakeIdStep(s, k);
      case LeadNotify => s' := LeadStep(s, k);
      case LeadRelease => s' := LeadStep(s, k);
      case LeadWantWrite => s' := LeadStep(s, k);
      case LeadResetStarted => s' := LeadStep(s, k);
      case LeadResetFinished => s' := LeadStep(s, k);
      case LeadUnlock => s' := LeadStep(s, k);
      case FollowSubscribe => s' := FollowStep(s, k);
      case FollowRelease => s' := FollowStep(s, k);
      case FollowWait => s' := FollowStep(s, k);
      case Release =>
        s' := s.(calls := s.calls[k := c.(pc := Done, olds := {})], owned := s.owned + c.olds);
        assert NextBy(s, s', ReturnOf(k));
      case _ => s' := SerializedStep(s, k, t);
    }
  }

  lemma TakeIdStep(s: State, k: CallId) returns (s': State)
    requires IsCall(s, k) && (s.calls[k].pc.TryIncrement? || (s.calls[k].pc.WantRead? && NoWriter(s.calls)))
    ensures DoTakeId(s, s', k) && Next(s, s')
  {
    var c := s.calls[k];
    s' := if c.pc.WantRead? then s.(calls := Goto(s, k, TryIncrement))
          else if s.started >= s.cfg.gpMax then s.(calls := Goto(s, k, FollowSubscribe))
          else if s.started + 1 == s.cfg.gpMax then s.(started := s.started + 1, calls := Goto(s, k, LeadRelease))
          else s.(started := s.started + 1,
                  calls := s.calls[k := c.(pc := WantMutex, id := s.started + 1, snap := PollsInProgress(s.threads))]);
    assert NextBy(s, s', TakeIdOf(k));
  }

  lemma LeadStep(s: State, k: CallId) returns (s': State)
    requires IsCall(s, k) && Leader(s.calls[k].pc)
    requires s.calls[k].pc.LeadWantWrite? ==> NoReader(s.calls) && NoWriter(s.calls)
    ensures DoLead(s, s', k) && Next(s, s')
  {
    match s.calls[k].pc {
      case LeadRelease => s' := s.(calls := Goto(s, k, LeadWantWrite));
      case LeadWantWrite => s' := s.(calls := Goto(s, k, LeadResetStarted));
      case LeadResetStarted => s' := s.(started := 0, calls := Goto(s, k, LeadResetFinished));
      case LeadResetFinished => s' := s.(finished := 0, calls := Goto(s, k, LeadUnlock));
      case LeadUnlock => s' := s.(calls := Goto(s, k, LeadNotify));
      case LeadNotify => s' := s.(calls := NotifyFollowers(s.calls)[k := s.calls[k].(pc := WantRead)]);
    }
    assert NextBy(s, s', LeadOf(k));
  }

  lemma FollowStep(s: State, k: CallId) returns (s': State)
    requires IsCall(s, k)
    requires var c := s.calls[k]; c.pc.FollowSubscribe? || c.pc.FollowRelease? || (c.pc.FollowWait? && c.notified)
    ensures DoFollow(s, s', k) && Next(s, s')
  {
    match s.calls[k].pc {
      case FollowSubscribe => s' := s.(calls := s.calls[k := s.calls[k].(pc := FollowRelease, notified := false)]);
      case FollowRelease => s' := s.(calls := Goto(s, k, FollowWait));
      case FollowWait => s' := s.(calls := Goto(s, k, WantRead));
    }
    assert NextBy(s, s', FollowOf(k));
  }

  lemma SerializedStep(s: State, k: CallId, t: ThreadId) returns (s': State)
    requires IsCall(s, k)
    requires match s.calls[k].pc
      case WantMutex => MutexFree(s.calls)
      case StartPerforming => Polling(s, t)
      case Performing => s.perf.pc.Finished?
      case pc => pc.CheckFinished? || pc.LoadStarted? || pc.Unlock?
    ensures DoSerialized(s, s', k, t) && Next(s, s')
  {
    var c := s.calls[k];
    match c.pc {
      case WantMutex => s' := s.(calls := Goto(s, k, CheckFinished));
      case CheckFinished => s' := s.(calls := Goto(s, k, if s.finished >= c.id then Unlock else LoadStarted));
      case LoadStarted => s' := s.(calls := s.calls[k := c.(pc := StartPerforming, sampled := s.started)]);
      case StartPerforming => s' := s.(calls := Goto(s, k, Performing), perf := s.perf.(pc := LoadEpoch, host := t));
      case Performing => s' := s.(finished := c.sampled, calls := Goto(s, k, Unlock), perf := s.perf.(pc := Off));
      case Unlock => s' := s.(calls := Goto(s, k, Release));
    }
    assert NextBy(s, s', SerializedOf(k, t));
  }

  /**
   The reset lock, the mutex and the reset notification never block all unfinished calls on each other: one of them
   takes a step, performs a grace period, or is about to perform one and no thread is in a task poll to begin with it.
   */
  lemma CallsNeverDeadlock(s: State, k: CallId) returns (j: CallId, s': State)
    requires Reachable(s) && IsCall(s, k) && Unfinished(s.calls[k].pc)
    ensures IsCall(s, j) && Unfinished(s.calls[j].pc)
    ensures || (CallStep(s, s', j) && Next(s, s') && (s.calls[j].pc.WantRead? ==> !WriterAhead(s.calls)))
            || s.calls[j].pc.Performing?
            || (s.calls[j].pc.StartPerforming? && forall t :: !Polling(s, t))
  {
    ReachableCallsOk(s);
    hide Reachable, CallStep;
    j := FindStep(s.cfg, s.calls, s.started, k);
    hide CallsOk;
    s' := s;
    if !s.calls[j].pc.Performing? {
      if s.calls[j].pc.StartPerforming? {
        if t :| Polling(s, t) {
          s' := CanStepTakesStep(s, j, t);
        }
      } else {
        s' := CanStepTakesStep(s, j, 0);
      }
    }
  }

  lemma FindStep(cfg: Config, calls: seq<Call>, started: nat, k: CallId) returns (j: CallId)
    requires LeadersOk(cfg, calls, started) && k < |calls| && Unfinished(calls[k].pc)
    ensures j < |calls| && Unfinished(calls[j].pc) && (CanStep(calls, j) || calls[j].pc.Performing?)
  {
    j := k;
    if i :| 0 <= i < |calls| && (CanStep(calls, i) || calls[i].pc.Performing?) {
      j := i;
    } else {
      assert forall i | 0 <= i < |calls| :: !CanStep(calls, i) && !calls[i].pc.Performing?;
      NobodyHoldsLocks(calls);
      NobodyWaitsForWrite(calls);
      if calls[k].pc.FollowWait? {
        assert Waits(calls[k]);
        var l :| 0 <= l < |calls| && Leader(calls[l].pc);
        assert CanStep(calls, l);
      }
    }
  }

  lemma NobodyHoldsLocks(calls: seq<Call>)
    requires forall i | 0 <= i < |calls| :: !CanStep(calls, i) && !calls[i].pc.Performing?
    ensures MutexFree(calls) && NoReader(calls) && NoWriter(calls)
  {
    forall i | 0 <= i < |calls|
      ensures !HoldsMutex(calls[i].pc)
    {
    }
    forall i | 0 <= i < |calls|
      ensures !HoldsRead(calls[i].pc) && !HoldsWrite(calls[i].pc)
    {
    }
  }

  lemma NobodyWaitsForWrite(calls: seq<Call>)
    requires forall i | 0 <= i < |calls| :: !CanStep(calls, i) && !calls[i].pc.Performing?
    ensures !WriterAhead(calls)
  {
    NobodyHoldsLocks(calls);
  }
}
