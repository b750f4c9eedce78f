/**
 Runs of the protocol for every width of the counters: one grace period that serves every id there is, the leader of a
 reset after it, and an overflow of the epoch ids.
 */
module ExampleRun {
  import opened Common
  import opened ThreadStates
  import opened Protocol
  import opened GracePeriodRun

  const IDLE := Call(Idle, 0, 0, false, map[], {})

  // ----- a thread starts -----

  /** A state before the first grace period, with one thread. */
  function At(cfg: Config, n: nat, slots: seq<Slot>, th: Thread): State {
    State(cfg, 4, {}, slots, [th], false, 0, None,
          Performer(Off, ResetToMin, 0, [], 0, 0, false, 0, false, false, false),
          0, 0, seq(n, _ => IDLE), [{}], [], {}, {}, {})
  }

  lemma ThreadAllocates(cfg: Config, n: nat) returns (s: State)
    requires ValidConfig(cfg)
    ensures Reachable(s) && s == At(cfg, n, [Slot(Some(Busy(0)), 0)], Thread(Enter, 0, [], 0))
  {
    var s0 := At(cfg, n, [], Thread(Untracked, 0, [], 0));
    assert Init(s0);
    assert Reachable(s0) by {
      hide Init, Next;
      assert IsRun([s0]) && [s0][|[s0]| - 1] == s0;
    }
    hide Reachable, Init;
    s := Threaded(s0, Enter, [], 0, Busy(0));
    assert s0.threads[0 := s0.threads[0].(pc := Enter, slot := 0)] == s.threads;
    assert DoAllocate(s0, s, 0, 0);
    hide DoAllocate;
    Extend(s0, s, AllocateOf(0, 0));
  }

  lemma ThreadEnters(cfg: Config, n: nat) returns (s: State)
    requires ValidConfig(cfg)
    ensures Reachable(s) && s == At(cfg, n, [Slot(Some(Busy(4)), 0)], Thread(EnterFence, 0, [], 0))
  {
    hide Reachable;
    var s1 := ThreadAllocates(cfg, n);
    hide At;
    var s2 := Threaded(s1, EnterLoad, [], 0, Busy(0));
    HookStepExtends(s1, s2, FenceAfterBusy, EnterLoad, [], 0, Busy(0));
    var s3 := Threaded(s1, EnterStore(4), [], 0, Busy(0));
    HookStepExtends(s2, s3, LoadAfterFence, EnterStore(4), [], 0, Busy(0));
    var s4 := Threaded(s1, EnterFence, [Busy(4)], 0, Busy(0));
    HookStepExtends(s3, s4, StoreSeen, EnterFence, [Busy(4)], 0, Busy(0));
    s := Threaded(s1, EnterFence, [], 0, Busy(4));
    HookStepExtends(s4, s, DrainStore, EnterFence, [], 0, Busy(4));
  }

  /** The thread starts and enters its first task poll, next to any number of calls. */
  lemma ThreadStarts(cfg: Config, n: nat) returns (s: State)
    requires ValidConfig(cfg)
    ensures Calm(s) && s == At(cfg, n, [Slot(Some(Busy(4)), 0)], Thread(InPoll, 0, [], 0))
  {
    hide Reachable;
    var s5 := ThreadEnters(cfg, n);
    var pc := Notifying(LoadFlag, false, ToReady);
    var s6 := Threaded(s5, pc, [], 0, Busy(4));
    HookStepExtends(s5, s6, FenceBeforeNotify, pc, [], 0, Busy(4));
    var s7 := Threaded(s5, Ready, [], 0, Busy(4));
    NotifyExtends(s6, s7, Ready);
    s := Threaded(s5, InPoll, [], 0, Busy(4));
    HookStepExtends(s7, s, BeginPoll, InPoll, [], 0, Busy(4));
  }

  // ----- the steps of a call -----

  lemma TakeIdExtends(s: State, s': State, k: CallId)
    requires Reachable(s) && DoTakeId(s, s', k)
    ensures Reachable(s')
  {
    hide DoTakeId, Reachable;
    Extend(s, s', TakeIdOf(k));
  }

  lemma SerializedExtends(s: State, s': State, k: CallId)
    requires Reachable(s) && DoSerialized(s, s', k, 0)
    ensures Reachable(s')
  {
    hide DoSerialized, Reachable;
    Extend(s, s', SerializedOf(k, 0));
  }

  lemma LeadExtends(s: State, s': State, k: CallId)
    requires Reachable(s) && DoLead(s, s', k)
    ensures Reachable(s')
  {
    hide DoLead, Reachable;
    Extend(s, s', LeadOf(k));
  }

  function Caller(pc: CallPc, id: nat, sampled: nat, poll: nat): Call {
    Call(pc, id, sampled, false, map[0 := poll], {})
  }

  /** An idle call starts and gets to the increment of the started counter. */
  lemma Begins(s: State, k: CallId) returns (s': State)
    requires Reachable(s) && IsCall(s, k) && s.calls[k] == IDLE && NoWriter(s.calls)
    ensures Reachable(s') && s' == s.(calls := s.calls[k := IDLE.(pc := TryIncrement)])
  {
    hide Reachable;
    var s1 := s.(calls := s.calls[k := IDLE.(pc := WantRead)], loose := s.loose - {});
    Extend(s, s1, BeginOf(k, {}));
    s' := s1.(calls := Goto(s1, k, TryIncrement));
    TakeIdExtends(s1, s', k);
    assert s'.calls == s.calls[k := IDLE.(pc := TryIncrement)] && s'.loose == s.loose;
  }

  /** A call starts and takes the next id. */
  lemma TakesNextId(s: State, k: CallId) returns (s': State)
    requires Calm(s) && IsCall(s, k) && s.calls[k] == IDLE && NoWriter(s.calls) && s.started + 1 < s.cfg.gpMax
    ensures Calm(s')
    ensures s' == s.(started := s.started + 1,
                     calls := s.calls[k := Caller(WantMutex, s.started + 1, 0, s.threads[0].polls)])
  {
    hide Reachable;
    var s1 := Begins(s, k);
    var c := s1.calls[k].(pc := WantMutex, id := s.started + 1, snap := PollsInProgress(s1.threads));
    s' := s1.(started := s.started + 1, calls := s1.calls[k := c]);
    TakeIdExtends(s1, s', k);
    assert c.snap == map[0 := s.threads[0].polls];
    assert s'.calls == s.calls[k := c];
  }

  /** A call that finds its id uncovered gets as far as the performer's first step. */
  lemma StartsPerforming(s: State, k: CallId) returns (s': State)
    requires Calm(s) && IsCall(s, k) && s.calls[k].pc.WantMutex? && MutexFree(s.calls) && s.finished < s.calls[k].id
    ensures Calm(s') && s'.perf.pc.LoadEpoch? && s'.perf.host == 0
    ensures s' == s.(calls := s.calls[k := s.calls[k].(pc := Performing, sampled := s.started)], perf := s'.perf)
  {
    hide Reachable;
    var s1 := s.(calls := Goto(s, k, CheckFinished));
    SerializedExtends(s, s1, k);
    var s2 := s.(calls := Goto(s, k, LoadStarted));
    assert s2.calls == Goto(s1, k, LoadStarted);
    SerializedExtends(s1, s2, k);
    var s3 := s.(calls := s.calls[k := s.calls[k].(pc := StartPerforming, sampled := s.started)]);
    assert s3.calls == s2.calls[k := s2.calls[k].(pc := StartPerforming, sampled := s.started)];
    SerializedExtends(s2, s3, k);
    s' := s3.(calls := Goto(s3, k, Performing), perf := s.perf.(pc := LoadEpoch, host := 0));
    SerializedExtends(s3, s', k);
    assert s'.calls == s.calls[k := s.calls[k].(pc := Performing, sampled := s.started)];
  }

  /** A call that is through with the mutex returns; it waited for no boxes. */
  lemma CallReturns(s: State, k: CallId) returns (s': State)
    requires Reachable(s) && IsCall(s, k) && s.calls[k].pc.Unlock? && s.calls[k].olds == {}
    ensures Reachable(s') && s' == s.(calls := Goto(s, k, Done))
  {
    hide Reachable;
    var s1 := s.(calls := Goto(s, k, Release));
    SerializedExtends(s, s1, k);
    s' := s1.(calls := s1.calls[k := s1.calls[k].(pc := Done, olds := {})], owned := s1.owned + s1.calls[k].olds);
    Extend(s1, s', ReturnOf(k));
    assert s'.owned == s.owned;
    assert s'.calls == Goto(s, k, Done);
  }

  /** A call performs a grace period, whatever the epoch id, publishes, and returns. */
  lemma PerformsAndReturns(s: State, k: CallId) returns (s': State)
    requires Calm(s) && IsCall(s, k) && s.calls[k].pc.WantMutex? && MutexFree(s.calls) && s.finished < s.calls[k].id
    requires s.calls[k].olds == {} && s.perf.pc.Off?
    ensures Calm(s') && s'.perf.pc.Off? && s'.epoch == NextEpoch(s.cfg, s.epoch)
    ensures s'.threads[0].polls == s.threads[0].polls + 1 && s'.cfg == s.cfg
    ensures s'.started == s'.finished == s.started
    ensures s'.calls == s.calls[k := s.calls[k].(pc := Done, sampled := s.started)]
  {
    var s1 := StartsPerforming(s, k);
    hide Calm, Reachable;
    var s2 := GracePeriodRuns(s1);
    s' := PublishesAndReturns(s2, k);
    assert s'.calls == s.calls[k := s.calls[k].(pc := Done, sampled := s.started)];
  }

  lemma PublishesAndReturns(s: State, k: CallId) returns (s': State)
    requires Calm(s) && IsCall(s, k) && s.calls[k].pc.Performing? && s.calls[k].olds == {} && s.perf.pc.Finished?
    ensures Calm(s')
    ensures s' == s.(finished := s.calls[k].sampled, calls := Goto(s, k, Done), perf := s.perf.(pc := Off))
  {
    hide Reachable;
    var s1 := s.(finished := s.calls[k].sampled, calls := Goto(s, k, Unlock), perf := s.perf.(pc := Off));
    SerializedExtends(s, s1, k);
    s' := CallReturns(s1, k);
    assert s'.calls == Goto(s, k, Done);
  }

  /** A call that finds its id covered returns without a grace period. */
  lemma ReturnsCovered(s: State, k: CallId) returns (s': State)
    requires Calm(s) && IsCall(s, k) && s.calls[k].pc.WantMutex? && MutexFree(s.calls) && s.finished >= s.calls[k].id
    requires s.calls[k].olds == {}
    ensures Calm(s') && s' == s.(calls := Goto(s, k, Done))
  {
    hide Reachable;
    var s1 := s.(calls := Goto(s, k, CheckFinished));
    SerializedExtends(s, s1, k);
    var s2 := s.(calls := Goto(s, k, Unlock));
    assert s2.calls == Goto(s1, k, Unlock);
    SerializedExtends(s1, s2, k);
    s' := CallReturns(s2, k);
    assert s'.calls == Goto(s, k, Done);
  }

  // ----- one grace period for all ids -----

  /** Calls `done..m` wait for the mutex with the ids after `done`, the ones before have returned, the rest is idle. */
  ghost predicate Queued(s: State, cfg: Config, done: nat, m: nat, polls: nat) {
    && Calm(s) && s.cfg == cfg && |s.calls| == cfg.gpMax && s.perf.pc.Off? && s.threads[0].polls == polls
    && s.epoch == EPOCH_ID_MIN + 2 + 2 * polls
    && done <= m < cfg.gpMax && s.started == m
    && forall i | 0 <= i < |s.calls| :: QueuedCall(s.calls[i], i, done, m)
  }

  ghost predicate QueuedCall(c: Call, i: nat, done: nat, m: nat) {
    if i < m then c == Caller(c.pc, i + 1, c.sampled, 0) && (if i < done then c.pc.Done? else c.pc.WantMutex?)
    else c == IDLE
  }

  lemma {:induction false} IdsAreTaken(cfg: Config, m: nat) returns (s: State)
    requires ValidConfig(cfg) && m < cfg.gpMax
    ensures Queued(s, cfg, 0, m, 0) && s.finished == 0
  {
    if m == 0 {
      s := ThreadStarts(cfg, cfg.gpMax);
      hide Reachable;
    } else {
      var s1 := IdsAreTaken(cfg, m - 1);
      hide Reachable;
      assert QueuedCall(s1.calls[m - 1], m - 1, 0, m - 1);
      s := TakesNextId(s1, m - 1);
      forall i | 0 <= i < |s.calls| ensures QueuedCall(s.calls[i], i, 0, m) {
        assert QueuedCall(s1.calls[i], i, 0, m - 1);
      }
    }
  }

  /** The first call performs with the ids of all the others taken. */
  lemma FirstPerforms(cfg: Config, m: nat) returns (s: State)
    requires ValidConfig(cfg) && 1 <= m < cfg.gpMax
    ensures Queued(s, cfg, 1, m, 1) && s.finished == m
  {
    var s1 := IdsAreTaken(cfg, m);
    assert QueuedCall(s1.calls[0], 0, 0, m);
    assert MutexFree(s1.calls) by {
      forall i | 0 <= i < |s1.calls| ensures !HoldsMutex(s1.calls[i].pc) {
        assert QueuedCall(s1.calls[i], i, 0, m);
      }
    }
    hide Calm;
    s := PerformsAndReturns(s1, 0);
    forall i | 0 <= i < |s.calls| ensures QueuedCall(s.calls[i], i, 1, m) {
      assert QueuedCall(s1.calls[i], i, 0, m);
    }
  }

  lemma {:induction false} OthersReturn(cfg: Config, done: nat, m: nat) returns (s: State)
    requires ValidConfig(cfg) && 1 <= done <= m < cfg.gpMax
    ensures Queued(s, cfg, done, m, 1) && s.finished == m
  {
    if done == 1 {
      s := FirstPerforms(cfg, m);
    } else {
      var s1 := OthersReturn(cfg, done - 1, m);
      var k := done - 1;
      assert QueuedCall(s1.calls[k], k, done - 1, m);
      assert MutexFree(s1.calls) by {
        forall i | 0 <= i < |s1.calls| ensures !HoldsMutex(s1.calls[i].pc) {
          assert QueuedCall(s1.calls[i], i, done - 1, m);
        }
      }
      hide Reachable;
      s := ReturnsCovered(s1, k);
      forall i | 0 <= i < |s.calls| ensures QueuedCall(s.calls[i], i, done, m) {
        assert QueuedCall(s1.calls[i], i, done - 1, m);
      }
    }
  }

  /**
   For all widths: one grace period lets every call that can have an id return, each with an id of its own and after
   the poll that all of them interrupted.
   */
  lemma OneGracePeriodServesAllCalls(cfg: Config) returns (s: State)
    requires ValidConfig(cfg) && cfg.gpMax >= 2
    ensures Reachable(s) && s.cfg == cfg && |s.calls| == cfg.gpMax && s.epoch == 6 && |s.threads| == 1
    ensures forall k | 0 <= k < cfg.gpMax - 1 ::
              s.calls[k].pc.Done? && s.calls[k].id == k + 1 && s.calls[k].snap == map[0 := 0]
    ensures s.threads[0].polls == 1
  {
    s := OthersReturn(cfg, cfg.gpMax - 1, cfg.gpMax - 1);
    hide Reachable;
    forall k | 0 <= k < cfg.gpMax - 1
      ensures s.calls[k].pc.Done? && s.calls[k].id == k + 1 && s.calls[k].snap == map[0 := 0]
    {
      assert QueuedCall(s.calls[k], k, cfg.gpMax - 1, cfg.gpMax - 1);
    }
  }

  // ----- the reset after it -----

  /** With all ids taken, the last call moves the started counter to its maximum and becomes the leader of a reset. */
  lemma LastCallLeads(cfg: Config, s: State) returns (s': State)
    requires cfg.gpMax >= 2 && Queued(s, cfg, cfg.gpMax - 1, cfg.gpMax - 1, 1)
    ensures Reachable(s')
    ensures s' == s.(started := cfg.gpMax, calls := s.calls[cfg.gpMax - 1 := IDLE.(pc := LeadRelease)])
  {
    hide Reachable;
    var k := cfg.gpMax - 1;
    assert QueuedCall(s.calls[k], k, k, k);
    assert NoWriter(s.calls) by {
      forall i | 0 <= i < |s.calls| ensures !HoldsWrite(s.calls[i].pc) {
        assert QueuedCall(s.calls[i], i, k, k);
      }
    }
    var s1 := Begins(s, k);
    s' := s1.(started := cfg.gpMax, calls := Goto(s1, k, LeadRelease));
    TakeIdExtends(s1, s', k);
    assert s'.calls == s.calls[k := IDLE.(pc := LeadRelease)];
  }

  /** The leader gets as far as its first store. */
  lemma LeaderStores(s: State, k: CallId) returns (s': State)
    requires Reachable(s) && IsCall(s, k) && s.calls[k] == IDLE.(pc := LeadRelease)
    requires forall i | 0 <= i < |s.calls| && i != k :: !HoldsRead(s.calls[i].pc) && !HoldsWrite(s.calls[i].pc)
    ensures Reachable(s') && s' == s.(started := 0, calls := Goto(s, k, LeadResetFinished))
  {
    hide Reachable;
    var s1 := s.(calls := Goto(s, k, LeadWantWrite));
    LeadExtends(s, s1, k);
    var s2 := s.(calls := Goto(s, k, LeadResetStarted));
    assert s2.calls == Goto(s1, k, LeadResetStarted);
    LeadExtends(s1, s2, k);
    s' := s.(started := 0, calls := Goto(s, k, LeadResetFinished));
    assert s'.calls == Goto(s2, k, LeadResetFinished);
    LeadExtends(s2, s', k);
  }

  /**
   For all widths there is a reachable state with `finished > started`: between the two stores of a reset the started
   counter is back at 0, and the finished counter is not.
   */
  lemma FinishedCanOvertakeStarted(cfg: Config) returns (s: State)
    requires ValidConfig(cfg) && cfg.gpMax >= 2
    ensures Reachable(s) && s.cfg == cfg && s.started == 0 && s.finished == cfg.gpMax - 1
    ensures |s.calls| == cfg.gpMax && s.calls[cfg.gpMax - 1].pc.LeadResetFinished?
  {
    hide Reachable, Calm;
    var k := cfg.gpMax - 1;
    var s0 := OthersReturn(cfg, k, k);
    var s1 := LastCallLeads(cfg, s0);
    forall i | 0 <= i < |s1.calls| && i != k ensures !HoldsRead(s1.calls[i].pc) && !HoldsWrite(s1.calls[i].pc) {
      assert QueuedCall(s0.calls[i], i, k, k);
    }
    s := LeaderStores(s1, k);
  }

  // ----- the overflow of the epoch ids -----

  /** `k` calls have performed one after the other, and the others are idle. */
  ghost predicate AfterPeriods(s: State, cfg: Config, n: nat, k: nat) {
    && Calm(s) && s.cfg == cfg && |s.calls| == n && s.perf.pc.Off? && s.started == s.finished == k
    && s.epoch == EPOCH_ID_MIN + 2 + 2 * k
    && forall i | 0 <= i < n :: if i < k then s.calls[i].pc.Done? else s.calls[i] == IDLE
  }

  /** One more call takes its id, with everything else at rest. */
  lemma NextTakesId(s: State, cfg: Config, n: nat, k: nat) returns (s': State)
    requires AfterPeriods(s, cfg, n, k) && k < n && k + 1 < cfg.gpMax
    ensures |s'.calls| == n && s' == s.(started := k + 1, calls := s.calls[k := s'.calls[k]])
    ensures Calm(s') && MutexFree(s'.calls)
    ensures s'.calls[k].pc.WantMutex? && s'.calls[k].olds == {} && s'.calls[k].id == k + 1
  {
    hide Reachable;
    assert NoWriter(s.calls);
    s' := TakesNextId(s, k);
  }

  lemma {:induction false} PeriodsPass(cfg: Config, n: nat, k: nat) returns (s: State)
    requires ValidConfig(cfg) && k <= n && k < cfg.gpMax && EPOCH_ID_MIN + 2 + 2 * k <= cfg.epochMax
    ensures AfterPeriods(s, cfg, n, k)
  {
    if k == 0 {
      s := ThreadStarts(cfg, n);
    } else {
      var s1 := PeriodsPass(cfg, n, k - 1);
      var s2 := NextTakesId(s1, cfg, n, k - 1);
      hide Calm;
      s := PerformsAndReturns(s2, k - 1);
    }
  }

  /** The last epoch id before the overflow is reached after this many grace periods. */
  function PeriodsToMax(cfg: Config): nat
    requires ValidConfig(cfg)
  {
    (cfg.epochMax - EPOCH_ID_MIN - 2) / 2
  }

  /**
   For all widths that leave enough ids: a grace period that starts at the largest epoch id passes its first wait at
   MIN, scans for MIN+2, and lets its call return.
   */
  lemma OverflowRuns(cfg: Config) returns (first: State, second: State, after: State)
    requires ValidConfig(cfg) && PeriodsToMax(cfg) + 1 < cfg.gpMax
    ensures Reachable(first) && first.cfg == cfg && first.perf.phase.ResetToMin? && first.perf.passed
    ensures first.perf.pc.DropFlag? && first.epoch == EPOCH_ID_MIN
    ensures Reachable(second) && second.cfg == cfg && second.perf.phase.ResetToNext? && second.perf.pc.ScanLen?
    ensures second.epoch == EPOCH_ID_MIN + 2 && cfg.epochMax in second.stale
    ensures Reachable(after) && after.cfg == cfg && after.epoch == EPOCH_ID_MIN + 2 && after.perf.pc.Off?
    ensures |after.calls| == PeriodsToMax(cfg) + 1 && forall c | c in after.calls :: c.pc.Done?
  {
    var k := PeriodsToMax(cfg);
    var s0 := PeriodsPass(cfg, k + 1, k);
    var s1 := NextTakesId(s0, cfg, k + 1, k);
    after := PerformsAndReturns(s1, k);
    first, second := OverflowPhases(s1, k);
  }

  lemma OverflowPhases(s: State, k: CallId) returns (first: State, second: State)
    requires Calm(s) && IsCall(s, k) && s.calls[k].pc.WantMutex? && MutexFree(s.calls) && s.finished < s.calls[k].id
    requires s.epoch == s.cfg.epochMax
    ensures Reachable(first) && first.cfg == s.cfg && first.perf.phase.ResetToMin? && first.perf.passed
    ensures first.perf.pc.DropFlag? && first.epoch == EPOCH_ID_MIN
    ensures Reachable(second) && second.cfg == s.cfg && second.perf.phase.ResetToNext? && second.perf.pc.ScanLen?
    ensures second.epoch == EPOCH_ID_MIN + 2 && s.cfg.epochMax in second.stale
  {
    hide Reachable;
    var s1 := StartsPerforming(s, k);
    var s2 := EntersOverflow(s1);
    first := PassesFirstWait(s2);
    var s3 := GoesOnToNext(first);
    second := Publishes(s3);
  }
}
