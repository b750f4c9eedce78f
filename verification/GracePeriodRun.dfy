/**
 One grace period from its first step to its last, with one thread that polls the performer: at any epoch id, so also
 across the overflow of the epoch ids, and whatever the other calls are doing.
 */
module GracePeriodRun {
  import opened Common
  import opened ThreadStates
  import opened Protocol

  function Busy(e: nat): ThreadState { ThreadState(e, true) }

  /** The state with thread 0 and its slot 0 replaced, for states with one thread and one slot. */
  function Threaded(s: State, pc: HookPc, buf: seq<ThreadState>, polls: nat, mem: ThreadState): State {
    s.(threads := [Thread(pc, 0, buf, polls)], slots := [Slot(Some(mem), 0)])
  }

  lemma HookStepExtends(s: State, s': State, h: Hook, pc: HookPc, buf: seq<ThreadState>, polls: nat, mem: ThreadState)
    requires Reachable(s) && |s.threads| == 1 && |s.slots| == 1 && Tracked(s, 0) && s.threads[0].slot == 0
    requires HookStep(h, s.epoch, s.threads[0], Mem(s, 0), Thread(pc, 0, buf, polls), mem)
    requires h.EndPoll? ==> s.held == [{}] && !IsHost(s, 0)
    requires s' == Threaded(s, pc, buf, polls, mem)
    ensures Reachable(s')
  {
    var th := Thread(pc, 0, buf, polls);
    assert s.threads[0 := th] == [th] && s.slots[0 := Slot(Some(mem), 0)] == [Slot(Some(mem), 0)];
    assert DoHook(s, s', 0, h, th, mem) by { hide Reachable, HookStep; }
    hide Reachable, DoHook;
    Extend(s, s', HookOf(0, h, th, mem));
  }

  lemma PerformExtends(s: State, s': State)
    requires Reachable(s) && DoPerform(s, s')
    ensures Reachable(s')
  {
    hide DoPerform, Reachable;
    Extend(s, s', PerformOf);
  }

  lemma DrainExtends(s: State, s': State)
    requires Reachable(s) && DoDrainPerformer(s, s')
    ensures Reachable(s')
  {
    hide DoDrainPerformer, Reachable;
    Extend(s, s', DrainPerformerOf);
  }

  lemma NotifyExtends(s: State, s': State, pc: HookPc)
    requires Reachable(s) && |s.threads| == 1 && s'.threads == [s.threads[0].(pc := pc)] && DoNotify(s, s', 0)
    ensures Reachable(s')
  {
    hide DoNotify, Reachable;
    Extend(s, s', NotifyOf(0));
  }

  /** One thread, inside of a task poll with everything stored, whose slot holds `e`. */
  predicate InOnePoll(s: State, e: nat) {
    && |s.threads| == 1 && s.threads == [Thread(InPoll, 0, [], s.threads[0].polls)]
    && s.slots == [Slot(Some(Busy(e)), 0)] && s.held == [{}]
  }

  // ----- one round of the wait loop -----

  /** The performer with a new subscription, before its scan. */
  function WithSubscription(s: State): Performer {
    s.perf.(pc := ScanLen, snapshot := s.num, registered := false, consumed := false, woken := false)
  }

  /** The performer subscribes, and passes its fence. */
  lemma Subscribes(s: State) returns (s': State)
    requires Reachable(s) && |s.threads| == 1 && s.threads == [Thread(InPoll, 0, [], s.threads[0].polls)]
    requires s.perf.pc.SetFlag? && s.perf.host == 0 && s.perf.buf == []
    ensures Reachable(s')
    ensures s' == s.(flag := true, perf := WithSubscription(s))
  {
    hide Reachable;
    var s1 := s.(perf := s.perf.(pc := Snapshot, buf := [FlagWrite(true)]));
    PerformExtends(s, s1);
    var p := s.perf.(snapshot := s.num, registered := false, consumed := false, woken := false);
    var s2 := s.(perf := p.(pc := Fence, buf := [FlagWrite(true)]));
    PerformExtends(s1, s2);
    var s3 := s.(perf := p.(pc := Fence), flag := true);
    DrainExtends(s2, s3);
    s' := s3.(perf := p.(pc := ScanLen));
    PerformExtends(s3, s');
  }

  /** The performer stores the epoch id of its phase and subscribes. */
  lemma Publishes(s: State) returns (s': State)
    requires Reachable(s) && |s.threads| == 1 && s.threads == [Thread(InPoll, 0, [], s.threads[0].polls)]
    requires s.perf.pc.SetEpoch? && s.perf.host == 0 && s.perf.buf == []
    ensures Reachable(s')
    ensures s' == s.(epoch := Target(s.perf.phase), stale := s.stale + {s.epoch}, flag := true,
                     perf := WithSubscription(s))
  {
    hide Reachable;
    var e := Target(s.perf.phase);
    var s1 := s.(perf := s.perf.(pc := SetFlag, buf := [EpochWrite(e)]));
    PerformExtends(s, s1);
    var s2 := s.(perf := s.perf.(pc := SetFlag), stale := s.stale + {s.epoch}, epoch := e);
    DrainExtends(s1, s2);
    s' := Subscribes(s2);
  }

  /** The scan fails on the performer's own thread. */
  lemma ScanFails(s: State, e: nat) returns (s': State)
    requires Reachable(s) && InOnePoll(s, e) && s.perf.pc.ScanLen? && s.perf.host == 0
    requires !Seen(s.perf.phase, e) && !s.perf.phase.ResetToMin?
    ensures Reachable(s') && s' == s.(perf := s.perf.(pc := FirstCheck, len := 1, idx := 0))
  {
    hide Reachable;
    var s1 := s.(perf := s.perf.(pc := ScanSlot, len := 1, idx := 0));
    PerformExtends(s, s1);
    s' := s.(perf := s.perf.(pc := FirstCheck, len := 1, idx := 0));
    PerformExtends(s1, s');
  }

  /** Not notified yet, the performer registers its waker and falls asleep. */
  lemma FallsAsleep(s: State) returns (s': State)
    requires Reachable(s) && InfoUnlocked(s.threads) && s.perf.pc.FirstCheck? && s.perf.host == 0
    requires s.num == s.perf.snapshot && !s.perf.registered
    ensures Reachable(s') && s' == s.(info := Some(0), perf := s.perf.(pc := Asleep, registered := true))
  {
    hide Reachable, InfoUnlocked;
    var s1 := s.(perf := s.perf.(pc := Register));
    PerformExtends(s, s1);
    var s2 := s.(perf := s.perf.(pc := SecondCheck, registered := true), info := Some(0));
    PerformExtends(s1, s2);
    s' := s.(perf := s.perf.(pc := Asleep, registered := true), info := Some(0));
    PerformExtends(s2, s');
  }

  /** The thread leaves its poll and publishes the new epoch id. */
  lemma LeavesPoll(s: State, e: nat) returns (s': State)
    requires Reachable(s) && InOnePoll(s, e) && s.epoch != e && s.perf.pc.Asleep?
    ensures Reachable(s') && s' == Threaded(s, LeaveFence, [], s.threads[0].polls + 1, Busy(s.epoch))
  {
    hide Reachable;
    var n := s.threads[0].polls + 1;
    var s1 := Threaded(s, LeaveLoad, [], n, Busy(e));
    HookStepExtends(s, s1, EndPoll, LeaveLoad, [], n, Busy(e));
    var s2 := Threaded(s, LeaveStore(s.epoch), [], n, Busy(e));
    HookStepExtends(s1, s2, LoadAfterPoll, LeaveStore(s.epoch), [], n, Busy(e));
    var s3 := Threaded(s, LeaveFence, [Busy(s.epoch)], n, Busy(e));
    HookStepExtends(s2, s3, StoreAfterPoll, LeaveFence, [Busy(s.epoch)], n, Busy(e));
    s' := Threaded(s, LeaveFence, [], n, Busy(s.epoch));
    HookStepExtends(s3, s', DrainStore, LeaveFence, [], n, Busy(s.epoch));
  }

  /** Its notification wakes the performer. */
  lemma Notifies(s: State, n: nat) returns (s': State)
    requires Reachable(s) && s == Threaded(s, LeaveFence, [], n, Busy(s.epoch))
    requires s.flag && s.info == Some(0) && s.perf.pc.Asleep?
    ensures Reachable(s')
    ensures s' == Threaded(s, Ready, [], n, Busy(s.epoch)).(num := s.num + 1, info := None, flag := false,
                                                            perf := s.perf.(woken := true))
  {
    hide Reachable;
    var mem := Busy(s.epoch);
    var s1 := Threaded(s, Notifying(LoadFlag, false, ToReady), [], n, mem);
    HookStepExtends(s, s1, FenceAfterPoll, Notifying(LoadFlag, false, ToReady), [], n, mem);
    var s2 := Threaded(s, Notifying(Increment, false, ToReady), [], n, mem);
    NotifyExtends(s1, s2, Notifying(Increment, false, ToReady));
    var s3 := Threaded(s, Notifying(ReadInfo, false, ToReady), [], n, mem).(num := s.num + 1);
    NotifyExtends(s2, s3, Notifying(ReadInfo, false, ToReady));
    var s4 := Threaded(s3, Notifying(WriteInfo, false, ToReady), [], n, mem);
    NotifyExtends(s3, s4, Notifying(WriteInfo, false, ToReady));
    var s5 := Threaded(s3, Notifying(ClearFlag, false, ToReady), [], n, mem).(
                         info := None, perf := s.perf.(woken := true));
    NotifyExtends(s4, s5, Notifying(ClearFlag, false, ToReady));
    s' := Threaded(s5, Ready, [], n, mem).(flag := false);
    NotifyExtends(s5, s', Ready);
  }

  /** The performer is polled again in the thread's next task poll. */
  lemma IsResumed(s: State, n: nat) returns (s': State)
    requires Reachable(s) && s == Threaded(s, Ready, [], n, Busy(s.epoch)) && s.perf.pc.Asleep?
    ensures Reachable(s')
    ensures s' == Threaded(s, InPoll, [], n, Busy(s.epoch)).(
                    perf := s.perf.(pc := FirstCheck, host := 0, woken := false))
  {
    hide Reachable;
    var s1 := Threaded(s, InPoll, [], n, Busy(s.epoch));
    HookStepExtends(s, s1, BeginPoll, InPoll, [], n, Busy(s.epoch));
    s' := s1.(perf := s.perf.(pc := FirstCheck, host := 0, woken := false));
    Extend(s1, s', ResumeOf(0));
  }

  /** It finds that it was notified, and drops its subscription. */
  lemma Unsubscribes(s: State) returns (s': State)
    requires Reachable(s) && |s.threads| == 1 && s.threads == [Thread(InPoll, 0, [], s.threads[0].polls)]
    requires s.perf.pc.FirstCheck? && s.perf.host == 0 && s.perf.buf == [] && s.perf.registered && !s.perf.consumed
    requires s.num != s.perf.snapshot && !s.perf.passed && s.info.None? && !s.flag
    ensures Reachable(s') && s' == s.(perf := s.perf.(pc := SetFlag))
  {
    hide Reachable;
    var s1 := s.(perf := s.perf.(pc := DropFlag));
    PerformExtends(s, s1);
    var s2 := s.(perf := s.perf.(pc := DropInfo, buf := [FlagWrite(false)]));
    PerformExtends(s1, s2);
    var s3 := s.(perf := s.perf.(pc := DropInfo));
    DrainExtends(s2, s3);
    s' := s.(perf := s.perf.(pc := SetFlag));
    PerformExtends(s3, s');
  }

  /** A scan that passes the one slot: its epoch id is the right one, or it is the host's and skipped. */
  lemma ScanPasses(s: State, e: nat) returns (s': State)
    requires Reachable(s) && InOnePoll(s, e) && s.perf.pc.ScanLen? && s.perf.host == 0
    requires Seen(s.perf.phase, e) || s.perf.phase.ResetToMin?
    ensures Reachable(s')
    ensures s' == s.(perf := s.perf.(pc := DropFlag, len := 1, idx := 1, passed := true),
                     stale := if s.perf.phase.ResetToMin? then s.stale else {})
  {
    hide Reachable;
    var p := s.perf.(len := 1);
    var s1 := s.(perf := p.(pc := ScanSlot, idx := 0));
    PerformExtends(s, s1);
    var s2 := s.(perf := p.(pc := ScanSlot, idx := 1));
    PerformExtends(s1, s2);
    s' := s.(perf := p.(pc := DropFlag, idx := 1, passed := true),
             stale := if p.phase.ResetToMin? then s.stale else {});
    PerformExtends(s2, s');
  }

  /** After the last scan of the grace period the performer drops its subscription and is done. */
  lemma Finishes(s: State) returns (s': State)
    requires Reachable(s) && |s.threads| == 1 && s.threads[0].buf == []
    requires s.perf.pc.DropFlag? && s.perf.host == 0 && s.perf.buf == [] && s.perf.passed
    requires !s.perf.registered && !s.perf.consumed && !s.perf.phase.ResetToMin?
    ensures Reachable(s') && s' == s.(flag := false, perf := s.perf.(pc := Finished))
  {
    hide Reachable;
    var s1 := s.(perf := s.perf.(pc := DropInfo, buf := [FlagWrite(false)]));
    PerformExtends(s, s1);
    var s2 := s.(perf := s.perf.(pc := Settle, buf := [FlagWrite(false)]));
    PerformExtends(s1, s2);
    var s3 := s.(flag := false, perf := s.perf.(pc := Settle));
    DrainExtends(s2, s3);
    s' := s3.(perf := s.perf.(pc := Finished));
    PerformExtends(s3, s');
  }

  /** After the first scan of a reset it goes on to the second epoch id of the reset. */
  lemma GoesOnToNext(s: State) returns (s': State)
    requires Reachable(s) && |s.threads| == 1 && s.threads[0].buf == []
    requires s.perf.pc.DropFlag? && s.perf.host == 0 && s.perf.buf == [] && s.perf.passed
    requires !s.perf.registered && !s.perf.consumed && s.perf.phase.ResetToMin?
    ensures Reachable(s')
    ensures s' == s.(flag := false, perf := s.perf.(pc := SetEpoch, phase := ResetToNext, passed := false))
  {
    hide Reachable;
    var s1 := s.(perf := s.perf.(pc := DropInfo, buf := [FlagWrite(false)]));
    PerformExtends(s, s1);
    var s2 := s.(perf := s.perf.(pc := DropInfo), flag := false);
    DrainExtends(s1, s2);
    s' := s2.(perf := s.perf.(pc := SetEpoch, phase := ResetToNext, passed := false));
    PerformExtends(s2, s');
  }

  /** The whole wait for an epoch id that the thread has not seen yet. */
  lemma WaitRuns(s: State, e: nat) returns (s': State)
    requires Reachable(s) && InOnePoll(s, e) && !s.flag && s.info.None?
    requires s.perf.pc.SetEpoch? && s.perf.host == 0 && s.perf.buf == [] && !s.perf.passed
    requires !s.perf.phase.ResetToMin? && !Seen(s.perf.phase, e)
    ensures Reachable(s') && s'.perf.pc.Finished? && s'.perf.buf == []
    ensures s' == Threaded(s, InPoll, [], s.threads[0].polls + 1, Busy(Target(s.perf.phase))).(
                    epoch := Target(s.perf.phase), stale := {}, num := s.num + 1, perf := s'.perf)
  {
    hide Reachable;
    var n := s.threads[0].polls + 1;
    var s1 := Publishes(s);
    var s2 := ScanFails(s1, e);
    s2 := FallsAsleep(s2);
    var s3 := LeavesPoll(s2, e);
    var s4 := Notifies(s3, n);
    var s5 := IsResumed(s4, n);
    var s6 := Unsubscribes(s5);
    var s7 := Subscribes(s6);
    var s8 := ScanPasses(s7, s7.epoch);
    s' := Finishes(s8);
  }

  // ----- the grace period -----

  /** One thread in a task poll that has published the current epoch id, and nothing left over from a grace period. */
  ghost predicate Calm(s: State) {
    && Reachable(s) && ValidConfig(s.cfg) && InOnePoll(s, s.epoch)
    && !s.flag && s.info.None? && s.stale == {} && s.perf.buf == []
  }

  function NextEpoch(cfg: Config, e: nat): nat {
    if e == cfg.epochMax then EPOCH_ID_MIN + 2 else e + 2
  }

  /** A performer gets from its first step to its last, with the poll around it ended; the calls do not matter. */
  lemma GracePeriodRuns(s: State) returns (s': State)
    requires Calm(s) && s.perf.pc.LoadEpoch? && s.perf.host == 0
    ensures Calm(s') && s'.perf.pc.Finished? && s'.epoch == NextEpoch(s.cfg, s.epoch)
    ensures s'.threads[0].polls == s.threads[0].polls + 1
    ensures s'.cfg == s.cfg && s'.calls == s.calls && s'.started == s.started && s'.finished == s.finished
  {
    hide Reachable;
    if s.epoch == s.cfg.epochMax {
      var s1 := EntersOverflow(s);
      var s2 := PassesFirstWait(s1);
      var s3 := GoesOnToNext(s2);
      s' := WaitRuns(s3, s.epoch);
    } else {
      var s1 := s.(perf := s.perf.(pc := SetEpoch, passed := false, phase := Bump(s.epoch + 2)));
      PerformExtends(s, s1);
      s' := WaitRuns(s1, s.epoch);
    }
  }

  /** At the largest epoch id the performer starts over at MIN. */
  lemma EntersOverflow(s: State) returns (s': State)
    requires Calm(s) && s.perf.pc.LoadEpoch? && s.perf.host == 0 && s.epoch == s.cfg.epochMax
    ensures Reachable(s') && s' == s.(perf := s.perf.(pc := SetEpoch, passed := false, phase := ResetToMin))
  {
    hide Reachable;
    s' := s.(perf := s.perf.(pc := SetEpoch, passed := false, phase := ResetToMin));
    PerformExtends(s, s');
  }

  /** The first wait of the overflow, which skips the thread that polls the performer. */
  lemma PassesFirstWait(s: State) returns (s': State)
    requires Reachable(s) && InOnePoll(s, s.epoch)
    requires s.perf.pc.SetEpoch? && s.perf.host == 0 && s.perf.buf == [] && s.perf.phase.ResetToMin?
    ensures Reachable(s') && s'.perf.pc.DropFlag? && s'.perf.passed && s'.perf.phase.ResetToMin?
    ensures !s'.perf.registered && !s'.perf.consumed && s'.perf.buf == [] && s'.perf.host == 0
    ensures s' == s.(epoch := EPOCH_ID_MIN, stale := s.stale + {s.epoch}, flag := true, perf := s'.perf)
  {
    hide Reachable;
    var s1 := Publishes(s);
    s' := ScanPasses(s1, s.epoch);
  }
}
