/**
 Which task polls a call still has to wait for. The polls that were in progress when a call took its id
 are recorded in its `snap`; the invariant follows them through the grace period that covers the call.
 */
module CoverInvariant {
  import opened Common
  import opened ThreadStates
  import opened Protocol
  import opened ThreadInvariant
  import opened PerformerInvariant
  import opened CallInvariant

  /** Poll number `n` of thread `t` is still going on. */
  predicate StillIn(threads: seq<Thread>, t: ThreadId, n: nat) {
    t < |threads| && threads[t].polls == n
  }

  /** All recorded polls have ended. */
  ghost predicate Ended(threads: seq<Thread>, snap: map<ThreadId, nat>) {
    forall t | t in snap :: t < |threads| && threads[t].polls > snap[t]
  }

  ghost predicate SnapOk(threads: seq<Thread>, snap: map<ThreadId, nat>) {
    forall t | t in snap ::
      t < |threads| && threads[t].polls >= snap[t] && (threads[t].polls == snap[t] ==> threads[t].pc.InPoll?)
  }

  /** The epoch id of the last phase is in memory and its scan has not gone through yet. */
  predicate FinalEpochLanded(s: State) {
    && !s.perf.pc.Off? && !s.perf.pc.LoadEpoch? && !s.perf.pc.SetEpoch? && !s.perf.pc.Settle? && !s.perf.pc.Finished?
    && !PassedFinal(s.perf) && !s.perf.phase.ResetToMin? && s.epoch == Target(s.perf.phase)
  }

  predicate GracePeriodOver(p: Performer) {
    PassedFinal(p) || p.pc.Settle? || p.pc.Finished?
  }

  /**
   A thread that is still in a recorded poll has not published the new epoch id, and the scan has not been past
   it.
   */
  predicate Blocks(s: State, t: ThreadId) {
    && OwnsSlot(s.threads, s.slots, t) && Mem(s, t).epoch != s.epoch
    && (s.perf.pc.ScanSlot? ==> s.perf.idx <= s.threads[t].slot < s.perf.len)
  }

  ghost predicate Progress(s: State, snap: map<ThreadId, nat>) {
    && (GracePeriodOver(s.perf) ==> Ended(s.threads, snap))
    && (FinalEpochLanded(s) ==> forall t | t in snap && StillIn(s.threads, t, snap[t]) :: Blocks(s, t))
  }

  predicate Returning(pc: CallPc) {
    pc.Unlock? || pc.Release? || pc.Done?
  }

  ghost predicate CoverOk(s: State) {
    && (forall k | 0 <= k < |s.calls| :: SnapOk(s.threads, s.calls[k].snap))
    && (forall k | 0 <= k < |s.calls| ::
          HasId(s.calls[k].pc) && s.calls[k].id <= s.finished ==> Ended(s.threads, s.calls[k].snap))
    && (forall k | 0 <= k < |s.calls| :: Returning(s.calls[k].pc) ==> Ended(s.threads, s.calls[k].snap))
    && (forall p, k | 0 <= p < |s.calls| && 0 <= k < |s.calls| ::
          s.calls[p].pc.Performing? && HasId(s.calls[k].pc) && s.calls[k].id <= s.calls[p].sampled ==>
            Progress(s, s.calls[k].snap))
  }

  // ----- steps of the threads -----

  /** Polls only end, and a poll that goes on keeps its slot and its published epoch id. */
  predicate PollsMoveOn(s: State, s': State) {
    && |s'.threads| == |s.threads|
    && forall t | 0 <= t < |s.threads| ::
         && s'.threads[t].polls >= s.threads[t].polls
         && (s'.threads[t].polls == s.threads[t].polls && s.threads[t].pc.InPoll? ==>
               && s'.threads[t].pc.InPoll? && s'.threads[t].slot == s.threads[t].slot
               && OwnsSlot(s.threads, s.slots, t) && OwnsSlot(s'.threads, s'.slots, t)
               && Mem(s', t).epoch == Mem(s, t).epoch)
  }

  lemma ThreadsKeepCoverOk(s: State, s': State)
    requires CoverOk(s) && PollsMoveOn(s, s')
    requires s'.calls == s.calls && s'.finished == s.finished && s'.epoch == s.epoch
    requires s'.perf == s.perf.(woken := s'.perf.woken)
    ensures CoverOk(s')
  {
    forall snap: map<ThreadId, nat>
      ensures SnapOk(s.threads, snap) ==> SnapOk(s'.threads, snap)
      ensures Ended(s.threads, snap) ==> Ended(s'.threads, snap)
      ensures SnapOk(s.threads, snap) && Progress(s, snap) ==> Progress(s', snap)
    {
      assert s.perf.pc == s'.perf.pc && PassedFinal(s.perf) == PassedFinal(s'.perf);
      hide PassedFinal, OwnsSlot;
    }
    hide SnapOk, Ended, Progress, PollsMoveOn;
  }

  lemma HookMovesPollsOn(s: State, s': State, t: ThreadId, h: Hook, th': Thread, mem': ThreadState)
    requires CoreOk(s) && CoreOk(s') && DoHook(s, s', t, h, th', mem')
    ensures PollsMoveOn(s, s')
  {
    assert ThreadOk(s.cfg, s.threads, s.slots, t) && ThreadOk(s.cfg, s'.threads, s'.slots, t);
    if h.DrainStore? && th'.pc.InPoll? {
      assert s.threads[t].buf[0] == Mem(s, t);
    }
    forall u | 0 <= u < |s.threads| && u != t && s.threads[u].pc.InPoll?
      ensures OwnsSlot(s.threads, s.slots, u) && OwnsSlot(s'.threads, s'.slots, u) && Mem(s', u) == Mem(s, u)
    {
      assert ThreadOk(s.cfg, s.threads, s.slots, u) && ThreadOk(s.cfg, s'.threads, s'.slots, u);
    }
    hide CoreOk;
  }

  lemma HookKeepsCoverOk(s: State, s': State, t: ThreadId, h: Hook, th': Thread, mem': ThreadState)
    requires CoreOk(s) && CoreOk(s') && CoverOk(s) && DoHook(s, s', t, h, th', mem')
    ensures CoverOk(s')
  {
    HookMovesPollsOn(s, s', t, h, th', mem');
    ThreadsKeepCoverOk(s, s');
  }

  /** Steps of a thread outside of a poll. */
  lemma OutsidePollKeepsCoverOk(s: State, s': State, t: ThreadId)
    requires CoreOk(s) && CoreOk(s') && CoverOk(s) && IsThread(s, t) && !s.threads[t].pc.InPoll?
    requires |s'.threads| == |s.threads| && s'.threads == s.threads[t := s'.threads[t]]
    requires s'.threads[t].polls == s.threads[t].polls && |s.slots| <= |s'.slots|
    requires forall i | 0 <= i < |s.slots| && s.slots[i].value.Some?
        && s.slots[i].owner != t :: s'.slots[i] == s.slots[i]
    requires s'.calls == s.calls && s'.finished == s.finished && s'.epoch == s.epoch
    requires s'.perf == s.perf.(woken := s'.perf.woken)
    ensures CoverOk(s')
  {
    forall u | 0 <= u < |s.threads| && s.threads[u].pc.InPoll?
      ensures OwnsSlot(s.threads, s.slots, u) && OwnsSlot(s'.threads, s'.slots, u) && Mem(s', u) == Mem(s, u)
    {
      assert ThreadOk(s.cfg, s.threads, s.slots, u) && ThreadOk(s.cfg, s'.threads, s'.slots, u);
    }
    hide CoreOk;
    ThreadsKeepCoverOk(s, s');
  }

  // ----- steps of the performer -----

  /** The performer's steps only matter through what they do to `Progress`. */
  lemma PerformerKeepsCoverOk(s: State, s': State)
    requires CoverOk(s) && s'.threads == s.threads && s'.calls == s.calls && s'.finished == s.finished
    requires forall k | 0 <= k < |s.calls| && Progress(s, s.calls[k].snap) && SnapOk(s.threads, s.calls[k].snap) ::
               Progress(s', s.calls[k].snap)
    ensures CoverOk(s')
  {
    hide SnapOk, Ended, Progress;
  }

  /** Outside of the scan, no step of the performer lands an epoch id or ends the grace period. */
  predicate LandsNothing(s: State, s': State) {
    && s'.epoch == s.epoch && s'.threads == s.threads && s'.slots == s.slots && !s'.perf.pc.ScanSlot?
    && (FinalEpochLanded(s') ==> FinalEpochLanded(s))
    && (GracePeriodOver(s'.perf) ==> GracePeriodOver(s.perf))
  }

  lemma ChooseEpochLandsNothing(s: State, s': State)
    requires PerformerOk(s) && DoChooseEpoch(s, s')
    ensures LandsNothing(s, s')
  {
    hide Offs, EpochIssued, FlagIssued;
  }

  lemma SubscribeLandsNothing(s: State, s': State)
    requires PerformerOk(s) && DoSubscribe(s, s')
    ensures LandsNothing(s, s')
  {
    hide PerformerOk;
  }

  lemma PollSubscriberLandsNothing(s: State, s': State)
    requires PerformerOk(s) && DoPollSubscriber(s, s')
    ensures LandsNothing(s, s')
  {
    hide InfoUnlocked, Offs, EpochIssued, FlagIssued;
  }

  lemma DropSubscriberLandsNothing(s: State, s': State)
    requires PerformerOk(s) && DoDropSubscriber(s, s')
    ensures LandsNothing(s, s')
  {
    hide InfoUnlocked, Offs, EpochIssued, FlagIssued;
  }

  lemma PerformLandsNothing(s: State, s': State)
    requires PerformerOk(s) && !DoScan(s, s') && DoPerform(s, s')
    ensures LandsNothing(s, s')
  {
    hide PerformerOk, LandsNothing, DoScan;
    if DoChooseEpoch(s, s') {
      ChooseEpochLandsNothing(s, s');
    } else if DoSubscribe(s, s') {
      SubscribeLandsNothing(s, s');
    } else if DoPollSubscriber(s, s') {
      PollSubscriberLandsNothing(s, s');
    } else {
      DropSubscriberLandsNothing(s, s');
    }
  }

  lemma PerformKeepsProgress(s: State, s': State, snap: map<ThreadId, nat>)
    requires CoreOk(s) && !DoScan(s, s') && DoPerform(s, s')
    requires Progress(s, snap)
    ensures Progress(s', snap)
  {
    PerformLandsNothing(s, s');
    hide CoreOk, DoPerform, DoScan, FinalEpochLanded, GracePeriodOver;
  }

  /** A busy thread that has not published the new epoch id stops the scan. */
  lemma BlockingThreadStopsScan(s: State, t: ThreadId)
    requires CoreOk(s) && FinalEpochLanded(s) && Blocks(s, t) && s.threads[t].pc.InPoll?
    ensures Mem(s, t).busy && !Seen(s.perf.phase, Mem(s, t).epoch)
  {
    assert ThreadOk(s.cfg, s.threads, s.slots, t);
    assert FreshLocal(s.epoch, s.stale, s.threads[t], Mem(s, t));
  }

  lemma ScanLenKeepsProgress(s: State, s': State, snap: map<ThreadId, nat>)
    requires CoreOk(s) && s.perf.pc.ScanLen? && DoScan(s, s') && Progress(s, snap)
    ensures Progress(s', snap)
  {
    assert FinalEpochLanded(s') ==> FinalEpochLanded(s);
    hide CoreOk, FinalEpochLanded;
  }

  /** The scan does not move past the slot of a thread that is still in a recorded poll. */
  lemma ScanKeepsBlocker(s: State, s': State, t: ThreadId)
    requires CoreOk(s) && s.perf.pc.ScanSlot? && DoScan(s, s')
    requires FinalEpochLanded(s) && Blocks(s, t) && s.threads[t].pc.InPoll?
    ensures s.perf.idx < s.perf.len && (s'.perf.pc.ScanSlot? || s'.perf.pc.FirstCheck?) && Blocks(s', t)
  {
    BlockingThreadStopsScan(s, t);
    hide CoreOk, Seen;
  }

  lemma ScanSlotKeepsProgress(s: State, s': State, snap: map<ThreadId, nat>)
    requires CoreOk(s) && s.perf.pc.ScanSlot? && DoScan(s, s')
    requires Progress(s, snap) && SnapOk(s.threads, snap)
    ensures Progress(s', snap)
  {
    assert s.perf.idx <= s.perf.len;
    assert FinalEpochLanded(s') ==> FinalEpochLanded(s);
    assert GracePeriodOver(s'.perf) ==> FinalEpochLanded(s) && s.perf.idx == s.perf.len;
    assert s'.threads == s.threads;
    hide CoreOk, DoScan, FinalEpochLanded, GracePeriodOver, Blocks;
    forall t | t in snap && StillIn(s.threads, t, snap[t]) && FinalEpochLanded(s)
      ensures s.perf.idx < s.perf.len && Blocks(s', t)
    {
      ScanKeepsBlocker(s, s', t);
    }
    hide SnapOk;
  }

  lemma DrainKeepsProgress(s: State, s': State, snap: map<ThreadId, nat>)
    requires CoreOk(s) && DoDrainPerformer(s, s')
    requires Progress(s, snap) && SnapOk(s.threads, snap)
    ensures Progress(s', snap)
  {
    DrainKeepsPerformerOk(s, s');
    forall t | t in snap && StillIn(s.threads, t, snap[t])
      ensures OwnsSlot(s.threads, s.slots, t) && Admits(s.epoch, s.stale, Mem(s, t).epoch)
      ensures Mem(s, t).epoch != 0
    {
      assert ThreadOk(s.cfg, s.threads, s.slots, t);
    }
    hide LocalOk, FreshLocal, SlotsOk, FreshOk, ScanOk;
  }

  lemma PerformKeepsCoverOk(s: State, s': State)
    requires CoreOk(s) && CoverOk(s) && DoPerform(s, s')
    ensures CoverOk(s')
  {
    assert DoScan(s, s') ==> s.perf.pc.ScanLen? || s.perf.pc.ScanSlot?;
    hide CoreOk, CoverOk, DoPerform, DoScan, Progress, SnapOk;
    forall k | 0 <= k < |s.calls| && Progress(s, s.calls[k].snap) && SnapOk(s.threads, s.calls[k].snap)
      ensures Progress(s', s.calls[k].snap)
    {
      if DoScan(s, s') {
        if s.perf.pc.ScanLen? {
          ScanLenKeepsProgress(s, s', s.calls[k].snap);
        } else {
          ScanSlotKeepsProgress(s, s', s.calls[k].snap);
        }
      } else {
        PerformKeepsProgress(s, s', s.calls[k].snap);
      }
    }
    PerformFrame(s, s');
    PerformerKeepsCoverOk(s, s');
  }

  lemma PerformFrame(s: State, s': State)
    requires DoPerform(s, s')
    ensures s' == s.(perf := s'.perf, stale := s'.stale, info := s'.info)
  {
  }

  lemma ResumeKeepsCoverOk(s: State, s': State, t: ThreadId)
    requires CoverOk(s) && DoResume(s, s', t)
    ensures CoverOk(s')
  {
    PerformerKeepsCoverOk(s, s');
  }

  lemma DrainPerformerKeepsCoverOk(s: State, s': State)
    requires CoreOk(s) && CoverOk(s) && DoDrainPerformer(s, s')
    ensures CoverOk(s')
  {
    forall k | 0 <= k < |s.calls| && Progress(s, s.calls[k].snap) && SnapOk(s.threads, s.calls[k].snap)
      ensures Progress(s', s.calls[k].snap)
    {
      DrainKeepsProgress(s, s', s.calls[k].snap);
    }
    PerformerKeepsCoverOk(s, s');
  }

  // ----- steps of the calls -----

  /** No call gains an id, starts performing, or returns without cover. */
  ghost predicate CallsQuiet(s: State, s': State) {
    && s'.threads == s.threads && s'.slots == s.slots && s'.epoch == s.epoch && s'.perf == s.perf
    && s'.finished <= s.finished && |s'.calls| == |s.calls|
    && forall j | 0 <= j < |s.calls| ::
         && s'.calls[j].snap == s.calls[j].snap
         && (HasId(s'.calls[j].pc) ==> HasId(s.calls[j].pc) && s'.calls[j].id == s.calls[j].id)
         && (s'.calls[j].pc.Performing? ==> s.calls[j].pc.Performing? && s'.calls[j].sampled == s.calls[j].sampled)
         && (Returning(s'.calls[j].pc) ==> Returning(s.calls[j].pc) || Ended(s.threads, s.calls[j].snap))
  }

  lemma QuietCallsKeepCoverOk(s: State, s': State)
    requires CoverOk(s) && CallsQuiet(s, s')
    ensures CoverOk(s')
  {
    hide SnapOk, Ended, HasId, Returning;
    forall j | 0 <= j < |s.calls| && Progress(s, s.calls[j].snap)
      ensures Progress(s', s.calls[j].snap)
    {
    }
    hide Progress;
  }

  lemma BeginKeepsCoverOk(s: State, s': State, k: CallId, olds: set<BoxId>)
    requires CoverOk(s) && DoBegin(s, s', k, olds)
    ensures CoverOk(s')
  {
    UpdateIsQuiet(s, s', k, s'.calls[k]) by { hide CoverOk; }
    QuietCallsKeepCoverOk(s, s');
  }

  /** One call moved on, without gaining an id, performing, or returning without cover. */
  lemma UpdateIsQuiet(s: State, s': State, k: CallId, c: Call)
    requires IsCall(s, k) && s'.calls == s.calls[k := c] && s'.finished <= s.finished
    requires s'.threads == s.threads && s'.slots == s.slots && s'.epoch == s.epoch && s'.perf == s.perf
    requires c.snap == s.calls[k].snap && (HasId(c.pc) ==> HasId(s.calls[k].pc) && c.id == s.calls[k].id)
    requires !c.pc.Performing? && (Returning(c.pc) ==> Returning(s.calls[k].pc) || Ended(s.threads, s.calls[k].snap))
    ensures CallsQuiet(s, s')
  {
    hide HasId, Returning, Ended;
  }

  lemma NotifyFollowersIsQuiet(s: State, s': State, k: CallId)
    requires IsCall(s, k) && s.calls[k].pc.LeadNotify? && DoLead(s, s', k)
    ensures CallsQuiet(s, s')
  {
    assert forall j | 0 <= j < |s.calls| && j != k :: s'.calls[j] == NotifyFollower(s.calls[j]);
    hide NotifyFollowers, Ended;
  }

  lemma LeadKeepsCoverOk(s: State, s': State, k: CallId)
    requires CoverOk(s) && DoLead(s, s', k)
    ensures CoverOk(s')
  {
    hide CoverOk, CallsQuiet, NoReader, NoWriter, Ended;
    if s.calls[k].pc.LeadNotify? {
      NotifyFollowersIsQuiet(s, s', k);
    } else {
      UpdateIsQuiet(s, s', k, s'.calls[k]);
    }
    QuietCallsKeepCoverOk(s, s');
  }

  lemma FollowKeepsCoverOk(s: State, s': State, k: CallId)
    requires CoverOk(s) && DoFollow(s, s', k)
    ensures CoverOk(s')
  {
    UpdateIsQuiet(s, s', k, s'.calls[k]) by { hide CoverOk; }
    QuietCallsKeepCoverOk(s, s');
  }

  lemma ReturnKeepsCoverOk(s: State, s': State, k: CallId)
    requires CoverOk(s) && DoReturn(s, s', k)
    ensures CoverOk(s')
  {
    UpdateIsQuiet(s, s', k, s'.calls[k]) by { hide CoverOk, Ended; }
    QuietCallsKeepCoverOk(s, s');
  }

  /** A new id is greater than every id that is covered already, or will be by the grace period under way. */
  lemma NewIdIsUncovered(s: State, s': State, k: CallId)
    requires CallsOk(s) && DoTakeId(s, s', k) && s'.calls[k].pc.WantMutex?
    ensures s'.calls[k].id > s.finished && s'.finished == s.finished && s'.perf == s.perf
    ensures s'.threads == s.threads && s'.slots == s.slots && s'.epoch == s.epoch
    ensures s'.calls == s.calls[k := s'.calls[k]] && s'.calls[k].snap == PollsInProgress(s.threads)
    ensures forall p | 0 <= p < |s.calls| && s.calls[p].pc.Performing? :: s.calls[p].sampled < s'.calls[k].id
  {
    ReaderExcludesReset(s, k);
    assert forall p | 0 <= p < |s.calls| :: CallOk(s.cfg, s.calls[p], s.started, s.finished);
    hide LocksOk, DistinctOk, LeadersOk, PerformerLinked, NoWriter;
  }

  lemma AddIdKeepsCoverOk(s: State, s': State, k: CallId, c: Call)
    requires CoverOk(s) && IsCall(s, k) && s'.calls == s.calls[k := c]
    requires s'.threads == s.threads && s'.slots == s.slots && s'.epoch == s.epoch && s'.perf == s.perf
    requires s'.finished == s.finished < c.id && c.pc.WantMutex? && SnapOk(s.threads, c.snap)
    requires forall p | 0 <= p < |s.calls| && s.calls[p].pc.Performing? :: s.calls[p].sampled < c.id
    ensures CoverOk(s')
  {
    forall snap: map<ThreadId, nat> | Progress(s, snap)
      ensures Progress(s', snap)
    {
    }
    hide SnapOk, Ended, Progress;
  }

  lemma TakeIdKeepsCoverOk(s: State, s': State, k: CallId)
    requires CallsOk(s) && CoverOk(s) && DoTakeId(s, s', k)
    ensures CoverOk(s')
  {
    hide CallsOk, CoverOk;
    if s'.calls[k].pc.WantMutex? {
      NewIdIsUncovered(s, s', k);
      hide DoTakeId;
      assert SnapOk(s.threads, s'.calls[k].snap);
      hide SnapOk, PollsInProgress;
      AddIdKeepsCoverOk(s, s', k, s'.calls[k]);
    } else {
      hide Ended, CallsQuiet, NoWriter, PollsInProgress;
      UpdateIsQuiet(s, s', k, s'.calls[k]);
      QuietCallsKeepCoverOk(s, s');
    }
  }

  /** Finding the own id covered, or publishing the ids that were sampled before the grace period. */
  lemma SerializedKeepsCoverOk(s: State, s': State, k: CallId, t: ThreadId)
    requires CallsOk(s) && CoverOk(s) && DoSerialized(s, s', k, t)
    ensures CoverOk(s')
  {
    if s.calls[k].pc.StartPerforming? {
      StartKeepsCoverOk(s, s', k, t);
    } else if s.calls[k].pc.Performing? {
      PublishKeepsCoverOk(s, s', k, t);
    } else {
      assert s.calls[k].pc.CheckFinished? && s.finished >= s.calls[k].id ==> Ended(s.threads, s.calls[k].snap);
      assert s.calls[k].pc.Unlock? ==> Returning(s.calls[k].pc);
      hide CoverOk, CallsOk, CallsQuiet, Ended, MutexFree;
      UpdateIsQuiet(s, s', k, s'.calls[k]);
      QuietCallsKeepCoverOk(s, s');
    }
  }

  lemma StartKeepsCoverOk(s: State, s': State, k: CallId, t: ThreadId)
    requires CallsOk(s) && CoverOk(s) && IsCall(s, k) && s.calls[k].pc.StartPerforming? && DoSerialized(s, s', k, t)
    ensures CoverOk(s')
  {
    forall snap: map<ThreadId, nat>
      ensures Progress(s', snap)
    {
    }
    hide SnapOk, Ended, Progress, CallsOk;
  }

  lemma PublishKeepsCoverOk(s: State, s': State, k: CallId, t: ThreadId)
    requires CallsOk(s) && CoverOk(s) && IsCall(s, k) && s.calls[k].pc.Performing? && DoSerialized(s, s', k, t)
    ensures CoverOk(s')
  {
    assert CallOk(s.cfg, s.calls[k], s.started, s.finished);
    assert forall j | 0 <= j < |s.calls| && HasId(s.calls[j].pc) && s.calls[j].id <= s.calls[k].sampled ::
      Progress(s, s.calls[j].snap);
    assert forall j | 0 <= j < |s.calls| && j != k :: !s'.calls[j].pc.Performing?;
    hide SnapOk, Ended, CallsOk;
  }
}
