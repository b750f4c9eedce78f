/**
 The calls of `synchronize_rcu` among themselves: exclusion by the reset lock and the mutex, the id
 counters, and the two roles of a counter reset.
 */
module CallInvariant {
  import opened Common
  import opened Protocol

  ghost predicate LocksOk(calls: seq<Call>) {
    && (forall j, k | 0 <= j < |calls| && 0 <= k < |calls| && j != k ::
          HoldsWrite(calls[j].pc) ==> !HoldsWrite(calls[k].pc) && !HoldsRead(calls[k].pc))
    && (forall j, k | 0 <= j < |calls| && 0 <= k < |calls| && j != k ::
          HoldsMutex(calls[j].pc) ==> !HoldsMutex(calls[k].pc))
  }

  /** The leader of a reset that has not stored to the counters yet. */
  predicate PendingLeader(pc: CallPc) {
    pc.LeadRelease? || pc.LeadWantWrite? || pc.LeadResetStarted?
  }

  /** The leader of a reset that has not notified its followers yet. */
  predicate Leader(pc: CallPc) {
    PendingLeader(pc) || pc.LeadResetFinished? || pc.LeadUnlock? || pc.LeadNotify?
  }

  predicate Waits(c: Call) {
    (c.pc.FollowRelease? || c.pc.FollowWait?) && !c.notified
  }

  ghost predicate SomeResetWindow(calls: seq<Call>) {
    exists k | 0 <= k < |calls| :: calls[k].pc.LeadResetFinished?
  }

  ghost predicate SomePendingLeader(calls: seq<Call>) {
    exists k | 0 <= k < |calls| :: PendingLeader(calls[k].pc)
  }

  ghost predicate SomeLeader(calls: seq<Call>) {
    exists k | 0 <= k < |calls| :: Leader(calls[k].pc)
  }

  predicate CallOk(cfg: Config, c: Call, started: nat, finished: nat) {
    && (HasId(c.pc) ==> 1 <= c.id <= started && c.id < cfg.gpMax)
    && (c.pc.StartPerforming? || c.pc.Performing? ==> c.id <= c.sampled <= started)
    && (PendingLeader(c.pc) || c.pc.FollowSubscribe? || c.pc.FollowRelease? ==> started == cfg.gpMax)
    && (c.pc.LeadResetFinished? || c.pc.LeadUnlock? ==> started == 0)
    && (c.pc.LeadUnlock? ==> finished == 0)
  }

  ghost predicate CountersOk(cfg: Config, calls: seq<Call>, started: nat, finished: nat) {
    && started <= cfg.gpMax && finished <= cfg.gpMax
    && (forall k | 0 <= k < |calls| :: CallOk(cfg, calls[k], started, finished))
    && (finished <= started || SomeResetWindow(calls))
  }

  /** Ids of live calls are distinct, and at most one call leads the pending reset. */
  ghost predicate DistinctOk(calls: seq<Call>) {
    && (forall j, k | 0 <= j < |calls| && 0 <= k < |calls| && j != k ::
          HasId(calls[j].pc) && HasId(calls[k].pc) ==> calls[j].id != calls[k].id)
    && (forall j, k | 0 <= j < |calls| && 0 <= k < |calls| && j != k ::
          PendingLeader(calls[j].pc) ==> !PendingLeader(calls[k].pc))
  }

  /** A full counter has a leader, and a follower that waits in vain so far has one that is still to notify. */
  ghost predicate LeadersOk(cfg: Config, calls: seq<Call>, started: nat) {
    && (started == cfg.gpMax ==> SomePendingLeader(calls))
    && (forall k | 0 <= k < |calls| && Waits(calls[k]) :: SomeLeader(calls))
  }

  ghost predicate PerformerLinked(calls: seq<Call>, pc: PerfPc) {
    pc.Off? <==> forall k | 0 <= k < |calls| :: !calls[k].pc.Performing?
  }

  ghost predicate CallsOk(s: State) {
    && ValidConfig(s.cfg)
    && LocksOk(s.calls) && CountersOk(s.cfg, s.calls, s.started, s.finished) && DistinctOk(s.calls)
    && LeadersOk(s.cfg, s.calls, s.started) && PerformerLinked(s.calls, s.perf.pc)
  }

  // ----- replacing one call -----

  lemma UpdateKeepsLocks(calls: seq<Call>, k: CallId, c: Call)
    requires LocksOk(calls) && k < |calls|
    requires HoldsRead(c.pc) ==> HoldsRead(calls[k].pc) || NoWriter(calls)
    requires HoldsWrite(c.pc) ==> HoldsWrite(calls[k].pc) || (NoReader(calls) && NoWriter(calls))
    requires HoldsMutex(c.pc) ==> HoldsMutex(calls[k].pc) || MutexFree(calls)
    ensures LocksOk(calls[k := c])
  {
    hide HoldsRead, HoldsWrite, HoldsMutex;
  }

  lemma UpdateKeepsDistinct(calls: seq<Call>, k: CallId, c: Call)
    requires DistinctOk(calls) && k < |calls|
    requires HasId(c.pc) ==>
               || (HasId(calls[k].pc) && c.id == calls[k].id)
               || (forall j | 0 <= j < |calls| && HasId(calls[j].pc) :: calls[j].id != c.id)
    requires PendingLeader(c.pc) ==> PendingLeader(calls[k].pc) || !SomePendingLeader(calls)
    ensures DistinctOk(calls[k := c])
  {
    hide HasId, PendingLeader;
  }

  lemma UpdateKeepsLeaders(cfg: Config, calls: seq<Call>, started: nat, k: CallId, c: Call, started': nat)
    requires LeadersOk(cfg, calls, started) && k < |calls|
    requires Leader(calls[k].pc) ==> Leader(c.pc)
    requires Waits(c) ==> Waits(calls[k]) || SomePendingLeader(calls)
    requires started' == cfg.gpMax ==>
               PendingLeader(c.pc) || (started == cfg.gpMax && !PendingLeader(calls[k].pc))
    ensures LeadersOk(cfg, calls[k := c], started')
  {
    var calls' := calls[k := c];
    if SomeLeader(calls) {
      var j :| 0 <= j < |calls| && Leader(calls[j].pc);
      assert Leader(calls'[j].pc);
    }
    if SomePendingLeader(calls) {
      var j :| 0 <= j < |calls| && PendingLeader(calls[j].pc);
      assert Leader(calls[j].pc) && Leader(calls'[j].pc);
      assert j != k ==> PendingLeader(calls'[j].pc);
    }
    assert calls'[k] == c;
  }

  lemma UpdateKeepsWindow(calls: seq<Call>, k: CallId, c: Call)
    requires k < |calls| && SomeResetWindow(calls)
    requires calls[k].pc.LeadResetFinished? ==> c.pc.LeadResetFinished?
    ensures SomeResetWindow(calls[k := c])
  {
    var j :| 0 <= j < |calls| && calls[j].pc.LeadResetFinished?;
    assert calls[k := c][j].pc.LeadResetFinished?;
  }

  lemma UpdateKeepsLink(calls: seq<Call>, k: CallId, c: Call, pc: PerfPc, pc': PerfPc)
    requires LocksOk(calls) && PerformerLinked(calls, pc) && k < |calls|
    requires c.pc.Performing? && !calls[k].pc.Performing? ==> HoldsMutex(calls[k].pc)
    requires c.pc.Performing? == calls[k].pc.Performing? ==> pc.Off? == pc'.Off?
    requires c.pc.Performing? != calls[k].pc.Performing? ==> pc'.Off? == !c.pc.Performing?
    ensures PerformerLinked(calls[k := c], pc')
  {
    var calls' := calls[k := c];
    if c.pc.Performing? {
      assert calls'[k].pc.Performing?;
    } else if !calls[k].pc.Performing? && !pc.Off? {
      var j :| 0 <= j < |calls| && calls[j].pc.Performing?;
      assert calls'[j].pc.Performing?;
    }
  }

  /** The counters after one call moved on and nothing but its own stores changed them. */
  predicate CountersMove(s: State, k: CallId, c: Call, started: nat, finished: nat) {
    && started <= s.cfg.gpMax && finished <= s.cfg.gpMax && CallOk(s.cfg, c, started, finished)
    && (forall j | 0 <= j < |s.calls| && j != k :: CallOk(s.cfg, s.calls[j], started, finished))
  }

  /** Replacing one call keeps the invariant if the replacement respects the locks, the ids and the roles. */
  lemma UpdateKeepsCallsOk(s: State, s': State, k: CallId, c: Call)
    requires CallsOk(s) && IsCall(s, k) && s'.cfg == s.cfg && s'.calls == s.calls[k := c]
    // the counters
    requires CountersMove(s, k, c, s'.started, s'.finished)
    requires s'.finished <= s'.started || c.pc.LeadResetFinished? || (SomeResetWindow(s.calls)
        && !s.calls[k].pc.LeadResetFinished?)
    // the locks
    requires HoldsRead(c.pc) ==> HoldsRead(s.calls[k].pc) || NoWriter(s.calls)
    requires HoldsWrite(c.pc) ==> HoldsWrite(s.calls[k].pc) || (NoReader(s.calls) && NoWriter(s.calls))
    requires HoldsMutex(c.pc) ==> HoldsMutex(s.calls[k].pc) || MutexFree(s.calls)
    // the ids
    requires HasId(c.pc) ==>
               || (HasId(s.calls[k].pc) && c.id == s.calls[k].id)
               || (forall j | 0 <= j < |s.calls| && HasId(s.calls[j].pc) :: s.calls[j].id != c.id)
    // the roles
    requires PendingLeader(c.pc) ==> PendingLeader(s.calls[k].pc) || !SomePendingLeader(s.calls)
    requires Leader(s.calls[k].pc) ==> Leader(c.pc)
    requires Waits(c) ==> Waits(s.calls[k]) || SomePendingLeader(s.calls)
    requires s'.started == s.cfg.gpMax ==>
               PendingLeader(c.pc) || (s.started == s.cfg.gpMax && !PendingLeader(s.calls[k].pc))
    // the performer
    requires c.pc.Performing? && !s.calls[k].pc.Performing? ==> HoldsMutex(s.calls[k].pc)
    requires c.pc.Performing? == s.calls[k].pc.Performing? ==> s.perf.pc.Off? == s'.perf.pc.Off?
    requires c.pc.Performing? != s.calls[k].pc.Performing? ==> s'.perf.pc.Off? == !c.pc.Performing?
    ensures CallsOk(s')
  {
    hide CallOk, LocksOk, DistinctOk, LeadersOk, PerformerLinked, HoldsRead, HoldsWrite, HoldsMutex, HasId,
        PendingLeader, Leader, Waits;
    UpdateKeepsLocks(s.calls, k, c);
    UpdateKeepsDistinct(s.calls, k, c);
    UpdateKeepsLeaders(s.cfg, s.calls, s.started, k, c, s'.started);
    UpdateKeepsLink(s.calls, k, c, s.perf.pc, s'.perf.pc);
    if SomeResetWindow(s.calls) && !s.calls[k].pc.LeadResetFinished? {
      UpdateKeepsWindow(s.calls, k, c);
    } else {
      assert s'.calls[k] == c;
    }
  }

  /** While a call holds the read lock, no reset is under way. */
  lemma ReaderExcludesReset(s: State, k: CallId)
    requires CallsOk(s) && IsCall(s, k) && HoldsRead(s.calls[k].pc)
    ensures NoWriter(s.calls) && s.finished <= s.started
  {
  }

  // ----- the steps -----

  lemma BeginKeepsCallsOk(s: State, s': State, k: CallId, olds: set<BoxId>)
    requires CallsOk(s) && DoBegin(s, s', k, olds)
    ensures CallsOk(s')
  {
    var c := s'.calls[k];
    assert s'.calls == s.calls[k := c];
    hide LocksOk, DistinctOk, LeadersOk, PerformerLinked, SomeResetWindow;
    UpdateKeepsCallsOk(s, s', k, c);
  }

  lemma WantReadKeepsCallsOk(s: State, s': State, k: CallId)
    requires CallsOk(s) && IsCall(s, k) && s.calls[k].pc.WantRead? && DoTakeId(s, s', k)
    ensures CallsOk(s')
  {
    var c := s'.calls[k];
    assert s'.calls == s.calls[k := c];
    hide LocksOk, DistinctOk, LeadersOk, PerformerLinked, SomeResetWindow;
    UpdateKeepsCallsOk(s, s', k, c);
  }

  lemma IncrementKeepsCallsOk(s: State, s': State, k: CallId)
    requires CallsOk(s) && IsCall(s, k) && s.calls[k].pc.TryIncrement? && s.started < s.cfg.gpMax && DoTakeId(s, s', k)
    ensures CallsOk(s')
  {
    var c := s'.calls[k];
    assert s'.calls == s.calls[k := c];
    ReaderExcludesReset(s, k);
    hide LocksOk, DistinctOk, LeadersOk, PerformerLinked, SomeResetWindow;
    UpdateKeepsCallsOk(s, s', k, c);
  }

  lemma FullCounterKeepsCallsOk(s: State, s': State, k: CallId)
    requires CallsOk(s) && IsCall(s, k) && s.calls[k].pc.TryIncrement? && s.started >= s.cfg.gpMax && DoTakeId(s, s', k)
    ensures CallsOk(s')
  {
    var c := s'.calls[k];
    assert s'.calls == s.calls[k := c];
    ReaderExcludesReset(s, k);
    hide LocksOk, DistinctOk, LeadersOk, PerformerLinked, SomeResetWindow;
    UpdateKeepsCallsOk(s, s', k, c);
  }

  lemma TakeIdKeepsCallsOk(s: State, s': State, k: CallId)
    requires CallsOk(s) && DoTakeId(s, s', k)
    ensures CallsOk(s')
  {
    if s.calls[k].pc.WantRead? {
      WantReadKeepsCallsOk(s, s', k);
    } else if s.started < s.cfg.gpMax {
      IncrementKeepsCallsOk(s, s', k);
    } else {
      FullCounterKeepsCallsOk(s, s', k);
    }
  }

  lemma FollowKeepsCallsOk(s: State, s': State, k: CallId)
    requires CallsOk(s) && DoFollow(s, s', k)
    ensures CallsOk(s')
  {
    var c := s'.calls[k];
    assert s'.calls == s.calls[k := c];
    hide LocksOk, DistinctOk, LeadersOk, PerformerLinked, SomeResetWindow;
    UpdateKeepsCallsOk(s, s', k, c);
  }

  lemma ReturnKeepsCallsOk(s: State, s': State, k: CallId)
    requires CallsOk(s) && DoReturn(s, s', k)
    ensures CallsOk(s')
  {
    var c := s'.calls[k];
    assert s'.calls == s.calls[k := c];
    hide LocksOk, DistinctOk, LeadersOk, PerformerLinked, SomeResetWindow;
    UpdateKeepsCallsOk(s, s', k, c);
  }

  lemma QueueKeepsCallsOk(s: State, s': State, k: CallId, t: ThreadId)
    requires CallsOk(s) && IsCall(s, k)
        && (s.calls[k].pc.WantMutex? || s.calls[k].pc.CheckFinished? || s.calls[k].pc.LoadStarted?)
             && DoSerialized(s, s', k, t)
    ensures CallsOk(s')
  {
    var c := s'.calls[k];
    assert s'.calls == s.calls[k := c];
    ReaderExcludesReset(s, k);
    hide LocksOk, DistinctOk, LeadersOk, PerformerLinked, SomeResetWindow;
    UpdateKeepsCallsOk(s, s', k, c);
  }

  lemma BracketKeepsCallsOk(s: State, s': State, k: CallId, t: ThreadId)
    requires CallsOk(s) && IsCall(s, k)
        && (s.calls[k].pc.StartPerforming? || s.calls[k].pc.Performing? || s.calls[k].pc.Unlock?)
             && DoSerialized(s, s', k, t)
    ensures CallsOk(s')
  {
    var c := s'.calls[k];
    assert s'.calls == s.calls[k := c];
    ReaderExcludesReset(s, k);
    hide LocksOk, DistinctOk, LeadersOk, PerformerLinked, SomeResetWindow;
    UpdateKeepsCallsOk(s, s', k, c);
  }

  lemma SerializedKeepsCallsOk(s: State, s': State, k: CallId, t: ThreadId)
    requires CallsOk(s) && DoSerialized(s, s', k, t)
    ensures CallsOk(s')
  {
    hide CallsOk;
    if s.calls[k].pc.WantMutex? || s.calls[k].pc.CheckFinished? || s.calls[k].pc.LoadStarted? {
      QueueKeepsCallsOk(s, s', k, t);
    } else {
      BracketKeepsCallsOk(s, s', k, t);
    }
  }

  /** The write lock excludes every call with an id, and every follower of this generation has subscribed by then. */
  lemma WriterExcludesOthers(s: State, k: CallId, c: Call, started: nat, finished: nat)
    requires CallsOk(s) && IsCall(s, k) && HoldsWrite(s.calls[k].pc)
    requires started == 0 || started == s.started
    requires finished == 0 || finished == s.finished
    requires CallOk(s.cfg, c, started, finished) && finished <= s.cfg.gpMax
    ensures CountersMove(s, k, c, started, finished)
    ensures s.calls[k].pc.LeadResetStarted? ==> forall j | 0 <= j < |s.calls| && j != k :: !PendingLeader(s.calls[j].pc)
  {
    forall j | 0 <= j < |s.calls| && j != k
      ensures CallOk(s.cfg, s.calls[j], started, finished)
    {
      assert CallOk(s.cfg, s.calls[j], s.started, s.finished);
      assert !HoldsRead(s.calls[j].pc) && !HoldsWrite(s.calls[j].pc);
    }
  }

  lemma AcquireKeepsCallsOk(s: State, s': State, k: CallId)
    requires CallsOk(s) && IsCall(s, k) && (s.calls[k].pc.LeadRelease? || s.calls[k].pc.LeadWantWrite?)
        && DoLead(s, s', k)
    ensures CallsOk(s')
  {
    var c := s'.calls[k];
    assert s'.calls == s.calls[k := c];
    hide LocksOk, DistinctOk, LeadersOk, PerformerLinked, SomeResetWindow;
    UpdateKeepsCallsOk(s, s', k, c);
  }

  lemma ResetKeepsCallsOk(s: State, s': State, k: CallId)
    requires CallsOk(s) && IsCall(s, k) && HoldsWrite(s.calls[k].pc) && DoLead(s, s', k)
    ensures CallsOk(s')
  {
    var c := s'.calls[k];
    assert s'.calls == s.calls[k := c];
    WriterExcludesOthers(s, k, c, s'.started, s'.finished);
    hide LocksOk, DistinctOk, LeadersOk, PerformerLinked, SomeResetWindow, CountersMove;
    UpdateKeepsCallsOk(s, s', k, c);
  }

  lemma NotifyFollowersKeepsGroups(calls: seq<Call>, calls': seq<Call>, k: CallId)
    requires LocksOk(calls) && DistinctOk(calls) && k < |calls| == |calls'|
    requires forall j | 0 <= j < |calls| && j != k :: calls'[j] == NotifyFollower(calls[j])
    requires calls[k].pc.LeadNotify? && calls'[k].pc.WantRead?
    ensures LocksOk(calls') && DistinctOk(calls')
    ensures SomePendingLeader(calls) ==> SomePendingLeader(calls')
    ensures SomeResetWindow(calls) ==> SomeResetWindow(calls')
    ensures forall j | 0 <= j < |calls| :: !Waits(calls'[j])
  {
    assert forall j | 0 <= j < |calls| && j != k ::
      calls'[j].pc == calls[j].pc && calls'[j].id == calls[j].id && !Waits(calls'[j]);
    hide NotifyFollower;
    if SomePendingLeader(calls) {
      var j :| 0 <= j < |calls| && PendingLeader(calls[j].pc);
      assert PendingLeader(calls'[j].pc);
    }
    if SomeResetWindow(calls) {
      var j :| 0 <= j < |calls| && calls[j].pc.LeadResetFinished?;
      assert calls'[j].pc.LeadResetFinished?;
    }
    assert !PendingLeader(calls'[k].pc) && !HasId(calls'[k].pc) && !HoldsRead(calls'[k].pc)
        && !HoldsWrite(calls'[k].pc);
    hide HasId, HoldsMutex, HoldsRead, HoldsWrite, PendingLeader;
  }

  lemma NotifyFollowersKeepsCounters(cfg: Config, calls: seq<Call>, calls': seq<Call>, k: CallId, started: nat,
      finished: nat, pc: PerfPc)
    requires k < |calls| == |calls'|
    requires forall j | 0 <= j < |calls| && j != k :: calls'[j] == NotifyFollower(calls[j])
    requires calls[k].pc.LeadNotify? && calls'[k].pc.WantRead?
    requires forall j | 0 <= j < |calls| :: CallOk(cfg, calls[j], started, finished)
    requires PerformerLinked(calls, pc)
    ensures forall j | 0 <= j < |calls| :: CallOk(cfg, calls'[j], started, finished)
    ensures PerformerLinked(calls', pc)
  {
    forall j | 0 <= j < |calls|
      ensures CallOk(cfg, calls'[j], started, finished)
      ensures calls'[j].pc.Performing? == calls[j].pc.Performing?
    {
      assert CallOk(cfg, calls[j], started, finished);
    }
  }

  lemma NotifyFollowersKeepsCallsOk(s: State, s': State, k: CallId)
    requires CallsOk(s) && IsCall(s, k) && s.calls[k].pc.LeadNotify? && DoLead(s, s', k)
    ensures CallsOk(s')
  {
    var calls' := s'.calls;
    assert forall j | 0 <= j < |s.calls| :: j != k ==> calls'[j] == NotifyFollower(s.calls[j]);
    assert calls'[k].pc.WantRead? && s' == s.(calls := calls');
    hide DoLead, NotifyFollowers, NotifyFollower;
    NotifyFollowersKeepsGroups(s.calls, calls', k);
    NotifyFollowersKeepsCounters(s.cfg, s.calls, calls', k, s.started, s.finished, s.perf.pc);
    hide LocksOk, DistinctOk, SomePendingLeader, SomeResetWindow, PerformerLinked, CallOk;
  }

  lemma LeadKeepsCallsOk(s: State, s': State, k: CallId)
    requires CallsOk(s) && DoLead(s, s', k)
    ensures CallsOk(s')
  {
    hide CallsOk;
    if s.calls[k].pc.LeadNotify? {
      NotifyFollowersKeepsCallsOk(s, s', k);
    } else if HoldsWrite(s.calls[k].pc) {
      ResetKeepsCallsOk(s, s', k);
    } else {
      AcquireKeepsCallsOk(s, s', k);
    }
  }
}
