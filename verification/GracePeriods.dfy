/** What `synchronize_rcu` guarantees on every run, and what this means for the users of RCU boxes. */
module GracePeriods {
  import opened Common
  import opened ThreadStates
  import opened Protocol
  import opened ThreadInvariant
  import opened PerformerInvariant
  import opened CallInvariant
  import opened CoverInvariant
  import opened ClientInvariant
  import opened Invariant

  // ----- the grace-period guarantee -----

  /** In this step the call gets the id it performs or is covered under. */
  predicate TakesId(s: State, s': State, k: CallId) {
    IsCall(s, k) && IsCall(s', k) && !HasId(s.calls[k].pc) && HasId(s'.calls[k].pc)
  }

  /** In this step thread `t` leaves its poll number `n`. */
  predicate EndsPoll(s: State, s': State, t: ThreadId, n: nat) {
    && Polling(s, t) && s.threads[t].polls == n
    && IsThread(s', t) && !Polling(s', t) && s'.threads[t].polls == n + 1
  }

  predicate Identified(pc: CallPc) { HasId(pc) || pc.Done? }

  predicate ByCall(step: Step) {
    step.BeginOf? || step.TakeIdOf? || step.LeadOf? || step.FollowOf? || step.SerializedOf? || step.ReturnOf?
  }

  lemma CallStepsKeepThreads(s: State, s': State, step: Step)
    requires NextBy(s, s', step) && ByCall(step)
    ensures s'.threads == s.threads
  {
    hide NoWriter, NoReader, MutexFree, PollsInProgress, NotifyFollowers;
  }

  lemma OtherStepsKeepCalls(s: State, s': State, step: Step)
    requires NextBy(s, s', step) && !ByCall(step)
    ensures s'.calls == s.calls
  {
    match step {
      case PerformOf => PerformFrame(s, s');
      case NotifyOf(u) => NotifyMovesOneThread(s, s', u);
      case _ =>
    }
    hide DoPerform, DoNotify, HookStep;
  }

  /** The thread is in the same poll, or between the same two, or it has just left a poll. */
  predicate PollMovesOn(s: State, s': State, t: ThreadId)
    requires IsThread(s, t)
  {
    && IsThread(s', t)
    && (s'.threads[t].polls == s.threads[t].polls || EndsPoll(s, s', t, s.threads[t].polls))
    && (Polling(s, t) && s'.threads[t].polls == s.threads[t].polls ==> Polling(s', t))
  }

  lemma HookKeepsPolls(s: State, s': State, u: ThreadId, h: Hook, th': Thread, mem': ThreadState, t: ThreadId)
    requires DoHook(s, s', u, h, th', mem') && IsThread(s, t)
    ensures PollMovesOn(s, s', t)
  {
  }

  lemma NotifyKeepsPolls(s: State, s': State, u: ThreadId, t: ThreadId)
    requires DoNotify(s, s', u) && IsThread(s, t)
    ensures PollMovesOn(s, s', t)
  {
    NotifyMovesOneThread(s, s', u);
    assert IsNotifier(s, u);
    hide DoNotify;
  }

  lemma StepKeepsPolls(s: State, s': State, t: ThreadId)
    requires Next(s, s') && IsThread(s, t)
    ensures PollMovesOn(s, s', t)
  {
    hide DoHook, DoPerform, DoNotify, DoBegin, DoTakeId, DoLead, DoFollow, DoSerialized, DoReturn;
    var step :| NextBy(s, s', step);
    if ByCall(step) {
      CallStepsKeepThreads(s, s', step);
      hide NextBy;
    } else {
      match step {
        case HookOf(u, h, th, mem) => HookKeepsPolls(s, s', u, h, th, mem, t);
        case PerformOf => PerformFrame(s, s');
        case NotifyOf(u) => NotifyKeepsPolls(s, s', u, t);
        case _ =>
      }
    }
  }

  /** A call records the polls in progress when it takes its id, and keeps that record. */
  ghost predicate KeepsSnaps(s: State, s': State) {
    && |s'.calls| == |s.calls|
    && forall j | 0 <= j < |s.calls| ::
         && (Identified(s.calls[j].pc) ==> Identified(s'.calls[j].pc) && s'.calls[j].snap == s.calls[j].snap)
         && (TakesId(s, s', j) ==> s'.calls[j].snap == PollsInProgress(s.threads))
         && (Identified(s'.calls[j].pc) ==> Identified(s.calls[j].pc) || TakesId(s, s', j))
  }

  lemma UpdateKeepsSnaps(s: State, s': State, k: CallId, c: Call)
    requires IsCall(s, k) && s'.calls == s.calls[k := c]
    requires Identified(s.calls[k].pc) ==> Identified(c.pc) && c.snap == s.calls[k].snap
    requires HasId(c.pc) && !HasId(s.calls[k].pc) ==> c.snap == PollsInProgress(s.threads)
    requires c.pc.Done? ==> Identified(s.calls[k].pc)
    ensures KeepsSnaps(s, s')
  {
    hide HasId, PollsInProgress;
  }

  lemma TakeIdKeepsSnaps(s: State, s': State, k: CallId)
    requires DoTakeId(s, s', k)
    ensures KeepsSnaps(s, s')
  {
    hide KeepsSnaps, NoWriter, PollsInProgress;
    UpdateKeepsSnaps(s, s', k, s'.calls[k]);
  }

  lemma SerializedKeepsSnaps(s: State, s': State, k: CallId, t: ThreadId)
    requires DoSerialized(s, s', k, t)
    ensures KeepsSnaps(s, s')
  {
    hide KeepsSnaps, MutexFree, PollsInProgress;
    UpdateKeepsSnaps(s, s', k, s'.calls[k]);
  }

  lemma NotifyFollowersKeepsSnaps(s: State, s': State, k: CallId)
    requires DoLead(s, s', k) && s.calls[k].pc.LeadNotify?
    ensures KeepsSnaps(s, s')
  {
    assert |s'.calls| == |s.calls| && s'.calls[k] == s.calls[k].(pc := WantRead);
    assert forall j | 0 <= j < |s.calls| && j != k :: s'.calls[j] == NotifyFollower(s.calls[j]);
    hide NotifyFollowers, PollsInProgress, DoLead;
    assert forall j | 0 <= j < |s.calls| :: HasId(s'.calls[j].pc) == HasId(s.calls[j].pc);
    hide HasId;
  }

  lemma ResetKeepsSnaps(s: State, s': State, k: CallId)
    requires DoLead(s, s', k) && !s.calls[k].pc.LeadNotify?
    ensures KeepsSnaps(s, s')
  {
    hide KeepsSnaps, NoWriter, NoReader, PollsInProgress, NotifyFollowers;
    UpdateKeepsSnaps(s, s', k, s'.calls[k]);
  }

  lemma LeadKeepsSnaps(s: State, s': State, k: CallId)
    requires DoLead(s, s', k)
    ensures KeepsSnaps(s, s')
  {
    hide KeepsSnaps;
    if s.calls[k].pc.LeadNotify? {
      NotifyFollowersKeepsSnaps(s, s', k);
    } else {
      ResetKeepsSnaps(s, s', k);
    }
  }

  lemma FollowKeepsSnaps(s: State, s': State, k: CallId)
    requires DoFollow(s, s', k)
    ensures KeepsSnaps(s, s')
  {
    hide KeepsSnaps, PollsInProgress;
    UpdateKeepsSnaps(s, s', k, s'.calls[k]);
  }

  lemma CallStepsKeepSnaps(s: State, s': State, step: Step)
    requires NextBy(s, s', step) && ByCall(step)
    ensures KeepsSnaps(s, s')
  {
    hide KeepsSnaps, PollsInProgress, DoTakeId, DoLead, DoFollow, DoSerialized;
    match step {
      case BeginOf(k, olds) => UpdateKeepsSnaps(s, s', k, s'.calls[k]);
      case TakeIdOf(k) => TakeIdKeepsSnaps(s, s', k);
      case FollowOf(k) => FollowKeepsSnaps(s, s', k);
      case SerializedOf(k, t) => SerializedKeepsSnaps(s, s', k, t);
      case ReturnOf(k) => UpdateKeepsSnaps(s, s', k, s'.calls[k]);
      case LeadOf(k) => LeadKeepsSnaps(s, s', k);
    }
  }

  lemma StepKeepsSnaps(s: State, s': State)
    requires Next(s, s')
    ensures KeepsSnaps(s, s')
  {
    var step :| NextBy(s, s', step);
    hide NextBy;
    if ByCall(step) {
      CallStepsKeepSnaps(s, s', step);
    } else {
      OtherStepsKeepCalls(s, s', step);
    }
  }

  /** A call that returned has waited for every poll it recorded. */
  lemma ReturnedCallWaitedForPolls(s: State, k: CallId)
    requires Reachable(s) && IsCall(s, k) && s.calls[k].pc.Done?
    ensures Ended(s.threads, s.calls[k].snap)
  {
    ReachableImpliesInv(s);
  }

  /** A step of a run, with the relation kept abstract. */
  lemma RunStep(run: seq<State>, i: nat)
    requires IsRun(run) && i < |run| - 1
    ensures Next(run[i], run[i + 1])
  {
    hide Next, Init;
  }

  lemma PrefixIsRun(run: seq<State>, i: nat)
    requires IsRun(run) && i < |run|
    ensures IsRun(run[..i + 1]) && Reachable(run[i])
  {
    hide Next, Init;
    assert run[..i + 1][|run[..i + 1]| - 1] == run[i];
  }

  lemma {:induction false} RunKeepsSnap(run: seq<State>, i: nat, j: nat, k: CallId)
    requires IsRun(run) && i <= j < |run| && IsCall(run[i], k) && Identified(run[i].calls[k].pc)
    ensures IsCall(run[j], k) && run[j].calls[k].snap == run[i].calls[k].snap && Identified(run[j].calls[k].pc)
  {
    hide IsRun, Next, Identified;
    if i < j {
      RunKeepsSnap(run, i, j - 1, k);
      RunStep(run, j - 1);
      StepKeepsSnaps(run[j - 1], run[j]);
    }
  }

  lemma {:induction false} PollsOnlyGrow(run: seq<State>, i: nat, j: nat, t: ThreadId)
    requires IsRun(run) && i <= j < |run| && IsThread(run[i], t)
    ensures IsThread(run[j], t) && run[j].threads[t].polls >= run[i].threads[t].polls
  {
    hide IsRun, Next;
    if i < j {
      PollsOnlyGrow(run, i, j - 1, t);
      RunStep(run, j - 1);
      StepKeepsPolls(run[j - 1], run[j], t);
    }
  }

  /** A thread whose poll number moved past `n` has left poll `n` in a step of its own. */
  lemma {:induction false} PassedPollEnded(run: seq<State>, i: nat, j: nat, t: ThreadId) returns (m: nat)
    requires IsRun(run) && i <= j < |run| && IsThread(run[i], t) && IsThread(run[j], t)
    requires run[j].threads[t].polls > run[i].threads[t].polls
    ensures i <= m < j && EndsPoll(run[m], run[m + 1], t, run[i].threads[t].polls)
  {
    hide IsRun, Next;
    PollsOnlyGrow(run, i, j - 1, t);
    RunStep(run, j - 1);
    StepKeepsPolls(run[j - 1], run[j], t);
    if run[j - 1].threads[t].polls > run[i].threads[t].polls {
      m := PassedPollEnded(run, i, j - 1, t);
    } else {
      m := j - 1;
    }
  }

  /** The step that takes an id is a step of a call, so it ends no poll. */
  lemma IdStepEndsNoPoll(s: State, s': State, k: CallId)
    requires Next(s, s') && TakesId(s, s', k)
    ensures s'.threads == s.threads
  {
    var step :| NextBy(s, s', step);
    hide NextBy;
    if ByCall(step) {
      CallStepsKeepThreads(s, s', step);
    } else {
      OtherStepsKeepCalls(s, s', step);
    }
  }

  /**
   If call `k` takes its id in step `i` while thread `t` is in a task poll, `t` leaves that poll before `k`
   returns.
   */
  lemma PollsAtIdAreWaitedFor(run: seq<State>, i: nat, j: nat, k: CallId, t: ThreadId) returns (m: nat)
    requires IsRun(run) && i < j < |run| && TakesId(run[i], run[i + 1], k) && Polling(run[i], t)
    requires IsCall(run[j], k) && run[j].calls[k].pc.Done?
    ensures i < m < j && EndsPoll(run[m], run[m + 1], t, run[i].threads[t].polls)
  {
    hide IsRun, Next, Reachable;
    RunStep(run, i);
    StepKeepsSnaps(run[i], run[i + 1]);
    IdStepEndsNoPoll(run[i], run[i + 1], k);
    RunKeepsSnap(run, i + 1, j, k);
    PrefixIsRun(run, j);
    ReturnedCallWaitedForPolls(run[j], k);
    PollsOnlyGrow(run, i, j, t);
    m := PassedPollEnded(run, i + 1, j, t);
  }

  /** A call that has started and returned has taken its id in between. */
  lemma {:induction false} IdIsTaken(run: seq<State>, b: nat, j: nat, k: CallId) returns (i: nat)
    requires IsRun(run) && b <= j < |run| && IsCall(run[b], k) && IsCall(run[j], k)
    requires !Identified(run[b].calls[k].pc) && Identified(run[j].calls[k].pc)
    ensures b <= i < j && TakesId(run[i], run[i + 1], k)
  {
    hide IsRun, Next, Identified, TakesId;
    RunStep(run, j - 1);
    StepKeepsSnaps(run[j - 1], run[j]);
    if Identified(run[j - 1].calls[k].pc) {
      i := IdIsTaken(run, b, j - 1, k);
    } else {
      i := j - 1;
    }
  }

  /**
   The grace-period guarantee. Let thread `t` be in a task poll in state `b`, before call `k` has taken its id; the
   call may have started or not. When the call has returned, in state `j`, `t` has left that very poll in between.
   This holds on every run: for any number of threads and calls, across overflows of the epoch ids and of the
   counters, and with buffered stores.
   */
  lemma GracePeriodGuarantee(run: seq<State>, b: nat, j: nat, k: CallId, t: ThreadId) returns (m: nat)
    requires IsRun(run) && b <= j < |run| && IsCall(run[b], k) && !Identified(run[b].calls[k].pc) && Polling(run[b], t)
    requires IsCall(run[j], k) && run[j].calls[k].pc.Done?
    ensures b <= m < j && EndsPoll(run[m], run[m + 1], t, run[b].threads[t].polls)
  {
    hide IsRun, Next, TakesId;
    var i := IdIsTaken(run, b, j, k);
    PollsOnlyGrow(run, b, i, t);
    PollsOnlyGrow(run, i, j, t);
    if run[i].threads[t].polls > run[b].threads[t].polls {
      m := PassedPollEnded(run, b, i, t);
    } else {
      PollGoesOn(run, b, i, t);
      m := PollsAtIdAreWaitedFor(run, i, j, k, t);
    }
  }

  lemma {:induction false} PollGoesOn(run: seq<State>, b: nat, i: nat, t: ThreadId)
    requires IsRun(run) && b <= i < |run| && Polling(run[b], t) && IsThread(run[i], t)
    requires run[i].threads[t].polls == run[b].threads[t].polls
    ensures Polling(run[i], t)
  {
    hide IsRun, Next;
    if b < i {
      PollsOnlyGrow(run, b, i - 1, t);
      PollsOnlyGrow(run, i - 1, i, t);
      PollGoesOn(run, b, i - 1, t);
      RunStep(run, i - 1);
      StepKeepsPolls(run[i - 1], run[i], t);
    }
  }
}
