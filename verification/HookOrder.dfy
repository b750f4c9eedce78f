/** The order in which a thread's hooks may be called, and that every step of the protocol follows it. */
module HookOrder {
  import opened Common
  import opened ThreadStates
  import opened Protocol

  datatype HookCall = BeforeTaskPoll | AfterTaskPoll | ThreadPark | ThreadUnpark | ThreadStop

  /** What a thread is doing between two hook calls. */
  datatype Activity = NoSlot | Running | Polls | Sleeps

  /** The activity after a hook call, if the hook may be called at all. A thread without a slot may park and stop. */
  function After(a: Activity, call: HookCall): Option<Activity> {
    match (a, call)
    case (NoSlot, BeforeTaskPoll) => Some(Polls)
    case (Running, BeforeTaskPoll) => Some(Polls)
    case (Polls, AfterTaskPoll) => Some(Running)
    case (Running, ThreadPark) => Some(Sleeps)
    case (NoSlot, ThreadPark) => Some(NoSlot)
    case (Sleeps, ThreadUnpark) => Some(Running)
    case (NoSlot, ThreadUnpark) => Some(NoSlot)
    case (Running, ThreadStop) => Some(NoSlot)
    case (NoSlot, ThreadStop) => Some(NoSlot)
    case _ => None
  }

  function AfterAll(a: Activity, calls: seq<HookCall>): Option<Activity>
    decreases |calls|
  {
    if calls == [] then Some(a)
    else match After(a, calls[0])
      case Some(next) => AfterAll(next, calls[1..])
      case None => None
  }

  lemma {:induction false} AfterConcatenation(a: Activity, first: seq<HookCall>, second: seq<HookCall>)
    requires AfterAll(a, first).Some?
    ensures AfterAll(a, first + second) == AfterAll(AfterAll(a, first).value, second)
    decreases |first|
  {
    if first == [] {
      assert first + second == second;
    } else {
      AfterConcatenation(After(a, first[0]).value, first[1..], second);
      assert first + second == [first[0]] + (first[1..] + second);
    }
  }

  /** A thread that has no slot may park, unpark and stop as often as it likes, which does not give it one. */
  lemma {:induction false} SlotlessHooksDoNothing(calls: seq<HookCall>)
    requires BeforeTaskPoll !in calls
    ensures AfterAll(NoSlot, calls) == if AfterTaskPoll in calls then None else Some(NoSlot)
    decreases |calls|
  {
    if calls != [] {
      assert calls == [calls[0]] + calls[1..];
      SlotlessHooksDoNothing(calls[1..]);
    }
  }

  // ----- the threads of the protocol -----

  function ActivityOf(pc: HookPc): Activity {
    if !HasSlot(pc) then NoSlot
    else if pc.InPoll? then Polls
    else if pc.Parked? || pc.ParkFence? || (pc.Notifying? && pc.next.ToParked?) then Sleeps
    else Running
  }

  /**
   A step within one activity, or along a hook call that is allowed there, or the first half of a thread's first
   one.
   */
  ghost predicate Follows(a: Activity, a': Activity) {
    || a' == a
    || (a == NoSlot && a' == Running)
    || exists call :: After(a, call) == Some(a')
  }

  /** Every step of the protocol moves every thread as the order of its hooks allows. */
  lemma ThreadStepsFollowTheHooks(s: State, s': State, step: Step, t: ThreadId)
    requires NextBy(s, s', step) && IsThread(s, t)
    ensures |s'.threads| == |s.threads|
    ensures Follows(ActivityOf(s.threads[t].pc), ActivityOf(s'.threads[t].pc))
  {
    hide Follows, ActivityOf, DoPerform, DoResume, DoDrainPerformer, DoBegin, DoTakeId, DoLead, DoFollow, DoSerialized,
      DoReturn, DoClient;
    StayingIsAllowed(ActivityOf(s.threads[t].pc));
    match step
    case HookOf(u, h, th, mem) =>
      HookStepsFollow(h, s.epoch, s.threads[u], Mem(s, u), th, mem);
      hide HookStep;
    case AllocateOf(u, i) => EdgesAreAllowed(s.threads[u].pc, s'.threads[u].pc);
    case ReleaseOf(u) => EdgesAreAllowed(s.threads[u].pc, s'.threads[u].pc);
    case StopFenceOf(u) => EdgesAreAllowed(s.threads[u].pc, s'.threads[u].pc);
    case NotifyOf(u) => NotifierKeepsActivity(s, s', u);
    case _ => OtherStepsLeaveThreads(s, s', step);
  }

  lemma OtherStepsLeaveThreads(s: State, s': State, step: Step)
    requires NextBy(s, s', step)
    requires !step.HookOf? && !step.AllocateOf? && !step.ReleaseOf? && !step.StopFenceOf? && !step.NotifyOf?
    ensures s'.threads == s.threads
  {
  }

  lemma StayingIsAllowed(a: Activity)
    ensures Follows(a, a)
  {
  }

  lemma EdgesAreAllowed(pc: HookPc, pc': HookPc)
    ensures pc.Untracked? && pc'.Enter? ==> Follows(ActivityOf(pc), ActivityOf(pc'))
    ensures pc.Ready? && pc'.StopFence? ==> Follows(ActivityOf(pc), ActivityOf(pc'))
    ensures pc.StopFence? && pc' == Notifying(LoadFlag, false, ToUntracked) ==> Follows(ActivityOf(pc), ActivityOf(pc'))
  {
    assert After(Running, ThreadStop) == Some(NoSlot);
  }

  lemma HookStepsFollow(h: Hook, epoch: nat, th: Thread, mem: ThreadState, th': Thread, mem': ThreadState)
    requires HookStep(h, epoch, th, mem, th', mem')
    ensures Follows(ActivityOf(th.pc), ActivityOf(th'.pc))
  {
    assert After(Polls, AfterTaskPoll) == Some(Running);
    assert After(Running, BeforeTaskPoll) == Some(Polls);
    assert After(Running, ThreadPark) == Some(Sleeps);
    assert After(Sleeps, ThreadUnpark) == Some(Running);
  }

  lemma NotifierKeepsActivity(s: State, s': State, t: ThreadId)
    requires DoNotify(s, s', t)
    ensures s'.threads == s.threads[t := s'.threads[t]]
    ensures ActivityOf(s'.threads[t].pc) == ActivityOf(s.threads[t].pc)
  {
  }
}
