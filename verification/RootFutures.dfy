/**
 The root future of `src/tokio_ext.rs`, which makes the main thread call the hooks that tokio calls for its worker
 threads, and what its calls do in the protocol.
 */
module RootFutures {
  import opened Common
  import opened Protocol
  import opened HookOrder
  import opened HookRuns
  import opened Invariant
  import PerformerInvariant
  import ThreadInvariant

  // ----- events of a thread -----

  /** A hook call, or a poll of the future inside of a root future with its answer. */
  datatype Event = Hook(call: HookCall) | InnerPoll(ready: bool)

  function Calls(events: seq<Event>): seq<HookCall> {
    if events == [] then [] else (if events[0].Hook? then [events[0].call] else []) + Calls(events[1..])
  }

  function Answers(events: seq<Event>): seq<bool> {
    if events == [] then [] else (if events[0].InnerPoll? then [events[0].ready] else []) + Answers(events[1..])
  }

  lemma EventsOfOne(e: Event, rest: seq<Event>)
    ensures Calls([e]) == (if e.Hook? then [e.call] else []) && Calls([e] + rest) == Calls([e]) + Calls(rest)
    ensures Answers([e]) == (if e.InnerPoll? then [e.ready] else [])
    ensures Answers([e] + rest) == Answers([e]) + Answers(rest)
  {
    assert [e][1..] == [];
    assert ([e] + rest)[1..] == rest;
  }

  lemma Associative<T>(a: seq<T>, b: seq<T>, c: seq<T>)
    ensures (a + b) + c == a + (b + c)
  {
  }

  lemma {:induction false} ConcatenatedCalls(first: seq<Event>, second: seq<Event>)
    ensures Calls(first + second) == Calls(first) + Calls(second)
  {
    if first == [] {
      assert first + second == second;
    } else {
      hide *;
      var e, rest := first[0], first[1..];
      assert first == [e] + rest;
      ConcatenatedCalls(rest, second);
      EventsOfOne(e, rest);
      EventsOfOne(e, rest + second);
      Associative([e], rest, second);
      Associative(Calls([e]), Calls(rest), Calls(second));
    }
  }

  lemma {:induction false} ConcatenatedAnswers(first: seq<Event>, second: seq<Event>)
    ensures Answers(first + second) == Answers(first) + Answers(second)
  {
    if first == [] {
      assert first + second == second;
    } else {
      hide *;
      var e, rest := first[0], first[1..];
      assert first == [e] + rest;
      ConcatenatedAnswers(rest, second);
      EventsOfOne(e, rest);
      EventsOfOne(e, rest + second);
      Associative([e], rest, second);
      Associative(Answers([e]), Answers(rest), Answers(second));
    }
  }

  /**
   A poll of an inner future comes directly between the hook before a task poll and the one after, and these two hooks
   are called for nothing else.
   */
  predicate InItsPlace(events: seq<Event>, i: nat)
    requires i < |events|
  {
    && (events[i].InnerPoll? ==>
          0 < i < |events| - 1 && events[i - 1] == Hook(BeforeTaskPoll) && events[i + 1] == Hook(AfterTaskPoll))
    && (events[i] == Hook(BeforeTaskPoll) ==> i + 1 < |events| && events[i + 1].InnerPoll?)
    && (events[i] == Hook(AfterTaskPoll) ==> i > 0 && events[i - 1].InnerPoll?)
  }

  predicate InnerPollsAreTaskPolls(events: seq<Event>) {
    forall i: nat | i < |events| :: InItsPlace(events, i)
  }

  // ----- the hooked thread -----

  /**
   The hooks of thread `id` in the protocol. `events` are the hook calls made so far, and the polls of inner futures
   between them. The calls have taken the protocol from the state `start` to the state `state`; every call must be
   allowed where the thread is, and an inner future may be polled inside of a task poll only.
   */
  class HookedThread {
    ghost const id: ThreadId
    ghost const start: State
    var activity: Activity
    ghost var events: seq<Event>
    ghost var state: State

    ghost predicate Valid()
      reads this
    {
      && Reachable(state) && Does(state, id, activity) && !IsHost(state, id)
      && CallRuns(start, id, Calls(events), state)
    }

    constructor (id: ThreadId, ghost start: State)
      requires Reachable(start) && IsThread(start, id) && start.threads[id].pc.Untracked?
      ensures Valid() && this.id == id && this.start == start == state && activity == NoSlot && events == []
    {
      this.id, this.start := id, start;
      activity, events, state := NoSlot, [], start;
      UntrackedIsNoHost(start, id);
    }

    method Call(call: HookCall)
      requires Valid() && After(activity, call).Some?
      modifies this
      ensures Valid() && Some(activity) == After(old(activity), call) && events == old(events) + [Hook(call)]
    {
      hide Reachable, Runs;
      ghost var next := AllowedCallRuns(state, id, call);
      RunIsReachable(state, next, id);
      assert CallRuns(next, id, [call][1..], next);
      JoinCalls(start, id, Calls(events), state, [call], next);
      ConcatenatedCalls(events, [Hook(call)]);
      assert Calls([Hook(call)]) == [call];
      activity := After(activity, call).value;
      events, state := events + [Hook(call)], next;
    }

    /** A poll of an inner future, which answers `answer`, inside of the task poll that the thread is in. */
    method PollInner(answer: bool) returns (ready: bool)
      requires Valid() && Polling(state, id)
      modifies this`events
      ensures Valid() && ready == answer && events == old(events) + [InnerPoll(answer)]
    {
      hide Reachable, Does, IsHost, CallRuns;
      ConcatenatedCalls(events, [InnerPoll(answer)]);
      assert Calls([InnerPoll(answer)]) == [];
      assert Calls(events + [InnerPoll(answer)]) == Calls(events);
      events := events + [InnerPoll(answer)];
      ready := answer;
    }
  }

  /** The performer is polled inside of a task poll, so a thread without a slot does not poll it. */
  lemma UntrackedIsNoHost(s: State, t: ThreadId)
    requires Reachable(s) && IsThread(s, t) && s.threads[t].pc.Untracked?
    ensures !IsHost(s, t)
  {
    ReachableCoreOk(s);
    hide Reachable, ThreadInvariant.ThreadsOk, PerformerInvariant.ScanOk;
  }

  // ----- the root future -----

  class RcuRootFuture {
    var hasAlreadyBeenPolled: bool

    constructor ()
      ensures !hasAlreadyBeenPolled
    {
      hasAlreadyBeenPolled := false;
    }

    /** One poll; `inner` is what the inner future answers. It is polled once, inside of a task poll of the protocol. */
    method Poll(thread: HookedThread, inner: bool) returns (ready: bool)
      requires thread.Valid() && thread.activity == if hasAlreadyBeenPolled then Sleeps else NoSlot
      modifies this, thread
      ensures thread.Valid() && ready == inner && hasAlreadyBeenPolled
      ensures thread.events == old(thread.events)
        + (if old(hasAlreadyBeenPolled) then [Hook(ThreadUnpark)] else [])
        + [Hook(BeforeTaskPoll), InnerPoll(inner), Hook(AfterTaskPoll)]
        + [Hook(if inner then ThreadStop else ThreadPark)]
      ensures thread.activity == if ready then NoSlot else Sleeps
    {
      hide Reachable, Does, IsHost, CallRuns;
      if !hasAlreadyBeenPolled {
        hasAlreadyBeenPolled := true;
      } else {
        thread.Call(ThreadUnpark);
      }
      ghost var before := thread.events;
      thread.Call(BeforeTaskPoll);
      DoingPollsIsPolling(thread.state, thread.id);
      ready := thread.PollInner(inner);
      thread.Call(AfterTaskPoll);
      assert thread.events == before + [Hook(BeforeTaskPoll), InnerPoll(inner), Hook(AfterTaskPoll)];
      if ready {
        thread.Call(ThreadStop);
      } else {
        thread.Call(ThreadPark);
      }
    }
  }

  lemma DoingPollsIsPolling(s: State, t: ThreadId)
    requires Does(s, t, Polls)
    ensures Polling(s, t)
  {
  }

  // ----- root futures from the first poll to the last -----

  function PollEvents(polledBefore: bool, ready: bool): seq<Event> {
    (if polledBefore then [Hook(ThreadUnpark)] else [])
    + [Hook(BeforeTaskPoll), InnerPoll(ready), Hook(AfterTaskPoll)]
    + [Hook(if ready then ThreadStop else ThreadPark)]
  }

  /** All events of a root future that is pending `pendings` times and then ready. */
  function RootEvents(polledBefore: bool, pendings: nat): seq<Event>
    decreases pendings
  {
    if pendings == 0 then PollEvents(polledBefore, true)
    else PollEvents(polledBefore, false) + RootEvents(true, pendings - 1)
  }

  /** The events of one root future after the other on the same thread. */
  function SessionEvents(futures: seq<nat>): seq<Event> {
    if futures == [] then [] else RootEvents(false, futures[0]) + SessionEvents(futures[1..])
  }

  lemma {:induction false} RootCallsAreAllowed(polledBefore: bool, pendings: nat)
    ensures AfterAll(if polledBefore then Sleeps else NoSlot, Calls(RootEvents(polledBefore, pendings))) == Some(NoSlot)
    decreases pendings
  {
    var a := if polledBefore then Sleeps else NoSlot;
    PollCallsAreAllowed(polledBefore, pendings == 0);
    if pendings == 0 {
    } else {
      RootCallsAreAllowed(true, pendings - 1);
      ConcatenatedCalls(PollEvents(polledBefore, false), RootEvents(true, pendings - 1));
      AfterConcatenation(a, Calls(PollEvents(polledBefore, false)), Calls(RootEvents(true, pendings - 1)));
    }
  }

  lemma TaskPollOutcome(ready: bool, last: HookCall)
    ensures var events := [Hook(BeforeTaskPoll), InnerPoll(ready), Hook(AfterTaskPoll), Hook(last)];
      Calls(events) == [BeforeTaskPoll, AfterTaskPoll, last] && Answers(events) == [ready]
  {
    var ending := [Hook(AfterTaskPoll), Hook(last)];
    assert Calls(ending) == [AfterTaskPoll, last] && Answers(ending) == [] by {
      assert ending[1..] == [Hook(last)];
      EventsOfOne(Hook(last), []);
    }
    var polled := [InnerPoll(ready), Hook(AfterTaskPoll), Hook(last)];
    assert Calls(polled) == [AfterTaskPoll, last] && Answers(polled) == [ready] by {
      assert polled[1..] == ending;
    }
    assert [Hook(BeforeTaskPoll), InnerPoll(ready), Hook(AfterTaskPoll), Hook(last)][1..] == polled;
  }

  lemma PollOutcome(polledBefore: bool, ready: bool)
    ensures var last := if ready then ThreadStop else ThreadPark;
      Calls(PollEvents(polledBefore, ready))
        == if polledBefore then [ThreadUnpark, BeforeTaskPoll, AfterTaskPoll, last]
           else [BeforeTaskPoll, AfterTaskPoll, last]
    ensures Answers(PollEvents(polledBefore, ready)) == [ready]
  {
    hide Calls, Answers;
    var last := if ready then ThreadStop else ThreadPark;
    TaskPollOutcome(ready, last);
    var polled := [Hook(BeforeTaskPoll), InnerPoll(ready), Hook(AfterTaskPoll), Hook(last)];
    EventsOfOne(Hook(ThreadUnpark), polled);
    assert PollEvents(polledBefore, ready) == if polledBefore then [Hook(ThreadUnpark)] + polled else polled;
  }

  lemma PollCallsAreAllowed(polledBefore: bool, ready: bool)
    ensures AfterAll(if polledBefore then Sleeps else NoSlot, Calls(PollEvents(polledBefore, ready)))
         == Some(if ready then NoSlot else Sleeps)
  {
    PollOutcome(polledBefore, ready);
    hide Calls, PollEvents;
    var last := if ready then ThreadStop else ThreadPark;
    assert AfterAll(Running, [last]) == After(Running, last);
    assert AfterAll(Polls, [AfterTaskPoll, last]) == AfterAll(Running, [last]);
    var polled := [BeforeTaskPoll, AfterTaskPoll, last];
    assert polled[1..] == [AfterTaskPoll, last];
    assert ([ThreadUnpark] + polled)[1..] == polled;
    assert [] + polled == polled;
  }

  /**
   Any number of root futures, each pending any number of times, call only hooks that are allowed, and leave no
   slot.
   */
  lemma {:induction false} SessionsAreAllowed(futures: seq<nat>)
    ensures AfterAll(NoSlot, Calls(SessionEvents(futures))) == Some(NoSlot)
  {
    if futures == [] {
    } else {
      RootCallsAreAllowed(false, futures[0]);
      SessionsAreAllowed(futures[1..]);
      ConcatenatedCalls(RootEvents(false, futures[0]), SessionEvents(futures[1..]));
      AfterConcatenation(NoSlot, Calls(RootEvents(false, futures[0])), Calls(SessionEvents(futures[1..])));
    }
  }

  /**
   They all happen in the protocol: from every reachable state, a thread that is not tracked can go through any number
   of root futures, hook by hook, and is not tracked again in the end.
   */
  lemma SessionsRun(s: State, t: ThreadId, futures: seq<nat>) returns (s': State)
    requires Reachable(s) && IsThread(s, t) && s.threads[t].pc.Untracked?
    ensures CallRuns(s, t, Calls(SessionEvents(futures)), s') && Reachable(s')
    ensures IsThread(s', t) && s'.threads[t].pc.Untracked?
  {
    hide Reachable, Runs, SessionEvents, Calls, AfterAll, After, IsHost, CallRuns;
    UntrackedIsNoHost(s, t);
    SessionsAreAllowed(futures);
    s' := AllowedCallsRun(s, t, Calls(SessionEvents(futures)));
    RunIsReachable(s, s', t);
  }

  // ----- where the inner futures are polled -----

  lemma ConcatenatedTaskPolls(first: seq<Event>, second: seq<Event>)
    requires InnerPollsAreTaskPolls(first) && InnerPollsAreTaskPolls(second)
    ensures InnerPollsAreTaskPolls(first + second)
  {
    var all := first + second;
    forall i: nat | i < |all|
      ensures InItsPlace(all, i)
    {
      if i < |first| {
        assert InItsPlace(first, i);
      } else {
        assert InItsPlace(second, i - |first|);
      }
    }
  }

  lemma {:induction false} RootPollsAreTaskPolls(polledBefore: bool, pendings: nat)
    ensures InnerPollsAreTaskPolls(RootEvents(polledBefore, pendings))
    ensures Answers(RootEvents(polledBefore, pendings)) == seq(pendings, _ => false) + [true]
    decreases pendings
  {
    PollOutcome(polledBefore, pendings == 0);
    assert InnerPollsAreTaskPolls(PollEvents(polledBefore, pendings == 0));
    if pendings > 0 {
      RootPollsAreTaskPolls(true, pendings - 1);
      ConcatenatedTaskPolls(PollEvents(polledBefore, false), RootEvents(true, pendings - 1));
      ConcatenatedAnswers(PollEvents(polledBefore, false), RootEvents(true, pendings - 1));
    }
  }

  function TotalPolls(futures: seq<nat>): nat {
    if futures == [] then 0 else futures[0] + 1 + TotalPolls(futures[1..])
  }

  /** In any sequence of root futures the task polls are exactly the polls of the inner futures. */
  lemma {:induction false} SessionPollsAreTaskPolls(futures: seq<nat>)
    ensures InnerPollsAreTaskPolls(SessionEvents(futures))
    ensures |Answers(SessionEvents(futures))| == TotalPolls(futures)
  {
    if futures != [] {
      RootPollsAreTaskPolls(false, futures[0]);
      SessionPollsAreTaskPolls(futures[1..]);
      ConcatenatedTaskPolls(RootEvents(false, futures[0]), SessionEvents(futures[1..]));
      ConcatenatedAnswers(RootEvents(false, futures[0]), SessionEvents(futures[1..]));
    }
  }

  /** Whenever an inner future is polled, the hook calls so far have put the thread into a task poll. */
  lemma InnerPollsHappenInTaskPolls(futures: seq<nat>, i: nat)
    requires i < |SessionEvents(futures)| && SessionEvents(futures)[i].InnerPoll?
    ensures AfterAll(NoSlot, Calls(SessionEvents(futures)[..i])) == Some(Polls)
  {
    var events := SessionEvents(futures);
    SessionPollsAreTaskPolls(futures);
    SessionsAreAllowed(futures);
    hide SessionEvents, Calls, AfterAll;
    assert InItsPlace(events, i);
    var before := events[..i - 1];
    assert events[..i] == before + [Hook(BeforeTaskPoll)];
    ConcatenatedCalls(before, [Hook(BeforeTaskPoll)]);
    EventsOfOne(Hook(BeforeTaskPoll), []);
    assert events == events[..i] + events[i..];
    ConcatenatedCalls(events[..i], events[i..]);
    PrefixIsAllowed(NoSlot, Calls(events[..i]), Calls(events[i..]));
    EndsInPoll(NoSlot, Calls(before));
  }

  lemma {:induction false} PrefixIsAllowed(a: Activity, first: seq<HookCall>, second: seq<HookCall>)
    requires AfterAll(a, first + second).Some?
    ensures AfterAll(a, first).Some?
    decreases |first|
  {
    if first != [] {
      assert (first + second)[0] == first[0] && (first + second)[1..] == first[1..] + second;
      PrefixIsAllowed(After(a, first[0]).value, first[1..], second);
    }
  }

  lemma {:induction false} EndsInPoll(a: Activity, calls: seq<HookCall>)
    requires AfterAll(a, calls + [BeforeTaskPoll]).Some?
    ensures AfterAll(a, calls + [BeforeTaskPoll]) == Some(Polls)
    decreases |calls|
  {
    var all := calls + [BeforeTaskPoll];
    if calls == [] {
      assert all[0] == BeforeTaskPoll && all[1..] == [];
    } else {
      assert all[0] == calls[0] && all[1..] == calls[1..] + [BeforeTaskPoll];
      EndsInPoll(After(a, calls[0]).value, calls[1..]);
    }
  }
}
