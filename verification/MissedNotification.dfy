/**
 When a delivered notification is missed. A waiter sleeps through calls of `notify` that began after its subscription
 and returned if and only if a positive multiple of the counter's modulus was sent, whatever the width of the counter;
 the notifications may come before the first poll or in the middle of it. A panicking waker is the one other way.
 */
module MissedNotification {
  import opened WaiterLists
  import opened WrappingCounters
  import opened Notifications
  import opened NotificationProofs

  lemma Extend(s: State, s': State, step: Step)
    requires Reachable(s) && NextBy(s, s', step)
    ensures Reachable(s')
  {
    assert Next(s, s');
    hide Next, NextBy, Init;
    var run :| IsRun(run) && run[|run| - 1] == s;
    var longer := run + [s'];
    assert IsRun(longer);
    assert longer[|longer| - 1] == s';
  }

  /** The waiter sleeps in the list after a call of `notify` that should have reached it, with all drains completed. */
  ghost predicate Missed(s: State, w: WaiterId) {
    && IsWaiter(s, w) && s.waiters[w].pc.Asleep? && s.waiters[w].delivered && w in s.list
    && !SomeoneCommitted(s) && s.waiters[w].lost <= s.waiters[w].checked
  }

  ghost predicate MissedAfter(s: State, w: WaiterId, m: Positive, k: nat) {
    Reachable(s) && s.modulus == m && Missed(s, w) && s.total == s.waiters[w].born + k
  }

  /** One direction: only full turns of the counter are missed. */
  lemma MissedIsFullTurns(s: State, w: WaiterId)
    requires Reachable(s) && Missed(s, w)
    ensures s.total > s.waiters[w].born && (s.total - s.waiters[w].born) % s.modulus == 0
  {
    hide Reachable;
    DeliveredUnlessWrapped(s, w);
    ListedSleeperMissesOnlyByPanic(s, w);
    hide SomeoneCommitted;
    ReachableCheckedBound(s, w);
  }

  lemma ReachableCheckedBound(s: State, w: WaiterId)
    requires Reachable(s) && IsWaiter(s, w) && s.waiters[w].pc.Asleep?
    ensures s.waiters[w].checked <= s.total
  {
    hide Reachable;
    ReachableIsInv(s);
    assert CheckedOk(s, s.waiters[w]);
  }

  // ----- runs with one waiter and one notifier -----

  const OFF := Notifier(Off, {}, 0)

  function At(m: Positive, total: nat, active: int, list: seq<WaiterId>, waiter: Waiter): State {
    State(m, total % m, total, active, list, [waiter], [OFF])
  }

  function Fresh(pc: WaiterPc, delivered: bool): Waiter {
    Waiter(pc, 0, false, false, false, 0, 0, delivered, 0, false)
  }

  lemma Subscribes(m: Positive) returns (s: State)
    ensures Reachable(s) && s == At(m, 0, 1, [], Fresh(Held, false))
  {
    RemainderIsUnique(0, m, 0, 0);
    var s0 := At(m, 0, 0, [], Fresh(Absent, false));
    assert Reachable(s0) by {
      assert IsRun([s0]) && [s0][|[s0]| - 1] == s0;
    }
    hide Reachable;
    var s1 := At(m, 0, 1, [], Fresh(Subscribing, false));
    Extend(s0, s1, WaiterOf(0));
    s := At(m, 0, 1, [], Fresh(Held, false));
    Extend(s1, s, WaiterOf(0));
  }

  /** A whole call of `notify` while the list is empty and one waiter has subscribed. */
  lemma NotifiesOnce(m: Positive, s: State, pc: WaiterPc, total: nat, delivered: bool) returns (s': State)
    requires Reachable(s) && Subscribed(pc) && s == At(m, total, 1, [], Fresh(pc, delivered))
    ensures Reachable(s') && s' == At(m, total + 1, 1, [], Fresh(pc, true))
  {
    hide Reachable;
    NextOfModulo(total, m);
    var s1 := s.(notifiers := [Notifier(Bumping, {0}, 0)]);
    assert SubscribedWaiters(s.waiters) == {0};
    Extend(s, s1, NotifierOf(0));
    var s2 := s1.(wakeups := (total + 1) % m, total := total + 1, notifiers := [Notifier(Locking, {0}, total + 1)]);
    Extend(s1, s2, NotifierOf(0));
    var s3 := s2.(notifiers := [Notifier(Draining, {0}, total + 1)]);
    Extend(s2, s3, NotifierOf(0));
    s' := s3.(waiters := [Fresh(pc, true)], notifiers := [OFF]);
    assert Deliver(s3.waiters, {0}) == s'.waiters;
    Extend(s3, s', NotifierOf(0));
  }

  lemma {:induction false} NotifiesOften(m: Positive, s: State, pc: WaiterPc, k: nat) returns (s': State)
    requires Reachable(s) && Subscribed(pc) && s == At(m, 0, 1, [], Fresh(pc, false))
    ensures Reachable(s') && s' == At(m, k, 1, [], Fresh(pc, k > 0))
  {
    hide Reachable;
    if k == 0 {
      s' := s;
    } else {
      s' := NotifiesOften(m, s, pc, k - 1);
      s' := NotifiesOnce(m, s', pc, k - 1, k > 1);
    }
  }

  /** From the lock section of its first poll on, the waiter sees nothing. */
  lemma FallsAsleep(m: Positive, s: State, k: nat) returns (s': State)
    requires Reachable(s) && k > 0 && k % m == 0 && s == At(m, k, 1, [], Fresh(Enlisting, true))
    ensures MissedAfter(s', 0, m, k)
  {
    hide Reachable;
    var s1 := At(m, k, 1, [0], Waiter(SecondCheck, 0, true, false, false, 0, 0, true, 0, false));
    Extend(s, s1, WaiterOf(0));
    s' := At(m, k, 1, [0], Waiter(Asleep, 0, true, false, false, 0, k, true, 0, false));
    Extend(s1, s', WaiterOf(0));
  }

  /** The limit that the documentation of `Notify::notified` declares: full turns before the first poll. */
  lemma FullTurnsAreMissed(m: Positive, k: nat) returns (s: State)
    requires k > 0 && k % m == 0
    ensures MissedAfter(s, 0, m, k)
  {
    hide Reachable;
    var s0 := Subscribes(m);
    var s1 := NotifiesOften(m, s0, Held, k);
    var s2 := At(m, k, 1, [], Fresh(FirstCheck, true));
    Extend(s1, s2, WaiterOf(0));
    var s3 := At(m, k, 1, [], Fresh(Enlisting, true));
    Extend(s2, s3, WaiterOf(0));
    s := FallsAsleep(m, s3, k);
  }

  /** Full turns after the first poll has begun are missed as well, if they come between its first look and the lock. */
  lemma FullTurnsDuringPollAreMissed(m: Positive, k: nat) returns (s: State)
    requires k > 0 && k % m == 0
    ensures MissedAfter(s, 0, m, k)
  {
    hide Reachable;
    var s0 := Subscribes(m);
    RemainderIsUnique(0, m, 0, 0);
    var s1 := At(m, 0, 1, [], Fresh(FirstCheck, false));
    Extend(s0, s1, WaiterOf(0));
    var s2 := At(m, 0, 1, [], Fresh(Enlisting, false));
    Extend(s1, s2, WaiterOf(0));
    var s3 := NotifiesOften(m, s2, Enlisting, k);
    s := FallsAsleep(m, s3, k);
  }

  /**
   For every width of the counter, `k` notifications since the subscription can be missed if and only if `k` is a
   positive multiple of its modulus.
   */
  lemma MissedExactlyAfterFullTurns(m: Positive, k: nat)
    ensures (exists s, w :: MissedAfter(s, w, m, k)) <==> k > 0 && k % m == 0
  {
    if s, w :| MissedAfter(s, w, m, k) {
      MissedIsFullTurns(s, w);
    }
    if k > 0 && k % m == 0 {
      var s := FullTurnsAreMissed(m, k);
    }
  }

  // ----- a panicking waker -----

  const ABSENT := Waiter(Absent, 0, false, false, false, 0, 0, false, 0, false)

  const SLEEPER := Waiter(Asleep, 0, true, false, false, 0, 0, false, 0, false)

  /** A waiter subscribes and is polled once, before any notification. */
  lemma Settles(s: State, w: WaiterId) returns (s': State)
    requires Reachable(s) && IsWaiter(s, w) && s.waiters[w] == ABSENT && w !in s.list
    requires s.total == 0 && s.wakeups == 0 && s.notifiers == [OFF]
    ensures Reachable(s')
    ensures s' == s.(active := s.active + 1, list := [w] + s.list, waiters := s.waiters[w := SLEEPER])
  {
    hide Reachable;
    var s1 := s.(active := s.active + 1, waiters := s.waiters[w := ABSENT.(pc := Subscribing)]);
    Extend(s, s1, WaiterOf(w));
    var s2 := s1.(waiters := s.waiters[w := ABSENT.(pc := Held)]);
    Extend(s1, s2, WaiterOf(w));
    var s3 := s1.(waiters := s.waiters[w := ABSENT.(pc := FirstCheck)]);
    Extend(s2, s3, WaiterOf(w));
    var s4 := s1.(waiters := s.waiters[w := ABSENT.(pc := Enlisting)]);
    Extend(s3, s4, WaiterOf(w));
    var s5 := s1.(list := [w] + s.list, waiters := s.waiters[w := ABSENT.(pc := SecondCheck, registered := true)]);
    Extend(s4, s5, WaiterOf(w));
    s' := s5.(waiters := s.waiters[w := SLEEPER]);
    Extend(s5, s', WaiterOf(w));
  }

  lemma TwoWaitersSettle(m: Positive) returns (s: State)
    ensures Reachable(s) && s == State(m, 0, 0, 2, [1, 0], [SLEEPER, SLEEPER], [OFF])
  {
    var s0 := State(m, 0, 0, 0, [], [ABSENT, ABSENT], [OFF]);
    assert Reachable(s0) by {
      assert IsRun([s0]) && [s0][|[s0]| - 1] == s0;
    }
    hide Reachable;
    var s1 := Settles(s0, 0);
    s := Settles(s1, 1);
    assert s.list == [1, 0] && s.waiters == [SLEEPER, SLEEPER];
  }

  /** For every width: a waiter asleep in the list misses a notification because another waker panicked. */
  lemma PanicLosesNotification(m: Positive) returns (s: State)
    ensures Reachable(s) && s.modulus == m && IsWaiter(s, 0) && s.waiters[0].pc.Asleep? && 0 in s.list
    ensures !SomeoneCommitted(s) && s.total > s.waiters[0].checked && s.waiters[0].lost > s.waiters[0].checked
  {
    var s0 := TwoWaitersSettle(m);
    hide Reachable;
    assert SubscribedWaiters(s0.waiters) == {0, 1};
    var s1 := s0.(notifiers := [Notifier(Bumping, {0, 1}, 0)]);
    Extend(s0, s1, NotifierOf(0));
    var s2 := s1.(wakeups := 1 % m, total := 1, notifiers := [Notifier(Locking, {0, 1}, 1)]);
    Extend(s1, s2, NotifierOf(0));
    var s3 := s2.(notifiers := [Notifier(Draining, {0, 1}, 1)]);
    Extend(s2, s3, NotifierOf(0));
    var s4 := s3.(list := [0], active := 1, notifiers := [Notifier(Waking(1), {0, 1}, 1)]);
    Extend(s3, s4, NotifierOf(0));
    s := s4.(waiters := CutShort(s4.waiters, [0], 1, 1), notifiers := [OFF]);
    Extend(s4, s, NotifierOf(0));
  }

  // ----- a completion without a later notification -----

  ghost predicate CompletedAtOnce(s: State, w: WaiterId, m: Positive, crowded: bool) {
    && Reachable(s) && s.modulus == m && IsWaiter(s, w) && s.waiters[w].pc.Completed?
    && s.total == s.waiters[w].born && s.waiters[w].crowded == crowded
  }

  const LATE := Waiter(Held, 0, false, false, false, 1, 0, false, 0, true)

  /** A waiter takes its snapshot when a notifier is past its increment. */
  lemma SubscribesLate(m: Positive) returns (s: State)
    ensures Reachable(s)
    ensures s == State(m, 1 % m, 1, 1, [], [LATE.(snapshot := 1 % m)], [Notifier(Locking, {}, 1)])
  {
    var s0 := State(m, 0, 0, 0, [], [ABSENT], [OFF]);
    assert Reachable(s0) by {
      assert IsRun([s0]) && [s0][|[s0]| - 1] == s0;
    }
    hide Reachable;
    var s1 := s0.(active := 1, waiters := [ABSENT.(pc := Subscribing)]);
    Extend(s0, s1, WaiterOf(0));
    assert SubscribedWaiters(s1.waiters) == {};
    var s2 := s1.(notifiers := [Notifier(Bumping, {}, 0)]);
    Extend(s1, s2, NotifierOf(0));
    var s3 := s2.(wakeups := 1 % m, total := 1, notifiers := [Notifier(Locking, {}, 1)]);
    Extend(s2, s3, NotifierOf(0));
    assert Committed(s3.notifiers[0].pc);
    s := s3.(waiters := [LATE.(snapshot := 1 % m)]);
    Extend(s3, s, WaiterOf(0));
  }

  /** It gets into the list before the drain. */
  lemma EnlistsLate(m: Positive) returns (s: State)
    ensures Reachable(s)
    ensures s == State(m, 1 % m, 1, 1, [0], [LATE.(pc := Asleep, snapshot := 1 % m, registered := true, checked := 1)],
                       [Notifier(Locking, {}, 1)])
  {
    hide Reachable;
    var s0 := SubscribesLate(m);
    var late := s0.waiters[0];
    var s1 := s0.(waiters := [late.(pc := FirstCheck)]);
    Extend(s0, s1, WaiterOf(0));
    var s2 := s0.(waiters := [late.(pc := Enlisting)]);
    Extend(s1, s2, WaiterOf(0));
    var s3 := s0.(list := [0], waiters := [late.(pc := SecondCheck, registered := true)]);
    Extend(s2, s3, WaiterOf(0));
    s := s0.(list := [0], waiters := [late.(pc := Asleep, registered := true, checked := 1)]);
    Extend(s3, s, WaiterOf(0));
  }

  lemma CompletesWithoutLaterNotification(m: Positive) returns (s: State)
    ensures CompletedAtOnce(s, 0, m, true)
  {
    hide Reachable;
    var s0 := EnlistsLate(m);
    var x := s0.waiters[0];
    var s1 := s0.(notifiers := [Notifier(Draining, {}, 1)]);
    Extend(s0, s1, NotifierOf(0));
    var s2 := s1.(list := [], active := 0, notifiers := [Notifier(Waking(0), {}, 1)]);
    Extend(s1, s2, NotifierOf(0));
    var s3 := s2.(waiters := [x.(woken := true)], notifiers := [Notifier(Draining, {}, 1)]);
    Extend(s2, s3, NotifierOf(0));
    assert Deliver(s3.waiters, {}) == s3.waiters;
    var s4 := s3.(notifiers := [OFF]);
    Extend(s3, s4, NotifierOf(0));
    var s5 := s4.(waiters := [x.(pc := FirstCheck)]);
    Extend(s4, s5, WaiterOf(0));
    var s6 := s4.(waiters := [x.(pc := Enlisting)]);
    Extend(s5, s6, WaiterOf(0));
    s := s4.(waiters := [x.(pc := Completed)]);
    Extend(s6, s, WaiterOf(0));
  }

  /**
   For every width, a waiter can complete although nothing was sent after its subscription if and only if a notifier
   was past its increment and not done when it subscribed.
   */
  lemma CompletesAtOnceExactlyIfCrowded(m: Positive, crowded: bool)
    ensures (exists s, w :: CompletedAtOnce(s, w, m, crowded)) <==> crowded
  {
    if s, w :| CompletedAtOnce(s, w, m, crowded) {
      CompletionNeedsNotification(s, w);
    }
    if crowded {
      var s := CompletesWithoutLaterNotification(m);
    }
  }
}
