/** What every run of `Notifications` keeps, and what it means for the waiters. */
module NotificationProofs {
  import opened WaiterLists
  import opened WrappingCounters
  import opened Notifications

  // ----- the waiters list and the count of active waiters -----

  /** The list holds waiters that a poll has registered, each of them once. */
  ghost predicate ListOk(s: State) {
    && Distinct(s.list)
    && (forall w | w in s.list :: IsWaiter(s, w) && s.waiters[w].registered)
    && (forall w | 0 <= w < |s.waiters| :: StageOk(s.waiters[w], w in s.list))
  }

  /** Only a poll registers, and a waiter that was dropped is not in the list. */
  predicate StageOk(x: Waiter, listed: bool) {
    && (x.pc.Absent? || x.pc.Subscribing? || x.pc.Held? ==> !x.registered)
    && (x.pc.SecondCheck? || x.pc.Asleep? ==> x.registered)
    && (listed ==> Live(x.pc))
  }

  predicate Unregistered(x: Waiter) { Live(x.pc) && !x.registered }

  /** The live waiters that no poll has registered. */
  ghost function NeverRegistered(waiters: seq<Waiter>): set<WaiterId> {
    set w | 0 <= w < |waiters| && Unregistered(waiters[w])
  }

  ghost predicate CountOk(s: State) {
    s.active == |s.list| + |NeverRegistered(s.waiters)|
  }

  lemma SizesDiffer(a: set<WaiterId>, b: set<WaiterId>, w: WaiterId)
    requires a - {w} == b - {w}
    ensures |a| - (if w in a then 1 else 0) == |b| - if w in b then 1 else 0
  {
    assert w in a ==> a == (a - {w}) + {w};
    assert w !in a ==> a == a - {w};
    assert w in b ==> b == (b - {w}) + {w};
    assert w !in b ==> b == b - {w};
  }

  lemma UpdateNeverRegistered(waiters: seq<Waiter>, w: WaiterId, x: Waiter)
    requires w < |waiters|
    ensures |NeverRegistered(waiters[w := x])| - (if Unregistered(x) then 1 else 0)
         == |NeverRegistered(waiters)| - if Unregistered(waiters[w]) then 1 else 0
  {
    hide Unregistered;
    var before, after := NeverRegistered(waiters), NeverRegistered(waiters[w := x]);
    forall v: WaiterId ensures v in after - {w} <==> v in before - {w} {
    }
    SizesDiffer(after, before, w);
  }

  lemma NeverRegisteredIsStable(waiters: seq<Waiter>, waiters': seq<Waiter>)
    requires |waiters| == |waiters'|
    requires forall w | 0 <= w < |waiters| ::
               waiters[w].pc == waiters'[w].pc && waiters[w].registered == waiters'[w].registered
    ensures NeverRegistered(waiters) == NeverRegistered(waiters')
  {
  }

  lemma WithoutDistinct(list: seq<WaiterId>, w: WaiterId)
    requires Distinct(list)
    ensures Distinct(Without(list, w)) && |Without(list, w)| == |list| - if w in list then 1 else 0
    ensures forall v :: v in Without(list, w) <==> v in list && v != w
  {
    if w in list {
      var i :| 0 <= i < |list| && list[i] == w;
      WithoutCutsOut(list, i);
      DistinctParts(list, i);
    } else {
      WithoutAbsent(list, w);
    }
  }

  lemma WaiterKeepsList(s: State, s': State, w: WaiterId)
    requires ListOk(s) && DoWaiter(s, s', w)
    ensures ListOk(s')
  {
    assert w !in s.list ==> Distinct([w] + s.list);
    hide Distinct, StageOk;
    assert s'.waiters == s.waiters[w := s'.waiters[w]];
    assert forall v | v in s'.list :: v in s.list || v == w;
    forall v | 0 <= v < |s'.waiters| ensures StageOk(s'.waiters[v], v in s'.list) {
      assert StageOk(s.waiters[v], v in s.list);
      StageFollows(s, s', w, v);
    }
  }

  lemma StageFollows(s: State, s': State, w: WaiterId, v: WaiterId)
    requires DoWaiter(s, s', w) && IsWaiter(s, v) && StageOk(s.waiters[v], v in s.list)
    requires v in s.list ==> s.waiters[v].registered
    ensures StageOk(s'.waiters[v], v in s'.list)
  {
  }

  lemma WaiterKeepsCount(s: State, s': State, w: WaiterId)
    requires ListOk(s) && CountOk(s) && DoWaiter(s, s', w)
    ensures CountOk(s')
  {
    hide NeverRegistered, Distinct, SomeoneCommitted, LockFree;
    UpdateNeverRegistered(s.waiters, w, s'.waiters[w]);
    assert StageOk(s.waiters[w], w in s.list);
    hide ListOk;
    assert s'.waiters == s.waiters[w := s'.waiters[w]];
  }

  lemma DropKeepsList(s: State, s': State, w: WaiterId)
    requires ListOk(s) && CountOk(s) && DoDrop(s, s', w)
    ensures ListOk(s') && CountOk(s')
  {
    UpdateNeverRegistered(s.waiters, w, s'.waiters[w]);
    WithoutDistinct(s.list, w);
  }

  lemma NotifierKeepsList(s: State, s': State, n: NotifierId)
    requires ListOk(s) && CountOk(s) && DoNotifier(s, s', n)
    ensures ListOk(s') && CountOk(s')
  {
    hide LockFree, SubscribedWaiters;
    NotifierKeepsStages(s, s', n);
    NeverRegisteredIsStable(s.waiters, s'.waiters);
    hide NeverRegistered, StageOk;
    if s.list != [] {
      assert forall w | w in s.list[1..] :: w in s.list;
    }
  }

  lemma NotifierKeepsStages(s: State, s': State, n: NotifierId)
    requires ListOk(s) && DoNotifier(s, s', n)
    ensures |s'.waiters| == |s.waiters|
    ensures forall w | 0 <= w < |s'.waiters| ::
              && StageOk(s'.waiters[w], w in s'.list)
              && s.waiters[w].pc == s'.waiters[w].pc && s.waiters[w].registered == s'.waiters[w].registered
  {
    hide LockFree, SubscribedWaiters, Distinct;
    forall w | 0 <= w < |s'.waiters|
      ensures StageOk(s'.waiters[w], w in s'.list)
    {
      assert StageOk(s.waiters[w], w in s.list);
    }
  }

  // ----- the wrapping counter -----

  predicate Born(pc: WaiterPc) { !pc.Absent? && !pc.Subscribing? }

  ghost predicate CounterOk(s: State) {
    && s.wakeups == s.total % s.modulus
    && forall w | 0 <= w < |s.waiters| && Born(s.waiters[w].pc) ::
         var x := s.waiters[w];
         x.snapshot == x.born % s.modulus && x.born <= s.total
  }

  lemma WaiterKeepsCounter(s: State, s': State, w: WaiterId)
    requires CounterOk(s) && DoWaiter(s, s', w)
    ensures CounterOk(s')
  {
  }

  lemma NotifierKeepsCounter(s: State, s': State, n: NotifierId)
    requires CounterOk(s) && DoNotifier(s, s', n)
    ensures CounterOk(s')
  {
    NextOfModulo(s.total, s.modulus);
  }

  // ----- sleeping waiters -----

  /** The notifier that sent notification number `q` has still to empty the list. */
  ghost predicate StillDrains(s: State, q: nat) {
    exists n :: 0 <= n < |s.notifiers| && Committed(s.notifiers[n].pc) && s.notifiers[n].number == q
  }

  ghost predicate SomeoneWakes(s: State, w: WaiterId) {
    exists n :: 0 <= n < |s.notifiers| && s.notifiers[n].pc == Waking(w)
  }

  /** The last poll of the waiter got past the second look at the counter, and found nothing. */
  predicate WentToSleep(x: Waiter) {
    x.pc.Asleep? || (x.registered && (x.pc.FirstCheck? || x.pc.Enlisting?))
  }

  predicate CheckedOk(s: State, x: Waiter) {
    WentToSleep(x) ==> x.born <= x.checked <= s.total && x.checked % s.modulus == x.snapshot
  }

  /** What was sent since a listed waiter went to sleep is still under way, or was cut short by a panic. */
  ghost predicate ListedOk(s: State, w: WaiterId)
    requires IsWaiter(s, w)
  {
    WentToSleep(s.waiters[w]) && w in s.list && s.total > s.waiters[w].checked ==>
      s.waiters[w].lost == s.total || StillDrains(s, s.total)
  }

  ghost predicate NumbersOk(s: State) {
    && (forall w | 0 <= w < |s.waiters| :: s.waiters[w].lost <= s.total)
    && (forall n | 0 <= n < |s.notifiers| :: s.notifiers[n].number <= s.total)
  }

  ghost predicate SleepOk(s: State) {
    && NumbersOk(s)
    && forall w | 0 <= w < |s.waiters| :: CheckedOk(s, s.waiters[w]) && ListedOk(s, w)
  }

  /** A step of a waiter changes only that waiter, the list by putting it in front, and the count. */
  lemma WaiterFrame(s: State, s': State, w: WaiterId)
    requires DoWaiter(s, s', w)
    ensures IsWaiter(s, w) && |s'.waiters| == |s.waiters| && s'.waiters == s.waiters[w := s'.waiters[w]]
    ensures s'.modulus == s.modulus && s'.wakeups == s.wakeups && s'.total == s.total && s'.notifiers == s.notifiers
    ensures s'.list == s.list || s'.list == [w] + s.list
    ensures s'.waiters[w].lost == s.waiters[w].lost && s'.waiters[w].delivered == s.waiters[w].delivered
  {
    hide SomeoneCommitted, LockFree;
  }

  lemma WaiterKeepsOwnSleep(s: State, s': State, w: WaiterId)
    requires CounterOk(s) && DoWaiter(s, s', w) && StageOk(s.waiters[w], w in s.list)
    requires CheckedOk(s, s.waiters[w]) && ListedOk(s, w)
    ensures CheckedOk(s', s'.waiters[w]) && ListedOk(s', w)
  {
    hide SomeoneCommitted, LockFree;
    SameNotifiersDrain(s, s');
    hide StillDrains;
  }

  lemma WaiterKeepsSleep(s: State, s': State, w: WaiterId)
    requires ListOk(s) && CounterOk(s) && SleepOk(s) && DoWaiter(s, s', w)
    ensures SleepOk(s')
  {
    WaiterFrame(s, s', w);
    assert StageOk(s.waiters[w], w in s.list) && CheckedOk(s, s.waiters[w]) && ListedOk(s, w);
    WaiterKeepsOwnSleep(s, s', w);
    SameNotifiersDrain(s, s');
    hide ListOk, CounterOk, StillDrains, DoWaiter;
    forall v | 0 <= v < |s.waiters| ensures CheckedOk(s', s'.waiters[v]) && ListedOk(s', v) {
      assert CheckedOk(s, s.waiters[v]) && ListedOk(s, v);
    }
  }

  lemma SameNotifiersDrain(s: State, s': State)
    requires s'.notifiers == s.notifiers
    ensures forall q :: StillDrains(s', q) == StillDrains(s, q)
  {
  }

  lemma DropKeepsSleep(s: State, s': State, w: WaiterId)
    requires ListOk(s) && SleepOk(s) && DoDrop(s, s', w)
    ensures SleepOk(s')
  {
    WithoutDistinct(s.list, w);
    hide Distinct, Without;
  }

  lemma NotifierKeepsSleep(s: State, s': State, n: NotifierId)
    requires ListOk(s) && SleepOk(s) && DoNotifier(s, s', n)
    ensures SleepOk(s')
  {
    hide Distinct;
    assert NumbersOk(s');
    forall w | 0 <= w < |s.waiters|
      ensures CheckedOk(s', s'.waiters[w]) && ListedOk(s', w)
    {
      assert CheckedOk(s, s.waiters[w]) && ListedOk(s, w);
      DrainLasts(s, s', n, w);
      hide StillDrains;
    }
  }

  /** A notifier stops draining only once the list is empty, or it marks every waiter that it leaves in the list. */
  lemma DrainLasts(s: State, s': State, n: NotifierId, w: WaiterId)
    requires NumbersOk(s) && DoNotifier(s, s', n) && IsWaiter(s, w)
    ensures StillDrains(s, s.total) && s'.total == s.total && w in s'.list ==>
              StillDrains(s', s'.total) || s'.waiters[w].lost == s'.total
    ensures s'.total != s.total ==> StillDrains(s', s'.total)
  {
    if s'.total != s.total {
      assert Committed(s'.notifiers[n].pc) && s'.notifiers[n].number == s'.total;
    } else if StillDrains(s, s.total) {
      var m :| 0 <= m < |s.notifiers| && Committed(s.notifiers[m].pc) && s.notifiers[m].number == s.total;
      assert m != n ==> s'.notifiers[m] == s.notifiers[m];
      assert m == n && Committed(s'.notifiers[n].pc) ==> s'.notifiers[n].number == s.total;
    }
  }

  // ----- the call of a waker -----

  ghost predicate LockOk(s: State) {
    forall m, n | 0 <= m < |s.notifiers| && 0 <= n < |s.notifiers| && m != n ::
      HoldsLock(s.notifiers[m].pc) ==> !HoldsLock(s.notifiers[n].pc)
  }

  predicate HoldsLock(pc: NotifierPc) { pc.Draining? || pc.Waking? }

  /** A waiter's waker is called once, after the waiter has left the list: it is about to be, it was, or it panicked. */
  ghost predicate CallOk(s: State, w: WaiterId)
    requires IsWaiter(s, w)
  {
    var x := s.waiters[w];
    && (w in s.list || !x.registered ==> !x.woken && !x.burnt && !SomeoneWakes(s, w))
    && (SomeoneWakes(s, w) ==> !x.woken && !x.burnt)
    && !(x.woken && x.burnt)
    && ((x.pc.SecondCheck? || x.pc.Asleep?) && w !in s.list ==> x.woken || x.burnt || SomeoneWakes(s, w))
  }

  ghost predicate CallsOk(s: State) {
    LockOk(s) && forall w | 0 <= w < |s.waiters| :: CallOk(s, w)
  }

  lemma SameNotifiersWake(s: State, s': State, w: WaiterId)
    requires s'.notifiers == s.notifiers
    ensures SomeoneWakes(s', w) == SomeoneWakes(s, w)
  {
  }

  lemma WaiterKeepsCalls(s: State, s': State, w: WaiterId)
    requires ListOk(s) && CallsOk(s) && DoWaiter(s, s', w)
    ensures CallsOk(s')
  {
    assert s'.waiters == s.waiters[w := s'.waiters[w]];
    assert StageOk(s.waiters[w], w in s.list);
    hide Distinct;
    forall v | 0 <= v < |s.waiters| ensures CallOk(s', v) {
      assert CallOk(s, v);
      SameNotifiersWake(s, s', v);
      hide SomeoneWakes;
    }
  }

  lemma DropKeepsCalls(s: State, s': State, w: WaiterId)
    requires ListOk(s) && CallsOk(s) && DoDrop(s, s', w)
    ensures CallsOk(s')
  {
    WithoutDistinct(s.list, w);
    hide Distinct, Without;
    forall v | 0 <= v < |s.waiters| ensures CallOk(s', v) {
      assert CallOk(s, v);
      SameNotifiersWake(s, s', v);
      hide SomeoneWakes;
    }
  }

  lemma NotifierKeepsLock(s: State, s': State, n: NotifierId)
    requires LockOk(s) && DoNotifier(s, s', n)
    ensures LockOk(s')
  {
  }

  lemma NotifierKeepsCalls(s: State, s': State, n: NotifierId)
    requires ListOk(s) && CallsOk(s) && DoNotifier(s, s', n)
    ensures CallsOk(s')
  {
    NotifierKeepsLock(s, s', n);
    forall w | 0 <= w < |s.waiters| ensures CallOk(s', w) {
      assert CallOk(s, w);
      NotifierKeepsCall(s, s', n, w);
    }
  }

  /** What a step of a notifier does to the call of one waker. */
  lemma WakingMoves(s: State, s': State, n: NotifierId, w: WaiterId)
    requires LockOk(s) && DoNotifier(s, s', n)
    ensures SomeoneWakes(s', w) <==>
              || (SomeoneWakes(s, w) && s.notifiers[n].pc != Waking(w))
              || (s.notifiers[n].pc.Draining? && s.list != [] && s.list[0] == w)
  {
    assert s'.notifiers == s.notifiers || s'.notifiers == s.notifiers[n := s'.notifiers[n]];
    if m :| 0 <= m < |s.notifiers| && m != n && s.notifiers[m].pc == Waking(w) {
      assert s'.notifiers[m].pc == Waking(w);
      assert HoldsLock(s.notifiers[m].pc);
    }
    if s.notifiers[n].pc.Draining? && s.list != [] {
      assert s'.notifiers[n].pc == Waking(s.list[0]);
    }
  }

  lemma NotifierKeepsCall(s: State, s': State, n: NotifierId, w: WaiterId)
    requires ListOk(s) && LockOk(s) && DoNotifier(s, s', n) && IsWaiter(s, w) && CallOk(s, w)
    ensures CallOk(s', w)
  {
    WakingMoves(s, s', n, w);
    assert s.notifiers[n].pc == Waking(w) ==> SomeoneWakes(s, w);
    if s.list != [] {
      assert s.list[0] in s.list && s.list[0] !in s.list[1..];
      assert forall v :: v in s.list <==> v in s.list[1..] || v == s.list[0];
    }
    hide Distinct, LockOk, SomeoneWakes, StageOk;
  }

  // ----- notifications that were delivered -----

  ghost predicate ObligationOk(s: State, y: Notifier) {
    forall w | w in y.obliged ::
      IsWaiter(s, w) && Born(s.waiters[w].pc) && (Committed(y.pc) ==> s.total > s.waiters[w].born)
  }

  ghost predicate ObligationsOk(s: State) {
    forall n | 0 <= n < |s.notifiers| :: ObligationOk(s, s.notifiers[n])
  }

  ghost predicate DeliveredOk(s: State, w: WaiterId)
    requires IsWaiter(s, w)
  {
    var x := s.waiters[w];
    x.delivered ==>
      && Born(x.pc)
      && (!x.registered ==> s.total > x.born)
      && (w in s.list ==> s.total > x.born && (WentToSleep(x) ==> x.checked > x.born))
  }

  ghost predicate DeliveryOk(s: State) {
    forall w | 0 <= w < |s.waiters| :: DeliveredOk(s, w)
  }

  lemma WaiterKeepsObligations(s: State, s': State, w: WaiterId)
    requires ObligationsOk(s) && DoWaiter(s, s', w)
    ensures ObligationsOk(s')
  {
    assert s'.waiters == s.waiters[w := s'.waiters[w]] && s'.notifiers == s.notifiers && s'.total == s.total;
    assert Born(s.waiters[w].pc) ==> Born(s'.waiters[w].pc) && s'.waiters[w].born == s.waiters[w].born;
    hide DoWaiter;
    forall n | 0 <= n < |s.notifiers| ensures ObligationOk(s', s'.notifiers[n]) {
      assert ObligationOk(s, s.notifiers[n]);
    }
  }

  lemma WaiterKeepsOwnDelivery(s: State, s': State, w: WaiterId)
    requires CounterOk(s) && DoWaiter(s, s', w) && StageOk(s.waiters[w], w in s.list) && DeliveredOk(s, w)
    ensures DeliveredOk(s', w)
  {
    hide SomeoneCommitted, LockFree;
  }

  lemma WaiterKeepsDelivery(s: State, s': State, w: WaiterId)
    requires ListOk(s) && CounterOk(s) && DeliveryOk(s) && DoWaiter(s, s', w)
    ensures DeliveryOk(s')
  {
    WaiterFrame(s, s', w);
    assert StageOk(s.waiters[w], w in s.list) && DeliveredOk(s, w);
    WaiterKeepsOwnDelivery(s, s', w);
    hide ListOk, CounterOk, DoWaiter;
    forall v | 0 <= v < |s.waiters| ensures DeliveredOk(s', v) {
      assert DeliveredOk(s, v);
    }
  }

  lemma DropKeepsDelivery(s: State, s': State, w: WaiterId)
    requires ListOk(s) && ObligationsOk(s) && DeliveryOk(s) && DoDrop(s, s', w)
    ensures ObligationsOk(s') && DeliveryOk(s')
  {
    WithoutDistinct(s.list, w);
    hide Distinct, Without;
    assert s'.waiters == s.waiters[w := s'.waiters[w]];
    forall n | 0 <= n < |s.notifiers| ensures ObligationOk(s', s'.notifiers[n]) {
      assert ObligationOk(s, s.notifiers[n]);
    }
    forall v | 0 <= v < |s.waiters| ensures DeliveredOk(s', v) {
      assert DeliveredOk(s, v);
    }
  }

  /** The fast path is taken only when every live waiter has been notified already. */
  lemma NobodyActive(s: State)
    requires ListOk(s) && CountOk(s) && s.active == 0
    ensures s.list == [] && forall w | 0 <= w < |s.waiters| && Live(s.waiters[w].pc) :: s.waiters[w].registered
  {
    assert NeverRegistered(s.waiters) == {};
    forall w | 0 <= w < |s.waiters| && Live(s.waiters[w].pc) ensures s.waiters[w].registered {
      assert w !in NeverRegistered(s.waiters);
    }
  }

  lemma NotifierKeepsObligations(s: State, s': State, n: NotifierId)
    requires CounterOk(s) && ObligationsOk(s) && DoNotifier(s, s', n)
    ensures ObligationsOk(s')
  {
    assert ObligationOk(s, s.notifiers[n]);
    forall m | 0 <= m < |s.notifiers| ensures ObligationOk(s', s'.notifiers[m]) {
      assert ObligationOk(s, s.notifiers[m]);
    }
  }

  lemma NotifierKeepsDelivery(s: State, s': State, n: NotifierId)
    requires ListOk(s) && CountOk(s) && CounterOk(s) && ObligationsOk(s) && DeliveryOk(s) && DoNotifier(s, s', n)
    ensures DeliveryOk(s')
  {
    if s.active == 0 {
      NobodyActive(s);
    }
    assert ObligationOk(s, s.notifiers[n]);
    assert forall w | w in s'.list :: w in s.list;
    hide ListOk, CountOk, CounterOk, ObligationsOk;
    forall w | 0 <= w < |s.waiters| ensures DeliveredOk(s', w) {
      assert DeliveredOk(s, w);
    }
  }

  // ----- completion -----

  /** A waiter that met no notifier on its way when it subscribed is taken out, and completes, only by a later one. */
  ghost predicate CompletionOk(s: State, w: WaiterId)
    requires IsWaiter(s, w)
  {
    var x := s.waiters[w];
    Born(x.pc) && !x.crowded ==>
      && (s.total == x.born ==> !SomeoneCommitted(s))
      && (Live(x.pc) && x.registered && w !in s.list ==> s.total > x.born)
      && (x.pc.Completed? ==> s.total > x.born)
  }

  ghost predicate CompletionsOk(s: State) {
    forall w | 0 <= w < |s.waiters| :: CompletionOk(s, w)
  }

  lemma WaiterKeepsOwnCompletion(s: State, s': State, w: WaiterId)
    requires CounterOk(s) && DoWaiter(s, s', w) && StageOk(s.waiters[w], w in s.list) && CompletionOk(s, w)
    ensures CompletionOk(s', w)
  {
    hide LockFree;
    WaiterFrame(s, s', w);
    assert SomeoneCommitted(s') == SomeoneCommitted(s);
    hide SomeoneCommitted;
  }

  lemma WaiterKeepsCompletions(s: State, s': State, w: WaiterId)
    requires ListOk(s) && CounterOk(s) && CompletionsOk(s) && DoWaiter(s, s', w)
    ensures CompletionsOk(s')
  {
    WaiterFrame(s, s', w);
    assert StageOk(s.waiters[w], w in s.list) && CompletionOk(s, w);
    WaiterKeepsOwnCompletion(s, s', w);
    assert SomeoneCommitted(s') == SomeoneCommitted(s);
    hide ListOk, SomeoneCommitted, DoWaiter, CounterOk;
    forall v | 0 <= v < |s.waiters| ensures CompletionOk(s', v) {
      assert CompletionOk(s, v);
    }
  }

  lemma DropKeepsCompletions(s: State, s': State, w: WaiterId)
    requires ListOk(s) && CompletionsOk(s) && DoDrop(s, s', w)
    ensures CompletionsOk(s')
  {
    WithoutDistinct(s.list, w);
    assert SomeoneCommitted(s') == SomeoneCommitted(s);
    hide Distinct, Without, SomeoneCommitted;
    forall v | 0 <= v < |s.waiters| ensures CompletionOk(s', v) {
      assert CompletionOk(s, v);
    }
  }

  lemma NotifierKeepsCompletions(s: State, s': State, n: NotifierId)
    requires CounterOk(s) && CompletionsOk(s) && DoNotifier(s, s', n)
    ensures CompletionsOk(s')
  {
    assert Committed(s.notifiers[n].pc) ==> SomeoneCommitted(s);
    if SomeoneCommitted(s') && s'.total == s.total {
      var m :| 0 <= m < |s'.notifiers| && Committed(s'.notifiers[m].pc);
      assert m != n ==> s'.notifiers[m] == s.notifiers[m];
      assert SomeoneCommitted(s);
    }
    assert s'.list != s.list ==> SomeoneCommitted(s);
    hide SomeoneCommitted;
    forall w | 0 <= w < |s.waiters| ensures CompletionOk(s', w) {
      assert CompletionOk(s, w);
    }
  }

  // ----- every run -----

  ghost predicate Inv(s: State) {
    && ListOk(s) && CountOk(s) && CounterOk(s) && SleepOk(s) && CallsOk(s) && ObligationsOk(s) && DeliveryOk(s)
    && CompletionsOk(s)
  }

  lemma InitIsInv(s: State)
    requires Init(s)
    ensures Inv(s)
  {
    assert NeverRegistered(s.waiters) == {};
  }

  lemma NextKeepsInv(s: State, s': State)
    requires Inv(s) && Next(s, s')
    ensures Inv(s')
  {
    var step :| NextBy(s, s', step);
    hide ListOk, CountOk, CounterOk, SleepOk, CallsOk, ObligationsOk, DeliveryOk, CompletionsOk;
    match step
    case WaiterOf(w) =>
      hide DoWaiter;
      WaiterKeepsList(s, s', w);
      WaiterKeepsCount(s, s', w);
      WaiterKeepsCounter(s, s', w);
      WaiterKeepsSleep(s, s', w);
      WaiterKeepsCalls(s, s', w);
      WaiterKeepsCompletions(s, s', w);
      WaiterKeepsObligations(s, s', w);
      WaiterKeepsDelivery(s, s', w);
    case DropOf(w) =>
      DropKeepsList(s, s', w);
      DropKeepsCounter(s, s', w);
      DropKeepsSleep(s, s', w);
      DropKeepsCalls(s, s', w);
      DropKeepsCompletions(s, s', w);
      DropKeepsDelivery(s, s', w);
    case NotifierOf(n) =>
      hide DoNotifier;
      NotifierKeepsList(s, s', n);
      NotifierKeepsCounter(s, s', n);
      NotifierKeepsSleep(s, s', n);
      NotifierKeepsCalls(s, s', n);
      NotifierKeepsCompletions(s, s', n);
      NotifierKeepsObligations(s, s', n);
      NotifierKeepsDelivery(s, s', n);
  }

  lemma DropKeepsCounter(s: State, s': State, w: WaiterId)
    requires CounterOk(s) && DoDrop(s, s', w)
    ensures CounterOk(s')
  {
  }

  lemma {:induction false} RunKeepsInv(run: seq<State>)
    requires IsRun(run)
    ensures Inv(run[|run| - 1])
  {
    hide Inv, Next, Init;
    if |run| == 1 {
      InitIsInv(run[0]);
    } else {
      var shorter := run[..|run| - 1];
      assert IsRun(shorter);
      RunKeepsInv(shorter);
      assert Next(run[|run| - 2], run[|run| - 1]);
      NextKeepsInv(run[|run| - 2], run[|run| - 1]);
    }
  }

  lemma ReachableIsInv(s: State)
    requires Reachable(s)
    ensures Inv(s)
  {
    var run :| IsRun(run) && run[|run| - 1] == s;
    RunKeepsInv(run);
  }

  // ----- theorems -----

  /**
   The count of active waiters is the length of the list plus the live waiters that were never registered: it never
   drops below zero.
   */
  lemma ActiveWaitersAreCounted(s: State)
    requires Reachable(s)
    ensures s.active == |s.list| + |NeverRegistered(s.waiters)| >= 0
    ensures Distinct(s.list)
    ensures forall w | w in s.list :: IsWaiter(s, w) && Live(s.waiters[w].pc) && s.waiters[w].registered
  {
    hide Reachable;
    ReachableIsInv(s);
    forall w | w in s.list ensures IsWaiter(s, w) && Live(s.waiters[w].pc) && s.waiters[w].registered {
      assert StageOk(s.waiters[w], w in s.list);
    }
  }

  /**
   A notifier takes the fast path only when every waiter alive was registered and taken out of the list again: the
   next poll of each of them that takes the lock is ready.
   */
  lemma FastPathSkipsNobody(s: State, w: WaiterId)
    requires Reachable(s) && s.active == 0 && IsWaiter(s, w) && Live(s.waiters[w].pc)
    ensures s.waiters[w].registered && w !in s.list
  {
    hide Reachable;
    ReachableIsInv(s);
    NobodyActive(s);
  }

  /**
   A call of `notify` that finds no active waiter returns at once and writes to nothing; any other goes on to increment
   the counter.
   */
  lemma FastPathWritesNothing(s: State, s': State, n: NotifierId)
    requires DoNotifier(s, s', n) && s.notifiers[n].pc.Off?
    ensures s'.wakeups == s.wakeups && s'.total == s.total && s'.active == s.active && s'.list == s.list
    ensures forall w | 0 <= w < |s.waiters| ::
              s'.waiters[w].(delivered := s.waiters[w].delivered) == s.waiters[w]
    ensures s.active == 0 ==> s'.notifiers == s.notifiers
    ensures s.active != 0 ==> s'.notifiers[n].pc.Bumping? && s'.waiters == s.waiters
  {
  }

  // ----- when a poll is ready -----

  /**
   What each look of a poll decides. The two looks at the counter end it if and only if the notifications since the
   snapshot are no multiple of the modulus, and the look under the lock if and only if the waiter was in the list and
   is no longer. A poll that finds nothing leaves the waiter asleep in the list.
   */
  lemma PollIsReadyExactly(s: State, s': State, w: WaiterId)
    requires Reachable(s) && DoWaiter(s, s', w)
    ensures var x, x' := s.waiters[w], s'.waiters[w];
      && (x.pc.FirstCheck? ==> if (s.total - x.born) % s.modulus != 0 then x'.pc.Completed? else x'.pc.Enlisting?)
      && (x.pc.SecondCheck? ==> if (s.total - x.born) % s.modulus != 0 then x'.pc.Completed? else x'.pc.Asleep?)
      && (x.pc.Enlisting? ==>
            && (x'.pc.Completed? <==> x.registered && w !in s.list)
            && (x'.pc.SecondCheck? ==> w in s'.list)
            && (x.registered && w in s.list ==> s'.list == s.list && (x'.pc.SecondCheck? || x'.pc.Asleep?)))
      && (x'.pc.Completed? ==> x.pc.FirstCheck? || x.pc.SecondCheck? || x.pc.Enlisting?)
  {
    hide Reachable;
    if s.waiters[w].pc.FirstCheck? || s.waiters[w].pc.SecondCheck? {
      CounterShowsNotifications(s, w);
    }
  }

  /**
   A waiter completes only after a notification that was sent after its subscription, unless some notifier was past its
   increment and not done when it subscribed.
   */
  lemma CompletionNeedsNotification(s: State, w: WaiterId)
    requires Reachable(s) && IsWaiter(s, w) && s.waiters[w].pc.Completed?
    ensures s.total > s.waiters[w].born || s.waiters[w].crowded
  {
    hide Reachable;
    ReachableIsInv(s);
    assert CompletionOk(s, w);
    hide ListOk, CountOk, SleepOk, CallsOk, ObligationsOk, DeliveryOk;
  }

  /** The two looks at the wrapping counter see any number of notifications but a multiple of its modulus. */
  lemma CounterShowsNotifications(s: State, w: WaiterId)
    requires Reachable(s) && IsWaiter(s, w) && Born(s.waiters[w].pc)
    ensures var x := s.waiters[w];
      x.born <= s.total && (s.wakeups != x.snapshot <==> (s.total - x.born) % s.modulus != 0)
  {
    hide Reachable;
    ReachableIsInv(s);
    SameRemainder(s.waiters[w].born, s.total, s.modulus);
  }

  /**
   A waiter that sleeps outside of the list has had its waker called, or is about to, or its waker panicked, and only
   one of these. A waiter that sleeps in the list has not been woken: nothing was sent since it went to sleep, or the
   notifier that sent the last notification has still to drain the list, or a panicking waker cut its drain short.
   */
  lemma NoLostWakeup(s: State, w: WaiterId)
    requires Reachable(s) && IsWaiter(s, w) && s.waiters[w].pc.Asleep?
    ensures var x := s.waiters[w];
      if w in s.list
      then !x.woken && !x.burnt && (s.total == x.checked || x.lost == s.total || StillDrains(s, s.total))
      else && (x.woken || x.burnt || SomeoneWakes(s, w))
           && !(x.woken && x.burnt) && !(x.woken && SomeoneWakes(s, w)) && !(x.burnt && SomeoneWakes(s, w))
  {
    hide Reachable;
    ReachableIsInv(s);
    assert CallOk(s, w) && ListedOk(s, w) && CheckedOk(s, s.waiters[w]);
    hide ListOk, CountOk, CounterOk, ObligationsOk, DeliveryOk, StillDrains, SomeoneWakes;
  }

  /**
   The exact exception. For a waiter asleep in the list the wrapped counter does not matter: once all notifiers are
   done it has missed a notification if and only if a panicking waker cut short the drain of one sent since it went to
   sleep.
   */
  lemma ListedSleeperMissesOnlyByPanic(s: State, w: WaiterId)
    requires Reachable(s) && IsWaiter(s, w) && s.waiters[w].pc.Asleep? && w in s.list && !SomeoneCommitted(s)
    ensures s.total > s.waiters[w].checked <==> s.waiters[w].lost > s.waiters[w].checked
  {
    hide Reachable;
    ReachableIsInv(s);
    assert ListedOk(s, w) && CheckedOk(s, s.waiters[w]);
    assert !StillDrains(s, s.total);
    hide ListOk, CountOk, CounterOk, ObligationsOk, DeliveryOk, CallsOk;
  }

  /**
   A call of `notify` that began after the subscription and returned leaves the waiter asleep in the list only if,
   at the second look of its last poll, a positive multiple of the modulus had been sent since its snapshot.
   */
  lemma DeliveredUnlessWrapped(s: State, w: WaiterId)
    requires Reachable(s) && IsWaiter(s, w) && s.waiters[w].pc.Asleep? && s.waiters[w].delivered
    ensures var x := s.waiters[w];
      || w !in s.list
      || (x.born < x.checked <= s.total && (x.checked - x.born) % s.modulus == 0)
  {
    hide Reachable;
    ReachableIsInv(s);
    var x := s.waiters[w];
    assert CheckedOk(s, x) && DeliveredOk(s, w);
    hide ListOk, CountOk, CallsOk, ObligationsOk;
    if w in s.list {
      SameRemainder(x.born, x.checked, s.modulus);
    }
  }

  /**
   With fewer notifications than the modulus since the subscription, a delivered notification always arrives: the
   waiter was taken out of the list, and its waker was called or is about to be.
   */
  lemma FewNotificationsArrive(s: State, w: WaiterId)
    requires Reachable(s) && IsWaiter(s, w) && s.waiters[w].pc.Asleep? && s.waiters[w].delivered
    requires s.total - s.waiters[w].born < s.modulus
    ensures w !in s.list && (s.waiters[w].woken || s.waiters[w].burnt || SomeoneWakes(s, w))
  {
    hide Reachable, SomeoneWakes, StillDrains;
    var x := s.waiters[w];
    DeliveredUnlessWrapped(s, w);
    NoLostWakeup(s, w);
    if w in s.list {
      RemainderIsUnique(x.checked - x.born, s.modulus, 0, x.checked - x.born);
    }
  }

  /** The next poll completes the waiter: it sees the counter moved, or it is out of the list, and called if asleep. */
  predicate Notified(s: State, w: WaiterId)
    requires IsWaiter(s, w)
  {
    var x := s.waiters[w];
    && w !in s.list && (Unregistered(x) ==> s.wakeups != x.snapshot)
    && (x.pc.Asleep? ==> x.woken || x.burnt)
  }

  /**
   A call of `notify` that returns has notified every waiter that had subscribed when it began, all of them at once in
   the state that it returns to, if fewer notifications than the modulus were sent since they subscribed.
   */
  lemma ReturningCallNotifiedEveryone(s: State, s': State, n: NotifierId)
    requires Reachable(s) && DoNotifier(s, s', n) && s.notifiers[n].pc.Draining? && s'.notifiers[n].pc.Off?
    ensures forall w | w in s.notifiers[n].obliged ::
              IsWaiter(s', w) && (s.total - s.waiters[w].born < s.modulus ==> Notified(s', w))
  {
    ReachableIsInv(s);
    hide Reachable;
    assert ObligationOk(s, s.notifiers[n]);
    hide ListOk, CountOk, CounterOk, SleepOk, CallsOk, ObligationsOk, DeliveryOk, DoNotifier;
    forall w | w in s.notifiers[n].obliged
      ensures IsWaiter(s', w) && (s.total - s.waiters[w].born < s.modulus ==> Notified(s', w))
    {
      ReturningCallNotified(s, s', n, w);
    }
  }

  lemma ReturningCallNotified(s: State, s': State, n: NotifierId, w: WaiterId)
    requires CounterOk(s) && CallsOk(s) && DoNotifier(s, s', n)
    requires s.notifiers[n].pc.Draining? && s'.notifiers[n].pc.Off?
    requires IsWaiter(s, w) && Born(s.waiters[w].pc) && s.total > s.waiters[w].born
    ensures IsWaiter(s', w) && (s.total - s.waiters[w].born < s.modulus ==> Notified(s', w))
  {
    if s.total - s.waiters[w].born < s.modulus {
      FewMoveTheCounter(s, w);
    }
    assert HoldsLock(s.notifiers[n].pc);
    assert CallOk(s, w) && !SomeoneWakes(s, w);
    hide CallsOk, SomeoneWakes, CounterOk;
  }

  lemma FewMoveTheCounter(s: State, w: WaiterId)
    requires CounterOk(s) && IsWaiter(s, w) && Born(s.waiters[w].pc)
    requires 0 < s.total - s.waiters[w].born < s.modulus
    ensures s.wakeups != s.waiters[w].snapshot
  {
    SameRemainder(s.waiters[w].born, s.total, s.modulus);
    RemainderIsUnique(s.total - s.waiters[w].born, s.modulus, 0, s.total - s.waiters[w].born);
  }
}
