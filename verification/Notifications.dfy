/**
 The interleavings of `src/rcu_core/notify.rs`: any number of waiters subscribe, are polled and dropped while any
 number of notifiers run. A step is one access to one of the two counters or one section under the lock; a
 notifier holds the lock over many steps, one for each waiter it takes out of the list and one for each waker it
 calls. A waker may panic, which ends the notifier and leaves the rest of the list as it is, and so may the clone of
 a waker, which ends the poll. The operations on the list are those of `WaiterLists`.
 */
module Notifications {
  import opened WaiterLists
  import opened WrappingCounters

  type WaiterId = nat
  type NotifierId = nat

  /** `Held` is a future that is not in the list yet, `Asleep` one whose last poll that finished was pending. */
  datatype WaiterPc =
    | Absent | Subscribing | Held | FirstCheck | Enlisting | SecondCheck | Asleep | Completed | Dropped

  /**
   `woken` says that the waker was called since the last poll began, and returned; `burnt` that the call panicked.
   Five fields are for the statements only: `born` and `checked` are the number of notifications ever sent when the
   snapshot was taken and when the last pending poll ended, `delivered` says that some call of `notify` began after
   the subscription and returned, `crowded` that some notifier was past its increment and not done when the snapshot was
   taken, and `lost` is the last notification whose drain a panicking waker cut short while
   this waiter was still in the list.
   */
  datatype Waiter = Waiter(pc: WaiterPc, snapshot: nat, registered: bool, woken: bool, burnt: bool,
                           born: nat, checked: nat, delivered: bool, lost: nat, crowded: bool)

  datatype NotifierPc = Off | Bumping | Locking | Draining | Waking(w: WaiterId)

  /** `obliged` are the waiters that had subscribed when the call began, `number` says which notification it sent. */
  datatype Notifier = Notifier(pc: NotifierPc, obliged: set<WaiterId>, number: nat)

  /** `total` is the number of increments of `wakeups`, which wraps around at `modulus`. */
  datatype State = State(modulus: Positive, wakeups: nat, total: nat, active: int, list: seq<WaiterId>,
                         waiters: seq<Waiter>, notifiers: seq<Notifier>)

  predicate IsWaiter(s: State, w: WaiterId) { w < |s.waiters| }

  predicate IsNotifier(s: State, n: NotifierId) { n < |s.notifiers| }

  predicate Live(pc: WaiterPc) { !pc.Absent? && !pc.Dropped? }

  /** `notified()` has returned, and the future is neither complete nor dropped. */
  predicate Subscribed(pc: WaiterPc) { Live(pc) && !pc.Subscribing? && !pc.Completed? }

  predicate Committed(pc: NotifierPc) { pc.Locking? || pc.Draining? || pc.Waking? }

  ghost predicate LockFree(s: State) {
    forall n | 0 <= n < |s.notifiers| :: !s.notifiers[n].pc.Draining? && !s.notifiers[n].pc.Waking?
  }

  ghost predicate SomeoneCommitted(s: State) {
    exists n :: 0 <= n < |s.notifiers| && Committed(s.notifiers[n].pc)
  }

  ghost predicate Init(s: State) {
    && s.wakeups == 0 && s.total == 0 && s.active == 0 && s.list == []
    && (forall w | 0 <= w < |s.waiters| ::
          s.waiters[w] == Waiter(Absent, 0, false, false, false, 0, 0, false, 0, false))
    && (forall n | 0 <= n < |s.notifiers| :: s.notifiers[n] == Notifier(Off, {}, 0))
  }

  /** The clone of the waker panics, before the poll has changed anything. */
  predicate DoUnwind(s: State, s': State, w: WaiterId)
    requires IsWaiter(s, w)
  {
    var x := s.waiters[w];
    s' == s.(waiters := s.waiters[w := x.(pc := if x.registered then Asleep else Held)])
  }

  /** `Notified::new` and `poll`; a pending future may be polled at any time, woken or not. */
  ghost predicate DoWaiter(s: State, s': State, w: WaiterId) {
    && IsWaiter(s, w)
    && var x := s.waiters[w];
       match x.pc
       case Absent =>
         s' == s.(active := s.active + 1, waiters := s.waiters[w := x.(pc := Subscribing)])
       case Subscribing =>
         s' == s.(waiters := s.waiters[w := x.(pc := Held, snapshot := s.wakeups, born := s.total,
                                               crowded := SomeoneCommitted(s))])
       case Held =>
         s' == s.(waiters := s.waiters[w := x.(pc := FirstCheck, woken := false)])
       case Asleep =>
         s' == s.(waiters := s.waiters[w := x.(pc := FirstCheck, woken := false)])
       case FirstCheck =>
         s' == s.(waiters := s.waiters[w := x.(pc := if s.wakeups != x.snapshot then Completed else Enlisting)])
       case Enlisting =>
         LockFree(s) &&
         if w in s.list then s' == s.(waiters := s.waiters[w := x.(pc := SecondCheck)]) || DoUnwind(s, s', w)
         else if x.registered then s' == s.(waiters := s.waiters[w := x.(pc := Completed)])
         else || s' == s.(list := [w] + s.list, waiters := s.waiters[w := x.(pc := SecondCheck, registered := true)])
              || DoUnwind(s, s', w)
       case SecondCheck =>
         s' == s.(waiters := s.waiters[w := if s.wakeups != x.snapshot then x.(pc := Completed)
                                            else x.(pc := Asleep, checked := s.total)])
       case _ => false
  }

  ghost predicate DoDrop(s: State, s': State, w: WaiterId) {
    && IsWaiter(s, w)
    && var x := s.waiters[w];
    && (x.pc.Held? || x.pc.Asleep? || x.pc.Completed?)
    && var dropped := s.waiters[w := x.(pc := Dropped)];
    if x.registered
    then LockFree(s) && s' == s.(list := Without(s.list, w), waiters := dropped,
                                 active := if w in s.list then s.active - 1 else s.active)
    else s' == s.(waiters := dropped, active := s.active - 1)
  }

  ghost function SubscribedWaiters(waiters: seq<Waiter>): set<WaiterId> {
    set w | 0 <= w < |waiters| && Subscribed(waiters[w].pc)
  }

  function Deliver(waiters: seq<Waiter>, ws: set<WaiterId>): (r: seq<Waiter>)
    ensures |r| == |waiters|
    ensures forall w | 0 <= w < |waiters| :: r[w] == if w in ws then waiters[w].(delivered := true) else waiters[w]
  {
    seq(|waiters|, w requires 0 <= w < |waiters| => if w in ws then waiters[w].(delivered := true) else waiters[w])
  }

  /** The waker of `w` panics in the drain of notification `number`, with the waiters in `list` still to come. */
  function CutShort(waiters: seq<Waiter>, list: seq<WaiterId>, w: WaiterId, number: nat): (r: seq<Waiter>)
    ensures |r| == |waiters|
    ensures forall v | 0 <= v < |waiters| ::
              r[v] == waiters[v].(burnt := waiters[v].burnt || v == w,
                                  lost := if v in list && waiters[v].lost < number then number else waiters[v].lost)
  {
    seq(|waiters|, v requires 0 <= v < |waiters| =>
      waiters[v].(burnt := waiters[v].burnt || v == w,
                  lost := if v in list && waiters[v].lost < number then number else waiters[v].lost))
  }

  /** `Notify::notify`. */
  ghost predicate DoNotifier(s: State, s': State, n: NotifierId) {
    && IsNotifier(s, n)
    && var y := s.notifiers[n];
       match y.pc
       case Off =>
         var obliged := SubscribedWaiters(s.waiters);
         if s.active == 0 then s' == s.(waiters := Deliver(s.waiters, obliged))
         else s' == s.(notifiers := s.notifiers[n := Notifier(Bumping, obliged, 0)])
       case Bumping =>
         s' == s.(wakeups := (s.wakeups + 1) % s.modulus, total := s.total + 1,
                  notifiers := s.notifiers[n := y.(pc := Locking, number := s.total + 1)])
       case Locking =>
         LockFree(s) && s' == s.(notifiers := s.notifiers[n := y.(pc := Draining)])
       case Draining =>
         if s.list == []
         then s' == s.(waiters := Deliver(s.waiters, y.obliged), notifiers := s.notifiers[n := Notifier(Off, {}, 0)])
         else s' == s.(list := s.list[1..], active := s.active - 1,
                       notifiers := s.notifiers[n := y.(pc := Waking(s.list[0]))])
       case Waking(w) =>
         IsWaiter(s, w) &&
         (|| s' == s.(waiters := s.waiters[w := s.waiters[w].(woken := true)],
                      notifiers := s.notifiers[n := y.(pc := Draining)])
          || s' == s.(waiters := CutShort(s.waiters, s.list, w, y.number),
                      notifiers := s.notifiers[n := Notifier(Off, {}, 0)]))
  }

  datatype Step = WaiterOf(w: WaiterId) | DropOf(w: WaiterId) | NotifierOf(n: NotifierId)

  ghost predicate NextBy(s: State, s': State, step: Step) {
    match step
    case WaiterOf(w) => DoWaiter(s, s', w)
    case DropOf(w) => DoDrop(s, s', w)
    case NotifierOf(n) => DoNotifier(s, s', n)
  }

  ghost predicate Next(s: State, s': State) {
    exists step :: NextBy(s, s', step)
  }

  ghost predicate IsRun(run: seq<State>) {
    && |run| > 0 && Init(run[0])
    && forall i :: 0 <= i < |run| - 1 ==> Next(run[i], run[i + 1])
  }

  ghost predicate Reachable(s: State) {
    exists run :: IsRun(run) && run[|run| - 1] == s
  }
}
