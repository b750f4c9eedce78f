/**
 The waiters list of `src/rcu_core/notify.rs`: an intrusive doubly linked list whose back pointers refer to the
 `next` field of the previous slot. This module holds the data structure under the lock of a `Notify`; what
 happens when its operations interleave is the subject of `Notifications`.
 */
module WaiterLists {
  import opened Common

  type Waker = nat

  datatype PollOutcome = Ready | Pending | ClonePanicked

  /**
   A `Notified` future with its embedded slot. `pprev` is the waiter whose `next` field points here, and null for
   the head of the list.
   */
  class Notified {
    const snapshot: nat
    var wasRegistered: bool
    var next: Notified?
    var pprev: Notified?
    var waker: Option<Waker>
    var isInList: bool

    constructor (snapshot: nat)
      ensures this.snapshot == snapshot && !wasRegistered && !isInList
      ensures next == null && pprev == null && waker == None
    {
      this.snapshot := snapshot;
      wasRegistered, isInList := false, false;
      next, pprev, waker := null, null, None;
    }
  }

  function At(list: seq<Notified>, i: int): Notified? {
    if 0 <= i < |list| then list[i] else null
  }

  ghost predicate Distinct<T>(list: seq<T>) {
    forall i, j | 0 <= i < j < |list| :: list[i] != list[j]
  }

  /** The pointers starting at `head` spell out `list`, forwards and backwards. */
  ghost predicate Linked(head: Notified?, list: seq<Notified>)
    reads list`next, list`pprev
  {
    && Distinct(list)
    && head == At(list, 0)
    && (forall i {:trigger list[i].next} | 0 <= i < |list| :: list[i].next == At(list, i + 1))
    && (forall i {:trigger list[i].pprev} | 0 <= i < |list| :: list[i].pprev == At(list, i - 1))
  }

  function Without<T(==)>(list: seq<T>, x: T): seq<T> {
    if list == [] then [] else if list[0] == x then list[1..] else [list[0]] + Without(list[1..], x)
  }

  /** Removing an element takes out its one occurrence and keeps the order of the others. */
  lemma {:induction false} WithoutCutsOut<T>(list: seq<T>, i: nat)
    requires i < |list| && Distinct(list)
    ensures Without(list, list[i]) == list[..i] + list[i + 1..]
  {
    if i == 0 {
    } else {
      WithoutCutsOut(list[1..], i - 1);
      assert list[..i] + list[i + 1..] == [list[0]] + (list[1..][..i - 1] + list[1..][i..]);
    }
  }

  lemma {:induction false} WithoutAbsent<T>(list: seq<T>, x: T)
    requires x !in list
    ensures Without(list, x) == list
  {
    if list == [] {
    } else {
      WithoutAbsent(list[1..], x);
    }
  }

  /** The calls of wakers that a notifier makes when it drains `list`. */
  ghost function Calls(list: seq<Notified>): (calls: seq<(Notified, Waker)>)
    requires forall n | n in list :: n.waker.Some?
    reads list`waker
    ensures |calls| == |list|
  {
    if list == [] then [] else [(list[0], list[0].waker.value)] + Calls(list[1..])
  }

  lemma DistinctParts<T>(list: seq<T>, i: nat)
    requires Distinct(list) && i < |list|
    ensures Distinct(list[..i] + list[i + 1..])
    ensures forall x :: x in list[..i] + list[i + 1..] <==> x in list && x != list[i]
  {
    var rest := list[..i] + list[i + 1..];
    assert forall k | 0 <= k < |rest| :: rest[k] == list[if k < i then k else k + 1];
  }

  /** The head pointer is null exactly when the list is empty. */
  lemma HeadIsFirst(head: Notified?, list: seq<Notified>)
    requires Linked(head, list)
    ensures head == null <==> list == []
    ensures head != null ==> list[0] == head
  {
  }

  /** A list of pointers stands for only one sequence. */
  lemma LinkedIsUnique(head: Notified?, a: seq<Notified>, b: seq<Notified>)
    requires Linked(head, a) && Linked(head, b)
    ensures a == b
  {
    var k := 0;
    while At(a, k) != null
      invariant 0 <= k <= |a| && k <= |b|
      invariant forall i | 0 <= i < k :: a[i] == b[i]
      invariant At(a, k) == At(b, k)
      decreases |a| - k
    {
      assert a[k].next == At(a, k + 1) == At(b, k + 1);
      k := k + 1;
    }
  }

  class Notify {
    const modulus: nat
    var numWakeups: nat
    var head: Notified?
    var numActiveWaiters: nat

    ghost var list: seq<Notified>
    ghost var waiters: set<Notified>
    ghost var neverRegistered: set<Notified>
    ghost var wakeLog: seq<(Notified, Waker)>

    /**
     `waiters` are the live futures, `neverRegistered` those among them that no poll has put into the list, and
     `wakeLog` the calls of wakers so far.
     */
    ghost predicate Valid()
      reads this, waiters
    {
      && numWakeups < modulus
      && (forall n | n in list :: n in waiters)
      && Linked(head, list)
      && neverRegistered <= waiters
      && (forall n | n in waiters :: n.isInList == (n in list) && n.wasRegistered == (n !in neverRegistered))
      && (forall n | n in list :: n.wasRegistered && n.waker.Some?)
      && numActiveWaiters == |list| + |neverRegistered|
    }

    constructor (modulus: nat)
      requires modulus > 0
      ensures Valid() && this.modulus == modulus
      ensures list == [] && waiters == {} && neverRegistered == {} && wakeLog == []
    {
      this.modulus := modulus;
      numWakeups, head, numActiveWaiters := 0, null, 0;
      list, waiters, neverRegistered, wakeLog := [], {}, {}, [];
    }

    /** `Notified::new`. */
    method Subscribe() returns (n: Notified)
      requires Valid()
      modifies this`numActiveWaiters, this`waiters, this`neverRegistered
      ensures Valid() && fresh(n)
      ensures waiters == old(waiters) + {n} && neverRegistered == old(neverRegistered) + {n}
      ensures n.snapshot == numWakeups && n.waker == None
    {
      numActiveWaiters := numActiveWaiters + 1;
      n := new Notified(numWakeups);
      waiters := waiters + {n};
      neverRegistered := neverRegistered + {n};
    }

    method PushFront(n: Notified)
      requires Linked(head, list) && n !in list
      modifies this`head, this`list, n`next, n`pprev, list`pprev
      ensures Linked(head, list) && list == [n] + old(list)
    {
      n.next := head;
      n.pprev := null;
      if head != null {
        head.pprev := n;
      }
      head := n;
      list := [n] + list;
      assert forall k | 0 < k < |list| :: list[k] == old(list)[k - 1];
    }

    method Enlist(n: Notified, waker: Waker)
      requires Valid() && n in neverRegistered
      modifies this`head, this`list, this`neverRegistered, waiters
      ensures Valid() && list == [n] + old(list) && neverRegistered == old(neverRegistered) - {n}
      ensures n.waker == Some(waker)
      ensures forall m | m in waiters && m != n :: m.waker == old(m.waker)
    {
      hide Linked;
      n.waker := Some(waker);
      n.isInList := true;
      PushFront(n);
      n.wasRegistered := true;
      neverRegistered := neverRegistered - {n};
    }

    /**
     The part of `Notified::poll` under the lock. A waker that differs from the registered one has to be cloned,
     and the clone may panic.
     */
    method Register(n: Notified, waker: Waker, clonePanics: bool) returns (outcome: PollOutcome)
      requires Valid() && n in waiters
      modifies this`head, this`list, this`neverRegistered, waiters
      ensures Valid()
      ensures outcome.Ready? <==> old(n.wasRegistered && n !in list)
      ensures outcome.ClonePanicked? <==>
                !outcome.Ready? && clonePanics && !(old(n in list) && old(n.waker) == Some(waker))
      ensures outcome.Pending? ==> n.waker == Some(waker) && neverRegistered == old(neverRegistered) - {n}
      ensures list == if outcome.Pending? && old(n !in list) then [n] + old(list) else old(list)
      ensures forall m | m in waiters && m != n :: m.waker == old(m.waker)
      ensures !outcome.Pending? ==> unchanged(this) && unchanged(waiters)
    {
      hide Linked;
      if n.isInList {
        if n.waker == Some(waker) {
          // the registered waker is kept
        } else if clonePanics {
          return ClonePanicked;
        } else {
          n.waker := Some(waker);
        }
      } else if n.wasRegistered {
        return Ready;
      } else if clonePanics {
        return ClonePanicked;
      } else {
        Enlist(n, waker);
      }
      outcome := Pending;
    }

    /**
     `Notified::poll`. Between the lock section and the second look at the counter, `racing` notifiers increment it;
     they have yet to take the lock.
     */
    method Poll(n: Notified, waker: Waker, clonePanics: bool, racing: nat) returns (outcome: PollOutcome)
      requires Valid() && n in waiters
      modifies this`head, this`list, this`neverRegistered, this`numWakeups, waiters
      ensures Valid()
      ensures old(numWakeups) != n.snapshot ==> outcome.Ready? && unchanged(this) && unchanged(waiters)
      ensures old(numWakeups) == n.snapshot && old(n.wasRegistered && n !in list) ==>
                outcome.Ready? && unchanged(this) && unchanged(waiters)
      ensures old(numWakeups) == n.snapshot && !old(n.wasRegistered && n !in list) && !outcome.ClonePanicked? ==>
                && list == (if old(n in list) then old(list) else [n] + old(list))
                && n.waker == Some(waker) && neverRegistered == old(neverRegistered) - {n}
                && numWakeups == (old(numWakeups) + racing) % modulus
                && (outcome.Ready? <==> numWakeups != n.snapshot)
      ensures forall m | m in waiters && m != n :: m.waker == old(m.waker)
      ensures outcome.ClonePanicked? <==>
                && old(numWakeups) == n.snapshot && !old(n.wasRegistered && n !in list)
                && clonePanics && !(old(n in list) && old(n.waker) == Some(waker))
      ensures outcome.ClonePanicked? ==> unchanged(this) && unchanged(waiters)
    {
      hide Linked;
      if numWakeups != n.snapshot {
        return Ready;
      }
      outcome := Register(n, waker, clonePanics);
      if outcome.Pending? {
        numWakeups := (numWakeups + racing) % modulus;
        if numWakeups != n.snapshot {
          outcome := Ready;
        }
      }
    }

    method UnlinkHead()
      requires Linked(head, list) && head != null
      modifies this`head, this`list, list`pprev
      ensures |old(list)| > 0 && old(list[0]) == old(head) && old(list[0]) !in list
      ensures Linked(head, list) && list == old(list)[1..]
    {
      var cur := head;
      var next := cur.next;
      head := next;
      if next != null {
        next.pprev := cur.pprev;
        cur.pprev := null;
      }
      list := list[1..];
      assert forall k | 0 <= k < |list| :: list[k] == old(list)[k + 1];
    }

    /** The head leaves the list, before its waker is called. */
    method PopHead() returns (waker: Option<Waker>)
      requires Valid() && head != null
      modifies this`head, this`numActiveWaiters, this`list, waiters
      ensures Valid() && |old(list)| > 0
      ensures list == old(list)[1..] && waker == old(list[0].waker) && old(list[0]).waker == None
      ensures forall m | m in waiters && m != old(list[0]) :: m.waker == old(m.waker)
      ensures old(list[0]) !in list
    {
      hide Linked;
      var cur := head;
      UnlinkHead();
      cur.isInList := false;
      numActiveWaiters := numActiveWaiters - 1;
      waker := cur.waker;
      cur.waker := None;
    }

    /** A call of a waker, which is code of the user and may panic: the list must be in order already. */
    method Wake(ghost n: Notified, waker: Waker)
      requires Valid()
      modifies this`wakeLog
      ensures wakeLog == old(wakeLog) + [(n, waker)]
    {
      wakeLog := wakeLog + [(n, waker)];
    }

    /** One iteration of the loop of `Notify::notify`. */
    method NotifyHead()
      requires Valid() && head != null
      modifies this`head, this`numActiveWaiters, this`list, this`wakeLog, waiters
      ensures Valid() && |old(list)| > 0 && list == old(list)[1..]
      ensures wakeLog + Calls(list) == old(wakeLog) + old(Calls(list))
      ensures old(list[0]) !in list && forall m | m in old(list) :: m == old(list[0]) || m in list
      ensures forall m | m in waiters :: m.waker == if m == old(list[0]) then None else old(m.waker)
    {
      HeadIsFirst(head, list);
      hide Linked, At;
      ghost var n, log := list[0], wakeLog;
      assert n in list && Calls(list) == [(n, n.waker.value)] + Calls(list[1..]);
      var waker := PopHead();
      if waker.Some? {
        Wake(n, waker.value);
      }
      assert wakeLog + Calls(list) == log + ([(n, waker.value)] + Calls(list));
    }

    /**
     `Notify::notify`. The waker called after `panicAt` others panics, if there is one, and the panic unwinds out
     of the loop.
     */
    method NotifyWaiters(panicAt: nat) returns (completed: bool)
      requires Valid()
      modifies this`numWakeups, this`head, this`numActiveWaiters, this`list, this`wakeLog, waiters
      ensures Valid()
      ensures numWakeups == if old(numActiveWaiters) == 0 then old(numWakeups) else (old(numWakeups) + 1) % modulus
      ensures completed <==> |old(list)| <= panicAt
      ensures list == if completed then [] else old(list)[panicAt + 1..]
      ensures wakeLog + Calls(list) == old(wakeLog) + old(Calls(list))
      ensures forall m | m in waiters ::
                m.waker == if m in old(list) && m !in list then None else old(m.waker)
    {
      hide Linked, At;
      if numActiveWaiters == 0 {
        return true;
      }
      numWakeups := (numWakeups + 1) % modulus;
      completed := Drain(panicAt);
    }

    /** The loop of `Notify::notify`. */
    method Drain(panicAt: nat) returns (completed: bool)
      requires Valid()
      modifies this`head, this`numActiveWaiters, this`list, this`wakeLog, waiters
      ensures Valid()
      ensures completed <==> |old(list)| <= panicAt
      ensures list == if completed then [] else old(list)[panicAt + 1..]
      ensures wakeLog + Calls(list) == old(wakeLog) + old(Calls(list))
      ensures forall m | m in waiters ::
                m.waker == if m in old(list) && m !in list then None else old(m.waker)
    {
      hide Linked, At, Calls;
      var called := 0;
      while head != null
        invariant Valid()
        invariant called <= |old(list)| && called <= panicAt && list == old(list)[called..]
        invariant wakeLog + Calls(list) == old(wakeLog) + old(Calls(list))
        invariant forall m | m in waiters :: m.waker == if m in old(list) && m !in list then None else old(m.waker)
        decreases |list|
      {
        HeadIsFirst(head, list);
        ghost var n := list[0];
        NotifyHead();
        assert n in old(list);
        called := called + 1;
        if called > panicAt {
          return false;
        }
      }
      HeadIsFirst(head, list);
      return true;
    }

    method Unlink(n: Notified)
      requires Linked(head, list) && n in list
      modifies this`head, this`list, list`next, list`pprev
      ensures Linked(head, list) && list == Without(old(list), n)
      ensures |list| == |old(list)| - 1 && forall m :: m in list <==> m in old(list) && m != n
    {
      hide Distinct, Without;
      ghost var i :| 0 <= i < |list| && list[i] == n;
      ghost var was := list;
      WithoutCutsOut(list, i);
      DistinctParts(list, i);
      UnlinkPointers(n, i);
      assert Distinct(list);
      forall k | 0 <= k < |list| ensures list[k].next == At(list, k + 1) && list[k].pprev == At(list, k - 1) {
        assert list[k] == was[if k < i then k else k + 1];
      }
    }

    /** The four writes that take the `i`-th slot out of the list. */
    method UnlinkPointers(n: Notified, ghost i: nat)
      requires Linked(head, list) && i < |list| && list[i] == n
      modifies this`head, this`list, list`next, list`pprev
      ensures list == old(list)[..i] + old(list)[i + 1..]
      ensures head == if i == 0 then At(old(list), 1) else old(head)
      ensures forall k {:trigger old(list)[k].next} | 0 <= k < |old(list)| && k != i ::
                old(list)[k].next == if k == i - 1 then At(old(list), i + 1) else At(old(list), k + 1)
      ensures forall k {:trigger old(list)[k].pprev} | 0 <= k < |old(list)| && k != i ::
                old(list)[k].pprev == if k == i + 1 then At(old(list), i - 1) else At(old(list), k - 1)
    {
      var pprev, next := n.pprev, n.next;
      n.pprev := null;
      if pprev != null {
        pprev.next := next;
      } else {
        head := next;
      }
      if next != null {
        next.pprev := pprev;
      }
      list := list[..i] + list[i + 1..];
    }

    method Delist(n: Notified)
      requires Valid() && n in list
      modifies this`head, this`numActiveWaiters, this`list, this`waiters, waiters
      ensures Valid() && waiters == old(waiters) - {n}
      ensures list == Without(old(list), n)
      ensures forall m | m in waiters :: m.waker == old(m.waker)
    {
      hide Linked;
      Unlink(n);
      numActiveWaiters := numActiveWaiters - 1;
      waiters := waiters - {n};
    }

    /** `Drop for Notified`: the three cases of a listed waiter, one already notified, and one never registered. */
    method Drop(n: Notified)
      requires Valid() && n in waiters
      modifies this`head, this`numActiveWaiters, this`list, this`waiters, this`neverRegistered, waiters
      ensures Valid() && waiters == old(waiters) - {n}
      ensures list == Without(old(list), n)
      ensures neverRegistered == old(neverRegistered) - {n}
      ensures forall m | m in waiters :: m.waker == old(m.waker)
    {
      hide Linked;
      if n.wasRegistered {
        if n.isInList {
          Delist(n);
        } else {
          waiters := waiters - {n};
          WithoutAbsent(list, n);
        }
      } else {
        numActiveWaiters := numActiveWaiters - 1;
        WithoutAbsent(list, n);
        waiters := waiters - {n};
        neverRegistered := neverRegistered - {n};
      }
    }
  }
}
