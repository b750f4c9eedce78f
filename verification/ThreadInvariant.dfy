/**
 What every thread keeps about its own slot, step by step: the shape of its slot and store buffer, and
 which epoch ids it may still publish. All of it is stated for one thread and one memory word; the
 lemmas at the end lift it to all threads.
 */
module ThreadInvariant {
  import opened Common
  import opened ThreadStates
  import opened Protocol

  predicate BusySince(cfg: Config, state: ThreadState) {
    state.busy && ValidEpoch(cfg, state.epoch)
  }

  /** Every buffered store repeats the value in memory. */
  predicate Repeats(buf: seq<ThreadState>, mem: ThreadState) {
    forall i | 0 <= i < |buf| :: buf[i] == mem
  }

  /** The slot and the store buffer of a thread that owns a slot, by its position in the hooks. */
  predicate LocalOk(cfg: Config, th: Thread, mem: ThreadState) {
    match th.pc
    case Enter =>
      || (th.buf == [] && mem == ThreadState(0, true))
      || (th.buf == [ThreadState(0, true)] && !mem.busy && ValidEpoch(cfg, mem.epoch))
    case EnterLoad =>
      th.buf == [] && mem == ThreadState(0, true)
    case EnterStore(seen) =>
      th.buf == [] && mem == ThreadState(0, true) && ValidEpoch(cfg, seen)
    case EnterFence =>
      || (th.buf == [] && BusySince(cfg, mem))
      || (|th.buf| == 1 && mem == ThreadState(0, true) && BusySince(cfg, th.buf[0]))
    case Ready => BusySince(cfg, mem) && Repeats(th.buf, mem)
    case InPoll => BusySince(cfg, mem) && Repeats(th.buf, mem)
    case LeaveLoad => BusySince(cfg, mem) && Repeats(th.buf, mem)
    case LeaveStore(seen) => BusySince(cfg, mem) && Repeats(th.buf, mem) && ValidEpoch(cfg, seen)
    case LeaveFence =>
      && BusySince(cfg, mem) && BusySince(cfg, Latest(th, mem))
      && (th.buf != [] ==> Repeats(th.buf[..|th.buf| - 1], mem))
    case Notifying(_, _, next) =>
      && th.buf == [] && !next.ToUntracked?
      && if next.ToReady? then BusySince(cfg, mem) else !mem.busy && ValidEpoch(cfg, mem.epoch)
    case ParkFence => th.buf == [] && !mem.busy && ValidEpoch(cfg, mem.epoch)
    case Parked => th.buf == [] && !mem.busy && ValidEpoch(cfg, mem.epoch)
    case _ => false
  }

  lemma DrainKeepsLocalOk(cfg: Config, th: Thread, mem: ThreadState)
    requires LocalOk(cfg, th, mem) && th.buf != []
    ensures LocalOk(cfg, th.(buf := th.buf[1..]), th.buf[0])
  {
    var buf := th.buf[1..];
    assert forall i | 0 <= i < |buf| :: buf[i] == th.buf[i + 1];
    if th.pc.LeaveFence? {
      if buf != [] {
        var early := th.buf[..|th.buf| - 1];
        assert early[0] == mem;
        assert buf[..|buf| - 1] == early[1..];
      }
    }
  }

  lemma HookKeepsLocalOk(cfg: Config, h: Hook, epoch: nat, th: Thread, mem: ThreadState, th': Thread, mem': ThreadState)
    requires LocalOk(cfg, th, mem) && ValidEpoch(cfg, epoch)
    requires HookStep(h, epoch, th, mem, th', mem')
    ensures LocalOk(cfg, th', mem')
  {
    match h {
      case DrainStore => DrainKeepsLocalOk(cfg, th, mem);
      case StoreAfterPoll => assert th'.buf[..|th'.buf| - 1] == th.buf;
      case _ =>
    }
  }

  lemma HookKeepsSlot(cfg: Config, h: Hook, epoch: nat, th: Thread, mem: ThreadState, th': Thread, mem': ThreadState)
    requires LocalOk(cfg, th, mem) && HasSlot(th.pc)
    requires HookStep(h, epoch, th, mem, th', mem')
    ensures HasSlot(th'.pc) && th'.slot == th.slot
  {
  }

  // ----- which epoch ids a thread may still publish -----

  /** The thread is past the fence of its wake-up and has not parked: it may hold RCU-protected pointers. */
  predicate Active(pc: HookPc) {
    || pc.EnterLoad? || pc.EnterStore? || pc.EnterFence? || pc.Ready? || pc.InPoll?
    || pc.LeaveLoad? || pc.LeaveStore? || pc.LeaveFence? || (pc.Notifying? && pc.next.ToReady?)
  }

  predicate HasSeen(pc: HookPc) { pc.EnterStore? || pc.LeaveStore? }

  predicate Admits(epoch: nat, stale: set<nat>, e: nat) {
    e == 0 || e == epoch || e in stale
  }

  /**
   Memory, the last buffered store and the loaded epoch id, in this order, hold admissible epoch ids,
   and once one of them is the current epoch id, the later ones are too.
   */
  predicate FreshLocal(epoch: nat, stale: set<nat>, th: Thread, mem: ThreadState) {
    Active(th.pc) ==>
      && Admits(epoch, stale, mem.epoch) && Admits(epoch, stale, Latest(th, mem).epoch)
      && (HasSeen(th.pc) ==> Admits(epoch, stale, th.pc.seen))
      && (mem.epoch == epoch ==> Latest(th, mem).epoch == epoch)
      && (HasSeen(th.pc) && Latest(th, mem).epoch == epoch ==> th.pc.seen == epoch)
  }

  /** Nothing that the thread published or is about to publish predates the current epoch id. */
  predicate Clean(epoch: nat, th: Thread, mem: ThreadState) {
    FreshLocal(epoch, {}, th, mem)
  }

  lemma HookKeepsFreshLocal(cfg: Config, h: Hook, epoch: nat, stale: set<nat>, th: Thread, mem: ThreadState,
      th': Thread, mem': ThreadState)
    requires LocalOk(cfg, th, mem) && ValidEpoch(cfg, epoch)
    requires HookStep(h, epoch, th, mem, th', mem')
    requires FreshLocal(epoch, stale, th, mem)
    ensures FreshLocal(epoch, stale, th', mem')
  {
    if h.DrainStore? {
      assert th.buf == [th.buf[0]] + th'.buf;
      if th.pc.LeaveFence? && th'.buf != [] {
        assert th.buf[..|th.buf| - 1][0] == mem;
      }
    }
  }

  /** A new epoch id that nobody may publish yet keeps every thread fresh, the old one becoming stale. */
  lemma NewEpochKeepsFreshLocal(epoch: nat, stale: set<nat>, th: Thread, mem: ThreadState, epoch': nat)
    requires FreshLocal(epoch, stale, th, mem)
    requires epoch' != 0 && epoch' != epoch && epoch' !in stale
    ensures FreshLocal(epoch', stale + {epoch}, th, mem)
  {
  }

  // ----- all threads -----

  predicate OwnsSlot(threads: seq<Thread>, slots: seq<Slot>, t: ThreadId) {
    && t < |threads| && HasSlot(threads[t].pc)
    && threads[t].slot < |slots| && slots[threads[t].slot].value.Some? && slots[threads[t].slot].owner == t
  }

  predicate ThreadOk(cfg: Config, threads: seq<Thread>, slots: seq<Slot>, t: ThreadId)
    requires t < |threads|
  {
    if HasSlot(threads[t].pc)
    then OwnsSlot(threads, slots, t) && LocalOk(cfg, threads[t], slots[threads[t].slot].value.value)
    else threads[t].buf == []
  }

  /** Slots and the threads that own them correspond one to one, and every thread is well formed. */
  predicate SlotsOk(cfg: Config, threads: seq<Thread>, slots: seq<Slot>) {
    && (forall t | 0 <= t < |threads| :: ThreadOk(cfg, threads, slots, t))
    && (forall i | 0 <= i < |slots| && slots[i].value.Some? ::
          OwnsSlot(threads, slots, slots[i].owner) && threads[slots[i].owner].slot == i)
  }

  predicate FreshOk(threads: seq<Thread>, slots: seq<Slot>, epoch: nat, stale: set<nat>) {
    forall t | 0 <= t < |threads| && OwnsSlot(threads, slots, t) ::
      FreshLocal(epoch, stale, threads[t], slots[threads[t].slot].value.value)
  }

  predicate ThreadsOk(s: State) {
    && ValidConfig(s.cfg) && ValidEpoch(s.cfg, s.epoch)
    && SlotsOk(s.cfg, s.threads, s.slots) && FreshOk(s.threads, s.slots, s.epoch, s.stale)
  }

  lemma HookKeepsThreadsOk(s: State, s': State, t: ThreadId, h: Hook, th': Thread, mem': ThreadState)
    requires ThreadsOk(s) && DoHook(s, s', t, h, th', mem')
    ensures ThreadsOk(s')
  {
    assert ThreadOk(s.cfg, s.threads, s.slots, t);
    HookKeepsLocalOk(s.cfg, h, s.epoch, s.threads[t], Mem(s, t), th', mem');
    HookKeepsFreshLocal(s.cfg, h, s.epoch, s.stale, s.threads[t], Mem(s, t), th', mem');
    HookKeepsSlot(s.cfg, h, s.epoch, s.threads[t], Mem(s, t), th', mem');
    hide HookStep, LocalOk, FreshLocal, HasSlot;
    forall u | 0 <= u < |s.threads| && u != t
      ensures ThreadOk(s.cfg, s'.threads, s'.slots, u)
      ensures OwnsSlot(s'.threads, s'.slots, u) ==> s'.slots[s'.threads[u].slot] == s.slots[s.threads[u].slot]
    {
      assert ThreadOk(s.cfg, s.threads, s.slots, u);
    }
  }

  lemma AllocateKeepsThreadsOk(s: State, s': State, t: ThreadId, i: nat)
    requires ThreadsOk(s) && DoAllocate(s, s', t, i)
    ensures ThreadsOk(s')
  {
    forall u | 0 <= u < |s.threads| && u != t
      ensures ThreadOk(s.cfg, s'.threads, s'.slots, u)
      ensures OwnsSlot(s'.threads, s'.slots, u) ==> s'.slots[s'.threads[u].slot] == s.slots[s.threads[u].slot]
    {
      assert ThreadOk(s.cfg, s.threads, s.slots, u);
    }
  }

  lemma ReleaseKeepsThreadsOk(s: State, s': State, t: ThreadId)
    requires ThreadsOk(s) && DoRelease(s, s', t)
    ensures ThreadsOk(s')
  {
    forall u | 0 <= u < |s.threads| && u != t
      ensures ThreadOk(s.cfg, s'.threads, s'.slots, u)
      ensures OwnsSlot(s'.threads, s'.slots, u) ==> s'.slots[s'.threads[u].slot] == s.slots[s.threads[u].slot]
    {
      assert ThreadOk(s.cfg, s.threads, s.slots, u);
    }
    assert ThreadOk(s.cfg, s.threads, s.slots, t);
  }

  /** Steps that only move a thread inside its notification, or out of it, change nothing about its slot. */
  lemma MoveKeepsThreadsOk(s: State, s': State, t: ThreadId, pc: HookPc)
    requires ThreadsOk(s) && IsThread(s, t)
    requires s'.cfg == s.cfg && s'.epoch == s.epoch && s'.stale == s.stale && s'.slots == s.slots
    requires s'.threads == MoveTo(s, t, pc)
    requires || (s.threads[t].pc.StopFence? && pc.Notifying? && pc.next.ToUntracked?)
             || (s.threads[t].pc.Notifying? && pc == Resume(s.threads[t].pc.next))
             || (s.threads[t].pc.Notifying? && pc.Notifying? && pc.next == s.threads[t].pc.next)
    ensures ThreadsOk(s')
  {
    forall u | 0 <= u < |s.threads|
      ensures ThreadOk(s.cfg, s'.threads, s'.slots, u)
    {
      assert ThreadOk(s.cfg, s.threads, s.slots, u);
    }
  }
}
