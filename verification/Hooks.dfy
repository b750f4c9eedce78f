/**
 The thread hooks and the scan of `src/rcu_core/mod.rs` as code over encoded slot words. The hooks work on the
 slot and the store buffer of one thread; every access they make has to be the access that the protocol has next,
 so the protocol's order of accesses is the order of the code. The global epoch id that a hook loads is a parameter.
 */
module Hooks {
  import opened Common
  import opened ThreadStates
  import opened Protocol

  class ThreadSlot {
    var word: nat
    var buffer: seq<nat>
    ghost var th: Thread

    /** `th` is the protocol's view of this thread: the same stores in the buffer, decoded. */
    ghost predicate Valid()
      reads this
    {
      && HasSlot(th.pc) && Decode(word).Some? && |buffer| == |th.buf|
      && forall i | 0 <= i < |buffer| :: Decode(buffer[i]) == Some(th.buf[i])
    }

    ghost function Mem(): ThreadState
      requires Decode(word).Some?
      reads this
    {
      Decode(word).value
    }

    /** The protocol makes the access `h`, and the thread moves on to `pc`. */
    ghost predicate Allows(h: Hook, epoch: nat, buf: seq<ThreadState>, mem: ThreadState, pc: HookPc,
        buf': seq<ThreadState>, mem': ThreadState)
      reads this
    {
      HookStep(h, epoch, th.(buf := buf), mem, th.(pc := pc, buf := buf'), mem')
    }

    // ----- accesses -----

    /** A plain store goes into the buffer. */
    method Store(state: ThreadState, ghost h: Hook, ghost epoch: nat, ghost pc: HookPc)
      requires Valid() && Encodable(state) && HasSlot(pc)
      requires Allows(h, epoch, th.buf, Mem(), pc, th.buf + [state], Mem())
      modifies this
      ensures Valid() && Mem() == old(Mem()) && th == old(th.(pc := pc, buf := th.buf + [state]))
    {
      DecodeInvertsEncode(state);
      buffer := buffer + [Encode(state)];
      th := th.(pc := pc, buf := th.buf + [state]);
    }

    /** The stores that wait in the buffer reach memory in order; each is a step of the protocol. */
    method Drain(ghost epoch: nat)
      requires Valid()
      modifies this
      ensures Valid() && buffer == [] && th == old(th.(buf := [])) && Mem() == old(Latest(th, Mem()))
    {
      while buffer != []
        invariant Valid() && th == old(th).(buf := th.buf) && Latest(th, Mem()) == old(Latest(th, Mem()))
        decreases |buffer|
      {
        assert HookStep(DrainStore, epoch, th, Mem(), th.(buf := th.buf[1..]), th.buf[0]);
        word, buffer := buffer[0], buffer[1..];
        th := th.(buf := th.buf[1..]);
      }
    }

    /** A sequentially consistent fence drains the buffer. */
    method Fence(ghost h: Hook, ghost epoch: nat, ghost pc: HookPc)
      requires Valid() && HasSlot(pc)
      requires Allows(h, epoch, [], Latest(th, Mem()), pc, [], Latest(th, Mem()))
      modifies this
      ensures Valid() && buffer == [] && th == old(th.(pc := pc, buf := [])) && Mem() == old(Latest(th, Mem()))
    {
      Drain(epoch);
      th := th.(pc := pc);
    }

    /** The atomic `&= !1` of parking; a read-modify-write drains the buffer as well. */
    method ClearBusy(ghost h: Hook, ghost epoch: nat, ghost pc: HookPc)
      requires Valid() && HasSlot(pc) && Latest(th, Mem()).epoch != 0
      requires Allows(h, epoch, [], Latest(th, Mem()), pc, [], Latest(th, Mem()).(busy := false))
      modifies this
      ensures Valid() && buffer == [] && th == old(th.(pc := pc, buf := []))
      ensures Mem() == old(Latest(th, Mem())).(busy := false)
    {
      Drain(epoch);
      EncodeInvertsDecode(word);
      MaskParksExactlyPublishedStates(Mem());
      word := ClearBusyBit(word);
      th := th.(pc := pc);
    }

    /** A thread reads its own latest store. */
    method Load() returns (state: Option<ThreadState>)
      requires Valid()
      ensures state == Some(Latest(th, Mem()))
    {
      state := Decode(if buffer == [] then word else buffer[|buffer| - 1]);
    }

    method SeeEpoch(epoch: nat, ghost h: Hook, ghost pc: HookPc) returns (seen: nat)
      requires Valid() && HasSlot(pc) && Allows(h, epoch, th.buf, Mem(), pc, th.buf, Mem())
      modifies this`th
      ensures Valid() && seen == epoch && th == old(th).(pc := pc)
    {
      seen := epoch;
      th := th.(pc := pc);
    }

    // ----- hooks, up to their notification -----

    method OnThreadUnpark(epoch: nat)
      requires Valid() && th.pc.Parked? && epoch % 2 == 0 && epoch != 0
      modifies this
      ensures Valid() && th == old(th).(pc := Notifying(LoadFlag, false, ToReady), buf := [])
      ensures Mem() == ThreadState(epoch, true)
    {
      Store(ThreadState(0, true), MarkWaking, epoch, Enter);
      Fence(FenceAfterBusy, epoch, EnterLoad);
      var seen := SeeEpoch(epoch, LoadAfterFence, EnterStore(epoch));
      Store(ThreadState(seen, true), StoreSeen, epoch, EnterFence);
      Fence(FenceBeforeNotify, epoch, Notifying(LoadFlag, false, ToReady));
    }

    method OnThreadPark(ghost epoch: nat)
      requires Valid() && th.pc.Ready? && Latest(th, Mem()).epoch != 0
      modifies this
      ensures Valid() && th == old(th).(pc := Notifying(LoadFlag, true, ToParked), buf := [])
      ensures Mem() == old(Latest(th, Mem())).(busy := false)
    {
      ClearBusy(MarkParked, epoch, ParkFence);
      Fence(FenceAfterPark, epoch, Notifying(LoadFlag, true, ToParked));
    }

    /** The waiters are notified only if the thread published a new epoch id. */
    method OnAfterTaskPoll(epoch: nat) returns (notify: bool)
      requires Valid() && th.pc.LeaveLoad? && epoch % 2 == 0 && epoch != 0
      modifies this
      ensures Valid() && Latest(th, Mem()) == ThreadState(epoch, true)
      ensures notify <==> old(Latest(th, Mem())).epoch != epoch
      ensures th.pc == if notify then Notifying(LoadFlag, false, ToReady) else Ready
      ensures notify ==> buffer == []
    {
      var seen := SeeEpoch(epoch, LoadAfterPoll, LeaveStore(epoch));
      var previous := Load();
      notify := previous.Some? && previous.value.epoch != seen;
      Store(ThreadState(seen, true), StoreAfterPoll, epoch, if notify then LeaveFence else Ready);
      if notify {
        Fence(FenceAfterPoll, epoch, Notifying(LoadFlag, false, ToReady));
      }
    }
  }

  // ----- the scan -----

  /**
   One pass of `wait_for_running_threads_to_see_epoch_id` over the slots, undisturbed: it succeeds exactly if every
   slot but the skipped one is vacant, not busy, or has published an epoch id that passes the test.
   */
  method ScanSlots(words: array<nat>, phase: Phase, skip: Option<nat>) returns (all: bool)
    ensures all <==> forall i | 0 <= i < words.Length :: SlotPasses(Decode(words[i]), phase, skip == Some(i))
  {
    all := true;
    var i := 0;
    while i < words.Length && all
      invariant 0 <= i <= words.Length
      invariant all <==> forall j | 0 <= j < i :: SlotPasses(Decode(words[j]), phase, skip == Some(j))
    {
      if skip != Some(i) {
        var state := Decode(words[i]);
        all := state.None? || !state.value.busy || Seen(phase, state.value.epoch);
      }
      i := i + 1;
    }
  }
}
