/**
 The slot allocator of `src/rcu_core/per_thread_storage/thread_storage_slots.rs`: a growable buffer of state words
 with a stack of free slot ids, and the per-thread owners of slots of `src/rcu_core/per_thread_storage/mod.rs`.
 */
module StorageSlots {
  import opened Common
  import opened ThreadStates
  import opened Protocol

  type SlotId = nat

  datatype AllocError = TooManyConcurrentThreads

  /** The value of an allocator: the words of its slots, and the stack of free slot ids with its top at the end. */
  datatype Slots = Slots(words: seq<nat>, free: seq<SlotId>)

  const NO_SLOTS := Slots([], [])

  ghost predicate WellFormed(v: Slots) {
    && (forall i, j | 0 <= i < j < |v.free| :: v.free[i] != v.free[j])
    && (forall i | 0 <= i < |v.free| :: v.free[i] < |v.words|)
    && (forall id | 0 <= id < |v.words| :: v.words[id] == VACANT_WORD <==> id in v.free)
  }

  predicate IsLive(v: Slots, id: SlotId) {
    id < |v.words| && v.words[id] != VACANT_WORD
  }

  /** The slot that an allocation takes: the top of the free stack, or a new one behind the last. */
  function NextSlot(v: Slots): SlotId {
    if v.free != [] then v.free[|v.free| - 1] else |v.words|
  }

  function Allocated(v: Slots, word: nat): Slots
    requires v.free != [] ==> NextSlot(v) < |v.words|
  {
    if v.free == [] then v.(words := v.words + [word])
    else Slots(v.words[NextSlot(v) := word], v.free[..|v.free| - 1])
  }

  function Deallocated(v: Slots, id: SlotId): Slots
    requires id < |v.words|
  {
    Slots(v.words[id := VACANT_WORD], v.free + [id])
  }

  /** An allocation turns a vacant or a new slot live, appends only if no slot is vacant, and changes no other slot. */
  lemma AllocatedIsWellFormed(v: Slots, word: nat)
    requires WellFormed(v) && word != VACANT_WORD
    ensures WellFormed(Allocated(v, word))
    ensures !IsLive(v, NextSlot(v)) && IsLive(Allocated(v, word), NextSlot(v))
    ensures Allocated(v, word).words[NextSlot(v)] == word
    ensures |Allocated(v, word).words| == |v.words| || forall id | 0 <= id < |v.words| :: IsLive(v, id)
    ensures forall id | 0 <= id < |v.words| && id != NextSlot(v) :: Allocated(v, word).words[id] == v.words[id]
  {
    if v.free == [] {
      assert forall id | 0 <= id < |v.words| :: id !in v.free;
    } else {
      var top := v.free[|v.free| - 1];
      assert top in v.free;
      var after := Allocated(v, word);
      assert after == Slots(v.words[top := word], v.free[..|v.free| - 1]);
      assert forall id: SlotId :: id in v.free <==> id in after.free || id == top;
    }
  }

  /** Freeing a live slot makes exactly that slot vacant. */
  lemma DeallocatedIsWellFormed(v: Slots, id: SlotId)
    requires WellFormed(v) && IsLive(v, id)
    ensures WellFormed(Deallocated(v, id)) && !IsLive(Deallocated(v, id), id)
    ensures forall other | 0 <= other < |v.words| && other != id :: Deallocated(v, id).words[other] == v.words[other]
  {
    assert id !in v.free;
    assert forall other | other in v.free + [id] :: other in v.free || other == id;
  }

  /** Freeing a slot and allocating again takes the same slot. */
  lemma FreedSlotIsReused(v: Slots, id: SlotId, word: nat)
    requires WellFormed(v) && IsLive(v, id)
    ensures NextSlot(Deallocated(v, id)) == id
    ensures Allocated(Deallocated(v, id), word) == v.(words := v.words[id := word])
  {
    assert (v.free + [id])[..|v.free|] == v.free;
  }

  // ----- the length of the array -----

  ghost function LiveIds(v: Slots): set<SlotId> {
    set id | 0 <= id < |v.words| && IsLive(v, id)
  }

  ghost function Ids(n: nat): (ids: set<SlotId>)
    ensures |ids| == n && forall id: SlotId :: id in ids <==> id < n
  {
    if n == 0 then {} else Ids(n - 1) + {n - 1}
  }

  ghost function Members(ids: seq<SlotId>): set<SlotId> {
    set id | id in ids
  }

  lemma {:induction false} DistinctMembersCount(ids: seq<SlotId>)
    requires forall i, j | 0 <= i < j < |ids| :: ids[i] != ids[j]
    ensures |Members(ids)| == |ids|
  {
    if ids == [] {
      assert Members(ids) == {};
    } else {
      var shorter, last := ids[..|ids| - 1], ids[|ids| - 1];
      DistinctMembersCount(shorter);
      assert last !in shorter;
      assert Members(ids) == Members(shorter) + {last} by {
        assert forall id :: id in ids <==> id in shorter || id == last;
      }
    }
  }

  /** Every slot is either live or on the free stack, and never both. */
  lemma LiveSlotsAreCounted(v: Slots)
    requires WellFormed(v)
    ensures |LiveIds(v)| == |v.words| - |v.free|
  {
    DistinctMembersCount(v.free);
    assert LiveIds(v) == Ids(|v.words|) - Members(v.free);
    assert Members(v.free) <= Ids(|v.words|);
  }

  /** One operation: an allocation, the release of a live slot, or a store to one. */
  ghost predicate IsStep(v: Slots, v': Slots) {
    || (exists word: nat ::
          word != VACANT_WORD && (v.free != [] ==> NextSlot(v) < |v.words|) && v' == Allocated(v, word))
    || (exists id: SlotId :: IsLive(v, id) && v' == Deallocated(v, id))
    || (exists id: SlotId, word: nat :: IsStore(v, v', id, word))
  }

  predicate IsStore(v: Slots, v': Slots, id: SlotId, word: nat) {
    IsLive(v, id) && word != VACANT_WORD && v' == v.(words := v.words[id := word])
  }

  ghost predicate IsHistory(h: seq<Slots>) {
    && |h| > 0 && h[0] == NO_SLOTS
    && forall i :: 0 <= i < |h| - 1 ==> IsStep(h[i], h[i + 1])
  }

  /** Only an allocation with nothing on the free stack makes the array longer, by one. */
  lemma StepGrows(v: Slots, v': Slots)
    requires WellFormed(v) && IsStep(v, v')
    ensures WellFormed(v')
    ensures |v'.words| == |v.words| || (|v'.words| == |v.words| + 1 && v'.free == [])
  {
    if word: nat :| word != VACANT_WORD && v' == Allocated(v, word) {
      AllocatedIsWellFormed(v, word);
    } else if id: SlotId :| IsLive(v, id) && v' == Deallocated(v, id) {
      DeallocatedIsWellFormed(v, id);
    }
  }

  /** After every history the array has as many slots as were ever live at once. */
  lemma {:induction false} LengthIsPeakOfLiveSlots(h: seq<Slots>)
    requires IsHistory(h)
    ensures WellFormed(h[|h| - 1])
    ensures forall i | 0 <= i < |h| :: |LiveIds(h[i])| <= |h[|h| - 1].words|
    ensures exists i :: 0 <= i < |h| && |LiveIds(h[i])| == |h[|h| - 1].words|
  {
    var last := h[|h| - 1];
    if |h| == 1 {
      LiveSlotsAreCounted(last);
    } else {
      var shorter := h[..|h| - 1];
      LengthIsPeakOfLiveSlots(shorter);
      assert IsStep(h[|h| - 2], h[|h| - 1]);
      StepGrows(h[|h| - 2], last);
      LiveSlotsAreCounted(last);
      hide LiveIds, WellFormed, IsStep;
      if |last.words| == |h[|h| - 2].words| {
        var i :| 0 <= i < |shorter| && |LiveIds(shorter[i])| == |shorter[|shorter| - 1].words|;
        assert |LiveIds(h[i])| == |last.words|;
      }
      forall i | 0 <= i < |h| ensures |LiveIds(h[i])| <= |last.words| {
        assert i < |h| - 1 ==> h[i] == shorter[i];
      }
    }
  }

  // ----- the data structure -----

  class ThreadStorageSlots {
    const numCpus: nat
    const maxSlots: nat
    var buffer: array<nat>
    var len: nat
    var capacity: nat
    var freeSlots: seq<SlotId>

    ghost predicate Valid()
      reads this, buffer
    {
      && buffer.Length == capacity && len <= capacity && len <= maxSlots && maxSlots > 0
      && (len == 0 <==> capacity == 0)
      && WellFormed(View())
    }

    ghost function View(): Slots
      requires len <= buffer.Length
      reads this, buffer
    {
      Slots(buffer[..len], freeSlots)
    }

    constructor (numCpus: nat, maxSlots: nat)
      requires maxSlots > 0
      ensures Valid() && View() == NO_SLOTS && fresh(buffer)
      ensures this.numCpus == numCpus && this.maxSlots == maxSlots
    {
      this.numCpus, this.maxSlots := numCpus, maxSlots;
      buffer := new nat[0];
      len, capacity, freeSlots := 0, 0, [];
    }

    /**
     Allocates a slot that holds `state` from its first moment on. `slack` is the spare room that a growing vector
     asks for.
     */
    method Alloc(state: ThreadState, slack: nat) returns (r: Result<SlotId, AllocError>)
      requires Valid() && Encodable(state)
      modifies this`buffer, this`len, this`capacity, this`freeSlots, buffer
      ensures Valid() && (buffer == old(buffer) || fresh(buffer))
      ensures r.Failure? <==> old(freeSlots == [] && len == maxSlots)
      ensures r.Failure? ==> View() == old(View())
      ensures r.Success? ==> r.value == NextSlot(old(View())) && View() == Allocated(old(View()), Encode(state))
      ensures old(freeSlots != [] || len < capacity) ==> buffer == old(buffer)
      ensures old(capacity == 0) && r.Success? ==> capacity == numCpus + 1
    {
      DecodeInvertsEncode(state);
      var word := Encode(state);
      AllocatedIsWellFormed(View(), word);
      if |freeSlots| > 0 {
        var id := freeSlots[|freeSlots| - 1];
        assert id in freeSlots;
        freeSlots := freeSlots[..|freeSlots| - 1];
        AllocFromFreeSlot(word, id);
        r := Success(id);
      } else {
        r := AllocNoFreeSlots(word, slack);
      }
    }

    method AllocFromFreeSlot(word: nat, id: SlotId)
      requires id < len <= buffer.Length
      modifies buffer
      ensures buffer[..len] == old(buffer[..len])[id := word]
    {
      buffer[id] := word;
    }

    method AllocNoFreeSlots(word: nat, slack: nat) returns (r: Result<SlotId, AllocError>)
      requires Valid() && freeSlots == [] && word != VACANT_WORD
      modifies this`buffer, this`len, this`capacity, buffer
      ensures Valid() && (buffer == old(buffer) || fresh(buffer))
      ensures r == if old(len) == maxSlots then Failure(TooManyConcurrentThreads) else Success(old(len))
      ensures View() == if r.Success? then Allocated(old(View()), word) else old(View())
      ensures old(len < capacity) ==> buffer == old(buffer)
      ensures old(capacity == 0) && r.Success? ==> capacity == numCpus + 1
    {
      if capacity == 0 {
        r := AllocNoCurData(word);
      } else {
        r := GrowCurData(word, slack);
      }
    }

    /** The first allocation makes room for one slot for each processor and one for the main thread. */
    method AllocNoCurData(word: nat) returns (r: Result<SlotId, AllocError>)
      requires Valid() && capacity == 0 && freeSlots == [] && word != VACANT_WORD
      modifies this`buffer, this`len, this`capacity
      ensures Valid() && fresh(buffer) && capacity == numCpus + 1
      ensures r == Success(0) && View() == Slots([word], [])
    {
      buffer := new nat[numCpus + 1];
      buffer[0] := word;
      len, capacity := 1, numCpus + 1;
      r := Success(0);
    }

    method GrowCurData(word: nat, slack: nat) returns (r: Result<SlotId, AllocError>)
      requires Valid() && capacity != 0 && freeSlots == [] && word != VACANT_WORD
      modifies this`buffer, this`len, this`capacity, buffer
      ensures Valid() && (buffer == old(buffer) || fresh(buffer))
      ensures r == if old(len) == maxSlots then Failure(TooManyConcurrentThreads) else Success(old(len))
      ensures View() == if r.Success? then Allocated(old(View()), word) else old(View())
      ensures old(len < capacity) ==> buffer == old(buffer)
    {
      if len == maxSlots {
        return Failure(TooManyConcurrentThreads);
      }
      r := Success(len);
      if len == capacity {
        var grown := new nat[len + 1 + slack];
        forall i | 0 <= i < len {
          grown[i] := buffer[i];
        }
        assert grown[..len] == buffer[..len];
        buffer, capacity := grown, len + 1 + slack;
      }
      buffer[len] := word;
      assert buffer[..len + 1] == old(buffer[..len]) + [word];
      len := len + 1;
    }

    /** Frees a live slot. */
    method Dealloc(id: SlotId)
      requires Valid() && IsLive(View(), id)
      modifies this`freeSlots, buffer
      ensures Valid() && View() == Deallocated(old(View()), id)
    {
      buffer[id] := VACANT_WORD;
      freeSlots := freeSlots + [id];
      assert buffer[..len] == old(buffer[..len])[id := VACANT_WORD];
      DeallocatedIsWellFormed(old(View()), id);
    }

    /** The word of a slot, as the scan reads it. */
    method Read(id: SlotId) returns (word: nat)
      requires Valid() && id < len
      ensures word == View().words[id]
    {
      word := buffer[id];
    }

    /** The owner of a slot stores a state. */
    method Store(id: SlotId, state: ThreadState)
      requires Valid() && IsLive(View(), id) && Encodable(state)
      modifies buffer
      ensures Valid() && View() == old(View()).(words := old(View()).words[id := Encode(state)])
    {
      DecodeInvertsEncode(state);
      hide Encode;
      buffer[id] := Encode(state);
      assert buffer[..len] == old(buffer[..len])[id := Encode(state)];
    }
  }

  // ----- the owners of slots -----

  /** The live slots are owned, each by one owner, and an owner owns nothing else. */
  ghost predicate Owned(v: Slots, owners: set<OwnedThreadStorageSlot>)
    reads owners`id
  {
    && (forall o | o in owners && o.id.Some? :: IsLive(v, o.id.value))
    && (forall o, p | o in owners && p in owners && o != p && o.id.Some? :: o.id != p.id)
    && (forall id | 0 <= id < |v.words| && IsLive(v, id) :: exists o :: o in owners && o.id == Some(id))
  }

  /** The slot of one thread, if it has one. */
  class OwnedThreadStorageSlot {
    var id: Option<SlotId>

    constructor ()
      ensures id == None
    {
      id := None;
    }

    /** Allocates a slot unless there is one already. */
    method Alloc(slots: ThreadStorageSlots, state: ThreadState, slack: nat, ghost owners: set<OwnedThreadStorageSlot>)
      returns (r: Result<SlotId, AllocError>)
      requires slots.Valid() && Encodable(state) && this in owners && Owned(slots.View(), owners)
      modifies this`id, slots`buffer, slots`len, slots`capacity, slots`freeSlots, slots.buffer
      ensures slots.Valid() && Owned(slots.View(), owners)
      ensures r.Failure? <==> old(id.None? && slots.freeSlots == [] && slots.len == slots.maxSlots)
      ensures r.Success? ==> id == Some(r.value)
      ensures old(id.Some?) ==> r.Success? && id == old(id) && slots.View() == old(slots.View())
      ensures r.Failure? ==> id == None && slots.View() == old(slots.View())
      ensures old(id.None?) && r.Success? ==>
                && r.value == NextSlot(old(slots.View())) && !IsLive(old(slots.View()), r.value)
                && slots.View() == Allocated(old(slots.View()), Encode(state))
    {
      if id.Some? {
        return Success(id.value);
      }
      r := slots.Alloc(state, slack);
      if r.Success? {
        DecodeInvertsEncode(state);
        AllocatedIsWellFormed(old(slots.View()), Encode(state));
        id := Some(r.value);
        hide Allocated, NextSlot, Encode;
        assert forall o | o in owners && o != this :: o.id == old(o.id);
      }
    }

    /** Frees the slot if there is one, and reports whether there was. */
    method Dealloc(slots: ThreadStorageSlots, ghost owners: set<OwnedThreadStorageSlot>) returns (freed: bool)
      requires slots.Valid() && this in owners && Owned(slots.View(), owners)
      modifies this`id, slots`freeSlots, slots.buffer
      ensures slots.Valid() && Owned(slots.View(), owners)
      ensures freed == old(id.Some?) && id == None
      ensures slots.View() == if freed then Deallocated(old(slots.View()), old(id.value)) else old(slots.View())
    {
      if id.None? {
        return false;
      }
      slots.Dealloc(id.value);
      DeallocatedIsWellFormed(old(slots.View()), id.value);
      id := None;
      freed := true;
      assert forall o | o in owners && o != this :: o.id == old(o.id);
    }
  }

  // ----- the allocator below the protocol -----

  /** The words of the allocator are the slots of the protocol, encoded. */
  ghost predicate Represents(v: Slots, slots: seq<Slot>) {
    |v.words| == |slots| && forall i | 0 <= i < |slots| :: Decode(v.words[i]) == slots[i].value
  }

  const STARTING := ThreadState(0, true)

  /** Whatever slot the allocator picks for a thread that starts, taking it is a step of the protocol. */
  lemma AllocationIsProtocolStep(v: Slots, s: State, t: ThreadId) returns (s': State)
    requires WellFormed(v) && Represents(v, s.slots)
    requires IsThread(s, t) && s.threads[t].pc.Untracked? && s.threads[t].buf == []
    ensures DoAllocate(s, s', t, NextSlot(v)) && Represents(Allocated(v, Encode(STARTING)), s'.slots)
  {
    var i, taken := NextSlot(v), Slot(Some(STARTING), t);
    DecodeInvertsEncode(STARTING);
    AllocatedIsWellFormed(v, Encode(STARTING));
    s' := s.(threads := s.threads[t := s.threads[t].(pc := Enter, slot := i)],
             slots := if i == |s.slots| then s.slots + [taken] else s.slots[i := taken]);
  }

  /** Freeing the slot of a thread that stops is the release step of the protocol. */
  lemma DeallocationIsProtocolStep(v: Slots, s: State, t: ThreadId) returns (s': State)
    requires WellFormed(v) && Represents(v, s.slots)
    requires Tracked(s, t) && s.threads[t].pc.Ready? && s.threads[t].buf == []
    ensures IsLive(v, s.threads[t].slot)
    ensures DoRelease(s, s', t) && Represents(Deallocated(v, s.threads[t].slot), s'.slots)
  {
    s' := s.(threads := s.threads[t := s.threads[t].(pc := StopFence)],
             slots := s.slots[s.threads[t].slot := Slot(None, t)]);
  }
}
