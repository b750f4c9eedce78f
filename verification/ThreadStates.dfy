/**
 The per-thread state word of `src/rcu_core/thread_state.rs`: the last seen epoch id with the busy
 flag packed into its low bit, and 0 reserved for a vacant slot.

 The machine integer is an arbitrary word, so the bit expressions appear in arithmetic form:
 `e | b` for an even `e` is `e + b`, and `w & !1` is `w - w % 2`.
 */
module ThreadStates {
  import opened Common

  datatype ThreadState = ThreadState(epoch: nat, busy: bool)

  const VACANT_WORD: nat := 0

  /** The two debug assertions of `encode`: an even epoch id, and not the vacant encoding. */
  predicate Encodable(state: ThreadState) {
    state.epoch % 2 == 0 && (state.epoch != 0 || state.busy)
  }

  function Encode(state: ThreadState): nat
    requires Encodable(state)
  {
    state.epoch + if state.busy then 1 else 0
  }

  function Decode(word: nat): Option<ThreadState> {
    if word == VACANT_WORD then None
    else Some(ThreadState(word - word % 2, word % 2 != 0))
  }

  /** The mask `!1` that parking applies to the word without decoding it. */
  function ClearBusyBit(word: nat): nat {
    word - word % 2
  }

  /** Decoding inverts encoding, and only a vacant slot decodes to nothing. */
  lemma DecodeInvertsEncode(state: ThreadState)
    requires Encodable(state)
    ensures Decode(Encode(state)) == Some(state)
    ensures Encode(state) != VACANT_WORD
  {
    assert (state.epoch + 1) % 2 == 1;
  }

  /** Every word is either vacant or the encoding of exactly one encodable state. */
  lemma EncodeInvertsDecode(word: nat)
    ensures Decode(word).None? <==> word == VACANT_WORD
    ensures Decode(word).Some? ==> Encodable(Decode(word).value) && Encode(Decode(word).value) == word
  {
    assert (word - word % 2) % 2 == 0;
  }

  /**
   Masking the word is marking the state as not busy, except for the one live state whose masked word
   is the vacant encoding: a waking thread that has not stored an epoch id yet.
   */
  lemma MaskParksExactlyPublishedStates(state: ThreadState)
    requires Encodable(state)
    ensures Decode(ClearBusyBit(Encode(state))) == Some(state.(busy := false)) <==> state.epoch != 0
    ensures ClearBusyBit(Encode(state)) == VACANT_WORD <==> state.epoch == 0
  {
    assert (state.epoch + 1) % 2 == 1;
  }
}
