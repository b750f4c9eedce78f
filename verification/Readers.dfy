/** What the grace-period guarantee means for RCU boxes: no use after reclaim, and no box lost or duplicated. */
module Readers {
  import opened Common
  import opened Protocol
  import opened CoverInvariant
  import opened ClientInvariant
  import opened Invariant

  /** No pointer that a reader still holds points to a box that was freed or given back to the user. */
  lemma NoUseAfterReclaim(s: State, t: ThreadId, b: BoxId)
    requires Reachable(s) && t < |s.held| && b in s.held[t]
    ensures b in s.heap && b !in s.owned && Polling(s, t)
  {
    ReachableClientOk(s);
    hide Reachable, OwnershipOk, OldsGuarded;
  }

  /** When `wait` returns, none of the boxes it gives back, however many there are, is held by any reader. */
  lemma ReturnedBoxesAreUnread(s: State, s': State, k: CallId, t: ThreadId)
    requires Reachable(s) && DoReturn(s, s', k) && t < |s.held|
    ensures s.calls[k].olds !! s.held[t] && s.calls[k].olds <= s'.owned && s'.held == s.held
  {
    ReachableClientOk(s);
    ReachableCoverOk(s);
    assert Ended(s.threads, s.calls[k].snap);
    hide Reachable, CoverOk, OwnershipOk;
  }

  // ----- conservation -----

  datatype Place = InCell(i: nat) | Loose | WaitedFor(k: CallId) | Users

  predicate IsAt(s: State, b: BoxId, p: Place) {
    match p
    case InCell(i) => i < |s.cells| && s.cells[i] == b
    case Loose => b in s.loose
    case WaitedFor(k) => k < |s.calls| && b in s.calls[k].olds
    case Users => b in s.owned
  }

  /** Every allocated box is in exactly one place, and no place holds a box that is not allocated. */
  lemma EveryBoxIsInOnePlace(s: State, b: BoxId)
    requires Reachable(s)
    ensures b in s.heap <==> exists p :: IsAt(s, b, p)
    ensures forall p, q :: IsAt(s, b, p) && IsAt(s, b, q) ==> p == q
  {
    ReachableClientOk(s);
    hide Reachable, HeldOk, OldsGuarded;
    if b in s.heap {
      var p := PlaceOf(s, b);
    }
    forall p | IsAt(s, b, p)
      ensures b in s.heap
    {
      if p.InCell? { assert b in s.cells; }
      if p.WaitedFor? { assert SomeCallHas(s.calls, b); }
    }
  }

  lemma PlaceOf(s: State, b: BoxId) returns (p: Place)
    requires OwnershipOk(s) && b in s.heap
    ensures IsAt(s, b, p)
  {
    if b in s.cells {
      var i :| 0 <= i < |s.cells| && s.cells[i] == b;
      p := InCell(i);
    } else if b in s.loose {
      p := Loose;
    } else if b in s.owned {
      p := Users;
    } else {
      var k :| 0 <= k < |s.calls| && b in s.calls[k].olds;
      p := WaitedFor(k);
    }
  }
}
