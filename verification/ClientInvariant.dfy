/**
 The boxes behind the RCU cells: every box is in exactly one place, and a pointer that a reader still
 holds never points to a box that was given back to the user.
 */
module ClientInvariant {
  import opened Common
  import opened Protocol
  import opened CallInvariant
  import opened CoverInvariant

  ghost predicate CellsOk(cells: seq<BoxId>, loose: set<BoxId>, owned: set<BoxId>) {
    && (forall i, j | 0 <= i < |cells| && 0 <= j < |cells| && i != j :: cells[i] != cells[j])
    && (forall i | 0 <= i < |cells| :: cells[i] !in loose && cells[i] !in owned)
    && loose !! owned
  }

  /** The old data that a call waits for is in no cell, and neither loose, nor the user's, nor another call's. */
  ghost predicate OldsOk(calls: seq<Call>, cells: seq<BoxId>, loose: set<BoxId>, owned: set<BoxId>) {
    && (forall k | 0 <= k < |calls| :: calls[k].olds !! loose && calls[k].olds !! owned)
    && (forall k, i | 0 <= k < |calls| && 0 <= i < |cells| :: cells[i] !in calls[k].olds)
    && (forall j, k | 0 <= j < |calls| && 0 <= k < |calls| && j != k :: calls[j].olds !! calls[k].olds)
  }

  ghost predicate SomeCallHas(calls: seq<Call>, b: BoxId) {
    exists k | 0 <= k < |calls| :: b in calls[k].olds
  }

  /** The heap is exactly the boxes in cells, loose, waited for, or owned. */
  ghost predicate HeapOk(calls: seq<Call>, cells: seq<BoxId>, loose: set<BoxId>, owned: set<BoxId>, heap: set<BoxId>) {
    forall b :: b in heap <==> b in cells || b in loose || b in owned || SomeCallHas(calls, b)
  }

  ghost predicate OwnershipOk(s: State) {
    && CellsOk(s.cells, s.loose, s.owned) && OldsOk(s.calls, s.cells, s.loose, s.owned)
    && HeapOk(s.calls, s.cells, s.loose, s.owned, s.heap)
  }

  /** Readers hold pointers inside of polls only, and never to a box that is free or the user's. */
  ghost predicate HeldOk(s: State) {
    && |s.held| == |s.threads|
    && (forall t | 0 <= t < |s.held| :: s.held[t] != {} ==> s.threads[t].pc.InPoll?)
    && (forall t | 0 <= t < |s.held| :: s.held[t] <= s.heap && s.held[t] !! s.owned)
  }

  /** A reader that holds old data of a call with an id is in a poll that the call waits for. */
  ghost predicate OldsGuarded(s: State) {
    && |s.held| == |s.threads|
    && forall k, t | 0 <= k < |s.calls| && 0 <= t < |s.held| && HasId(s.calls[k].pc)
        && !(s.calls[k].olds !! s.held[t]) ::
         t in s.calls[k].snap && s.threads[t].polls == s.calls[k].snap[t]
  }

  ghost predicate IdleOk(calls: seq<Call>) {
    forall k | 0 <= k < |calls| :: calls[k].pc.Idle? ==> calls[k].olds == {}
  }

  ghost predicate ClientOk(s: State) {
    OwnershipOk(s) && HeldOk(s) && OldsGuarded(s) && IdleOk(s.calls)
  }

  // ----- steps of the threads and of the performer -----

  /** Threads that hold pointers stay in their polls. */
  lemma ThreadsKeepClientOk(s: State, s': State)
    requires ClientOk(s) && |s'.threads| == |s.threads|
    requires s'.held == s.held && s'.calls == s.calls && s'.cells == s.cells
    requires s'.loose == s.loose && s'.owned == s.owned && s'.heap == s.heap
    requires forall t | 0 <= t < |s.threads| && t < |s.held| && s.held[t] != {} ::
               s.threads[t].pc.InPoll? ==> s'.threads[t].pc.InPoll? && s'.threads[t].polls == s.threads[t].polls
    ensures ClientOk(s')
  {
    assert OwnershipOk(s') by { hide CellsOk, OldsOk, HeapOk; }
    hide OwnershipOk, HasId;
    assert forall k, t | 0 <= k < |s.calls| && 0 <= t < |s.held| && !(s.calls[k].olds !! s.held[t]) :: s.held[t] != {};
  }

  lemma HookKeepsClientOk(s: State, s': State, t: ThreadId, h: Hook, th': Thread, mem': ThreadStates.ThreadState)
    requires ClientOk(s) && DoHook(s, s', t, h, th', mem')
    ensures ClientOk(s')
  {
    hide OwnershipOk, OldsGuarded;
    ThreadsKeepClientOk(s, s');
  }

  lemma OutsidePollKeepsClientOk(s: State, s': State, t: ThreadId)
    requires ClientOk(s) && IsThread(s, t) && !s.threads[t].pc.InPoll?
    requires |s'.threads| == |s.threads| && s'.threads == s.threads[t := s'.threads[t]]
    requires s'.held == s.held && s'.calls == s.calls && s'.cells == s.cells
    requires s'.loose == s.loose && s'.owned == s.owned && s'.heap == s.heap
    ensures ClientOk(s')
  {
    hide ClientOk;
    ThreadsKeepClientOk(s, s');
  }

  // ----- steps of the users -----

  lemma ClientKeepsOwnershipOk(s: State, s': State, a: Client)
    requires OwnershipOk(s) && DoClient(s, s', a) && !a.Swap? && !a.NewCell?
    ensures OwnershipOk(s')
  {
    assert forall b :: SomeCallHas(s.calls, b) == SomeCallHas(s'.calls, b);
    if a.AllocateBox? {
      assert forall i | 0 <= i < |s.cells| :: s.cells[i] in s.heap;
      assert forall k | 0 <= k < |s.calls| :: a.b in s.calls[k].olds ==> SomeCallHas(s.calls, a.b);
    }
    if a.FreeBox? {
      assert forall k | 0 <= k < |s.calls| :: a.b !in s.calls[k].olds;
    }
  }

  lemma NewCellKeepsOwnershipOk(s: State, s': State, b: BoxId)
    requires OwnershipOk(s) && DoClient(s, s', NewCell(b))
    ensures OwnershipOk(s')
  {
    assert forall x :: x in s'.cells <==> x in s.cells || x == b;
    assert forall k | 0 <= k < |s.calls| :: b !in s.calls[k].olds;
    hide SomeCallHas;
  }

  /** A swap moves the new box from the user into the cell, and the old one from the cell to the loose boxes. */
  lemma SwapKeepsOwnershipOk(s: State, s': State, cell: nat, b: BoxId)
    requires OwnershipOk(s) && DoClient(s, s', Swap(cell, b))
    ensures OwnershipOk(s')
  {
    var previous := s.cells[cell];
    assert forall k | 0 <= k < |s.calls| :: b !in s.calls[k].olds && previous !in s.calls[k].olds;
    assert s'.cells[cell] == b;
    forall x | x in s.cells
      ensures x in s'.cells || x == previous
    {
      var i :| 0 <= i < |s.cells| && s.cells[i] == x;
      assert i == cell || s'.cells[i] == x;
    }
    hide SomeCallHas;
  }

  lemma ClientKeepsHeldOk(s: State, s': State, a: Client)
    requires OwnershipOk(s) && HeldOk(s) && OldsGuarded(s) && DoClient(s, s', a)
    ensures HeldOk(s') && OldsGuarded(s')
  {
    if a.Read? {
      assert s.cells[a.cell] in s.cells;
    }
    assert forall t, k | 0 <= t < |s.held| && 0 <= k < |s.calls| && s.calls[k].olds !! s.held[t] ::
      s'.calls[k].olds !! s'.held[t];
    hide SomeCallHas;
  }

  lemma ClientKeepsClientOk(s: State, s': State, a: Client)
    requires ClientOk(s) && DoClient(s, s', a)
    ensures ClientOk(s')
  {
    match a {
      case Swap(cell, b) => SwapKeepsOwnershipOk(s, s', cell, b);
      case NewCell(b) => NewCellKeepsOwnershipOk(s, s', b);
      case _ => ClientKeepsOwnershipOk(s, s', a);
    }
    ClientKeepsHeldOk(s, s', a);
    hide OwnershipOk, HeldOk, OldsGuarded;
  }

  // ----- steps of the calls -----

  /** The places of the boxes depend on the calls only through the old data they wait for. */
  lemma SameOldsKeepOwnershipOk(s: State, s': State)
    requires OwnershipOk(s) && |s'.calls| == |s.calls|
    requires s'.cells == s.cells && s'.loose == s.loose && s'.owned == s.owned && s'.heap == s.heap
    requires forall j | 0 <= j < |s.calls| :: s'.calls[j].olds == s.calls[j].olds
    ensures OwnershipOk(s')
  {
    forall b
      ensures SomeCallHas(s'.calls, b) == SomeCallHas(s.calls, b)
    {
      assert forall j | 0 <= j < |s.calls| :: b in s'.calls[j].olds <==> b in s.calls[j].olds;
    }
    hide SomeCallHas, CellsOk;
  }

  lemma SameOldsKeepClientOk(s: State, s': State)
    requires ClientOk(s) && |s'.calls| == |s.calls| && s'.threads == s.threads && s'.held == s.held
    requires s'.cells == s.cells && s'.loose == s.loose && s'.owned == s.owned && s'.heap == s.heap
    requires forall j | 0 <= j < |s.calls| :: s'.calls[j].olds == s.calls[j].olds
    requires forall j | 0 <= j < |s.calls| :: s'.calls[j].pc.Idle? ==> s.calls[j].pc.Idle?
    requires forall j | 0 <= j < |s.calls| && HasId(s'.calls[j].pc) ::
               || (HasId(s.calls[j].pc) && s'.calls[j].snap == s.calls[j].snap)
               || s'.calls[j].snap == PollsInProgress(s.threads)
    ensures ClientOk(s')
  {
    SameOldsKeepOwnershipOk(s, s');
    hide OwnershipOk, HasId;
    forall k, t | 0 <= k < |s.calls| && 0 <= t < |s.held| && HasId(s'.calls[k].pc) && !(s'.calls[k].olds !! s.held[t])
      ensures t in s'.calls[k].snap && s.threads[t].polls == s'.calls[k].snap[t]
    {
      assert s.held[t] != {};
    }
  }

  lemma BeginKeepsClientOk(s: State, s': State, k: CallId, olds: set<BoxId>)
    requires ClientOk(s) && DoBegin(s, s', k, olds)
    ensures ClientOk(s')
  {
    forall b
      ensures SomeCallHas(s'.calls, b) <==> SomeCallHas(s.calls, b) || b in olds
    {
      if SomeCallHas(s.calls, b) {
        var j :| 0 <= j < |s.calls| && b in s.calls[j].olds;
        assert b in s'.calls[j].olds;
      }
      assert s'.calls[k].olds == olds;
    }
    hide SomeCallHas;
  }

  /** One call moved on without touching its old data. */
  lemma UpdateKeepsClientOk(s: State, s': State, k: CallId, c: Call)
    requires ClientOk(s) && IsCall(s, k) && s'.calls == s.calls[k := c]
    requires s'.threads == s.threads && s'.held == s.held && s'.cells == s.cells
    requires s'.loose == s.loose && s'.owned == s.owned && s'.heap == s.heap
    requires c.olds == s.calls[k].olds && !c.pc.Idle?
    requires HasId(c.pc) ==> (HasId(s.calls[k].pc) && c.snap == s.calls[k].snap) || c.snap == PollsInProgress(s.threads)
    ensures ClientOk(s')
  {
    hide ClientOk, HasId, PollsInProgress;
    SameOldsKeepClientOk(s, s');
  }

  /** Every reader that holds a pointer when the id is taken is in a poll, and the call records that poll. */
  lemma TakeIdKeepsClientOk(s: State, s': State, k: CallId)
    requires ClientOk(s) && DoTakeId(s, s', k)
    ensures ClientOk(s')
  {
    hide ClientOk, NoWriter, PollsInProgress;
    UpdateKeepsClientOk(s, s', k, s'.calls[k]);
  }

  lemma NotifyFollowersKeepsClientOk(s: State, s': State, k: CallId)
    requires ClientOk(s) && IsCall(s, k) && s.calls[k].pc.LeadNotify? && DoLead(s, s', k)
    ensures ClientOk(s')
  {
    var calls' := s'.calls;
    assert forall j | 0 <= j < |s.calls| && j != k :: calls'[j] == NotifyFollower(s.calls[j]);
    assert calls'[k].olds == s.calls[k].olds && calls'[k].pc.WantRead? && s' == s.(calls := calls');
    hide NotifyFollowers, ClientOk, DoLead, PollsInProgress;
    assert forall j | 0 <= j < |s.calls| :: calls'[j].olds == s.calls[j].olds && calls'[j].snap == s.calls[j].snap;
    assert forall j | 0 <= j < |s.calls| :: HasId(calls'[j].pc) ==> HasId(s.calls[j].pc);
    assert forall j | 0 <= j < |s.calls| :: calls'[j].pc.Idle? ==> s.calls[j].pc.Idle?;
    hide NotifyFollower, HasId;
    SameOldsKeepClientOk(s, s');
  }

  lemma LeadKeepsClientOk(s: State, s': State, k: CallId)
    requires ClientOk(s) && DoLead(s, s', k)
    ensures ClientOk(s')
  {
    hide ClientOk, NoWriter, NoReader, NotifyFollowers;
    if s.calls[k].pc.LeadNotify? {
      NotifyFollowersKeepsClientOk(s, s', k);
    } else {
      UpdateKeepsClientOk(s, s', k, s'.calls[k]);
    }
  }

  lemma FollowKeepsClientOk(s: State, s': State, k: CallId)
    requires ClientOk(s) && DoFollow(s, s', k)
    ensures ClientOk(s')
  {
    hide ClientOk;
    UpdateKeepsClientOk(s, s', k, s'.calls[k]);
  }

  lemma SerializedKeepsClientOk(s: State, s': State, k: CallId, t: ThreadId)
    requires ClientOk(s) && DoSerialized(s, s', k, t)
    ensures ClientOk(s')
  {
    hide ClientOk, MutexFree;
    UpdateKeepsClientOk(s, s', k, s'.calls[k]);
  }

  /** The old data of a returning call moves to the user. */
  lemma ReturnKeepsOwnershipOk(s: State, s': State, k: CallId)
    requires OwnershipOk(s) && DoReturn(s, s', k)
    ensures OwnershipOk(s')
  {
    forall b
      ensures SomeCallHas(s.calls, b) <==> SomeCallHas(s'.calls, b) || b in s.calls[k].olds
    {
      if SomeCallHas(s.calls, b) {
        var j :| 0 <= j < |s.calls| && b in s.calls[j].olds;
        assert j == k || b in s'.calls[j].olds;
      }
      if SomeCallHas(s'.calls, b) {
        var j :| 0 <= j < |s.calls| && b in s'.calls[j].olds;
        assert b in s.calls[j].olds;
      }
    }
    hide SomeCallHas;
  }

  /** When the call returns, every poll it recorded has ended, so no reader holds its old data any more. */
  lemma ReturnKeepsClientOk(s: State, s': State, k: CallId)
    requires CoverOk(s) && ClientOk(s) && DoReturn(s, s', k)
    ensures ClientOk(s')
  {
    ReturnKeepsOwnershipOk(s, s', k);
    assert Ended(s.threads, s.calls[k].snap);
    hide CoverOk, OwnershipOk;
    assert forall t | 0 <= t < |s.held| :: s.calls[k].olds !! s.held[t];
  }
}
