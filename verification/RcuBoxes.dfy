/**
 RCU boxes and the futures that wait for them: `src/primitives/rcu_box.rs` and `src/primitives/rcu_waitable.rs`. A box
 is a cell of the protocol, and its methods are steps there; who may still be reading what they hand out, and that no
 box is lost or duplicated, is the subject of `Readers`.
 */
module RcuBoxes {
  import opened Common
  import opened Protocol

  /** The pointer that a swap has taken out of a box; no grace period has been waited for yet. */
  datatype OldData = OldData(ptr: BoxId)

  lemma SwapIsStep(s: State, cell: nat, b: BoxId) returns (s': State)
    requires Reachable(s) && cell < |s.cells| && b in s.owned
    ensures Reachable(s') && DoClient(s, s', Client.Swap(cell, b))
    ensures s'.cells == s.cells[cell := b] && s.cells[cell] in s'.loose && b !in s'.owned
  {
    hide Reachable;
    s' := s.(cells := s.cells[cell := b], owned := s.owned - {b}, loose := s.loose + {s.cells[cell]});
    Extend(s, s', ClientOf(Client.Swap(cell, b)));
  }

  class RcuBox {
    ghost const cell: nat
    var valuePtr: BoxId

    /** The box holds what its cell holds in the state of the protocol. */
    ghost predicate IsCell(s: State)
      reads this
    {
      Reachable(s) && cell < |s.cells| && s.cells[cell] == valuePtr
    }

    constructor (value: BoxId, ghost s: State)
      requires Reachable(s) && value in s.owned
      ensures DoClient(s, s.(cells := s.cells + [value], owned := s.owned - {value}), NewCell(value))
      ensures IsCell(s.(cells := s.cells + [value], owned := s.owned - {value}))
    {
      cell := |s.cells|;
      valuePtr := value;
      hide Reachable;
      var s' := s.(cells := s.cells + [value], owned := s.owned - {value});
      Extend(s, s', ClientOf(NewCell(value)));
    }

    /** A reader inside of a task poll gets the current pointer, and holds it from then on. */
    method Read(ghost s: State, ghost t: ThreadId) returns (value: BoxId, ghost s': State)
      requires IsCell(s) && Polling(s, t) && t < |s.held|
      ensures DoClient(s, s', Client.Read(t, cell)) && IsCell(s')
      ensures value == valuePtr && t < |s'.held| && s'.held[t] == s.held[t] + {value}
    {
      value := valuePtr;
      hide Reachable;
      s' := s.(held := s.held[t := s.held[t] + {value}]);
      Extend(s, s', ClientOf(Client.Read(t, cell)));
    }

    /** The new value moves from the user into the box, and the previous one becomes old data to be waited for. */
    method Swap(newValue: BoxId, ghost s: State) returns (previous: OldData, ghost s': State)
      requires IsCell(s) && newValue in s.owned
      modifies this
      ensures DoClient(s, s', Client.Swap(cell, newValue)) && IsCell(s')
      ensures valuePtr == newValue && previous.ptr == old(valuePtr)
      ensures previous.ptr in s'.loose && newValue !in s'.owned
    {
      hide Reachable, DoClient;
      s' := SwapIsStep(s, cell, newValue);
      previous := OldData(valuePtr);
      valuePtr := newValue;
    }
  }

  // ----- waiting -----

  /** `into_output` of a tuple: every component in its place. */
  function IntoOutput(olds: seq<OldData>): (output: seq<BoxId>)
    ensures |output| == |olds| && forall i | 0 <= i < |olds| :: output[i] == olds[i].ptr
  {
    seq(|olds|, i requires 0 <= i < |olds| => olds[i].ptr)
  }

  datatype PollResult = Pending | Ready(output: seq<BoxId>) | PolledAfterCompletion

  /** The results of polling one future again and again. */
  function PollAll(src: Option<seq<OldData>>, answers: seq<bool>): (results: seq<PollResult>)
    ensures |results| == |answers|
    decreases |answers|
  {
    if answers == [] then []
    else if !answers[0] then [Pending] + PollAll(src, answers[1..])
    else match src
      case Some(olds) => [PollResult.Ready(IntoOutput(olds))] + PollAll(None, answers[1..])
      case None => [PolledAfterCompletion] + PollAll(None, answers[1..])
  }

  /** One more poll adds one more result. */
  lemma {:induction false} PollAllAppends(src: Option<seq<OldData>>, answers: seq<bool>, answer: bool)
    ensures PollAll(src, answers + [answer])
         == PollAll(src, answers)
          + [if !answer then Pending
             else if src.None? || true in answers then PolledAfterCompletion
             else PollResult.Ready(IntoOutput(src.value))]
    decreases |answers|
  {
    if answers == [] {
    } else {
      assert (answers + [answer])[1..] == answers[1..] + [answer];
      assert answers == [answers[0]] + answers[1..];
      PollAllAppends(if answers[0] then None else src, answers[1..], answer);
    }
  }

  /**
   However the future is polled, its old data comes out exactly once: at the first poll that finds the grace period
   over. It is an error to poll it to completion again.
   */
  lemma {:induction false} OutputComesOnce(src: Option<seq<OldData>>, answers: seq<bool>, i: nat)
    requires i < |answers|
    ensures PollAll(src, answers)[i]
         == if !answers[i] then Pending
            else if src.None? || true in answers[..i] then PolledAfterCompletion
            else PollResult.Ready(IntoOutput(src.value))
    decreases |answers|
  {
    if i == 0 {
    } else {
      OutputComesOnce(if answers[0] then None else src, answers[1..], i - 1);
      assert answers[..i] == [answers[0]] + answers[1..][..i - 1];
    }
  }

  /**
   The future that `wait` returns for a tuple of old data. `answers` are what its grace period answered in the polls so
   far, `results` what the polls returned, and `given` is the tuple.
   */
  class RcuWaitableWait {
    ghost const given: seq<OldData>
    ghost var answers: seq<bool>
    ghost var results: seq<PollResult>
    var srcValue: Option<seq<OldData>>

    /** The tuple is still here until a poll finds the grace period over. */
    ghost predicate Valid()
      reads this
    {
      && srcValue == (if true in answers then None else Some(given))
      && results == PollAll(Some(given), answers)
    }

    constructor (olds: seq<OldData>)
      ensures Valid() && given == olds && answers == []
    {
      given, answers, results := olds, [], [];
      srcValue := Some(olds);
    }

    /**
     The boxes come out exactly once, each in its place in the tuple, in the first poll that finds the grace period
     over. A poll before that keeps them, and a poll that gets there a second time is an error.
     */
    method Poll(synchronized: bool) returns (r: PollResult)
      requires Valid()
      modifies this
      ensures Valid() && answers == old(answers) + [synchronized] && results == old(results) + [r]
      ensures r.Pending? <==> !synchronized
      ensures r.PolledAfterCompletion? <==> synchronized && true in old(answers)
      ensures r.Ready? ==>
                |r.output| == |given| && forall i | 0 <= i < |given| :: r.output[i] == given[i].ptr
      ensures r.Pending? ==> srcValue == old(srcValue)
      ensures !r.Pending? ==> srcValue == None
    {
      if synchronized {
        var taken := srcValue;
        srcValue := None;
        match taken
        case Some(olds) => r := PollResult.Ready(IntoOutput(olds));
        case None => r := PolledAfterCompletion;
      } else {
        r := Pending;
      }
      PollAllAppends(Some(given), answers, synchronized);
      answers, results := answers + [synchronized], results + [r];
    }
  }
}
