/**
 The grace-period protocol as a step machine: the thread hooks and `synchronize_rcu` of
 `src/rcu_core/mod.rs`, the epoch notification channel of
 `src/rcu_core/epoch_id_update_notifications.rs`, and the readers and writers of
 `src/primitives/rcu_box.rs`.

 Any number of threads and of `synchronize_rcu` calls interleave; one step is one atomic access.
 Stores go through a FIFO store buffer per thread. A fence and a read-modify-write are enabled only
 once the buffer of the thread that runs them is empty, and draining an entry is a step of its own.
 */
module Protocol {
  import opened Common
  import opened ThreadStates

  type ThreadId = nat
  type CallId = nat
  type BoxId = nat

  const EPOCH_ID_MIN: nat := 2

  /** The largest values of the two counters; both follow from the width of the machine integers. */
  datatype Config = Config(epochMax: nat, gpMax: nat)

  predicate ValidConfig(cfg: Config) {
    cfg.epochMax % 2 == 0 && EPOCH_ID_MIN + 4 <= cfg.epochMax && 1 <= cfg.gpMax
  }

  predicate ValidEpoch(cfg: Config, e: nat) {
    e % 2 == 0 && EPOCH_ID_MIN <= e <= cfg.epochMax
  }

  // ----- threads -----

  /** Where a notifier stands inside `thread_epoch_updated_notify_inner`. */
  datatype NotifyPc = LoadFlag | Increment | ReadInfo | WriteInfo | ClearFlag

  /** The state a thread returns to when its notification is over. */
  datatype Continuation = ToReady | ToParked | ToUntracked

  /**
   Where a thread stands in its hooks. `Enter..EnterFence` is the common tail of `on_thread_unpark` and
   of the allocating branch of `on_before_task_poll`; `Leave..` is `on_after_task_poll`.
   `seen` is an epoch id that has been loaded and not been stored yet.
   */
  datatype HookPc =
    | Untracked
    | Enter | EnterLoad | EnterStore(seen: nat) | EnterFence
    | Ready | InPoll
    | LeaveLoad | LeaveStore(seen: nat) | LeaveFence
    | ParkFence | Parked | StopFence
    | Notifying(at: NotifyPc, skipSelf: bool, next: Continuation)

  /** `buf` holds the stores to the thread's own slot that are not in memory yet, oldest first. */
  datatype Thread = Thread(pc: HookPc, slot: nat, buf: seq<ThreadState>, polls: nat)

  /** `value` is the slot's memory; `owner` records which thread allocated it last. */
  datatype Slot = Slot(value: Option<ThreadState>, owner: ThreadId)

  predicate HasSlot(pc: HookPc) {
    !pc.Untracked? && !pc.StopFence? && !(pc.Notifying? && pc.next.ToUntracked?)
  }

  /** The last value the thread stored to its slot, in memory or not: what the thread itself loads. */
  function Latest(th: Thread, mem: ThreadState): ThreadState {
    if th.buf == [] then mem else th.buf[|th.buf| - 1]
  }

  // ----- the performer of a grace period -----

  datatype Phase = Bump(target: nat) | ResetToMin | ResetToNext

  function Target(phase: Phase): nat {
    match phase
    case Bump(target) => target
    case ResetToMin => EPOCH_ID_MIN
    case ResetToNext => EPOCH_ID_MIN + 2
  }

  /** The predicate that `wait_for_running_threads_to_see_epoch_id` is called with. */
  predicate Seen(phase: Phase, e: nat) {
    if phase.Bump? then e >= phase.target else e == Target(phase)
  }

  datatype PerfPc =
    | Off | LoadEpoch | SetEpoch
    | SetFlag | Snapshot | Fence | ScanLen | ScanSlot
    | FirstCheck | Register | UpdateInfo | SecondCheck | Asleep
    | DropFlag | DropInfo | Settle | Finished

  datatype PerfWrite = EpochWrite(epoch: nat) | FlagWrite(on: bool)

  /**
   The one call that performs a grace period. `host` is the thread that polls it; `buf` is the tail of
   that thread's store buffer, behind the stores to its slot.
   */
  datatype Performer = Performer(
    pc: PerfPc, phase: Phase, host: ThreadId, buf: seq<PerfWrite>,
    len: nat, idx: nat, passed: bool,
    snapshot: nat, registered: bool, consumed: bool, woken: bool)

  predicate Hosted(pc: PerfPc) {
    !pc.Off? && !pc.Asleep? && !pc.Finished?
  }

  // ----- synchronize_rcu calls -----

  /** Where a call of `synchronize_rcu` stands; `Lead..` and `Follow..` are the two roles of a counter reset. */
  datatype CallPc =
    | Idle | WantRead | TryIncrement
    | LeadRelease | LeadWantWrite | LeadResetStarted | LeadResetFinished | LeadUnlock | LeadNotify
    | FollowSubscribe | FollowRelease | FollowWait
    | WantMutex | CheckFinished | LoadStarted | StartPerforming | Performing
    | Unlock | Release | Done

  /**
   `id` is the grace period id and `sampled` the value of the started counter read before performing.
   `snap` records, for every thread that was inside a task poll when the id was taken, which poll it was.
   `olds` are the boxes handed to `wait`.
   */
  datatype Call = Call(pc: CallPc, id: nat, sampled: nat, notified: bool, snap: map<ThreadId, nat>, olds: set<BoxId>)

  predicate HoldsRead(pc: CallPc) {
    pc.TryIncrement? || pc.LeadRelease? || pc.FollowSubscribe? || pc.FollowRelease? || HasId(pc)
  }

  predicate HoldsWrite(pc: CallPc) {
    pc.LeadResetStarted? || pc.LeadResetFinished? || pc.LeadUnlock?
  }

  predicate HoldsMutex(pc: CallPc) {
    pc.CheckFinished? || pc.LoadStarted? || pc.StartPerforming? || pc.Performing? || pc.Unlock?
  }

  predicate HasId(pc: CallPc) {
    pc.WantMutex? || HoldsMutex(pc) || pc.Release?
  }

  // ----- the whole state -----

  /**
   `stale` collects the epoch ids superseded since the last completed grace period.
   `cells` are the current pointers of the RCU boxes, `held[t]` the pointers thread `t` may still use,
   `loose` the old data not yet handed to `wait`, and `owned` the boxes that belong to the user.
   */
  datatype State = State(
    cfg: Config,
    epoch: nat, stale: set<nat>, slots: seq<Slot>, threads: seq<Thread>,
    flag: bool, num: nat, info: Option<ThreadId>, perf: Performer,
    started: nat, finished: nat, calls: seq<Call>,
    held: seq<set<BoxId>>, cells: seq<BoxId>, loose: set<BoxId>, owned: set<BoxId>, heap: set<BoxId>)

  predicate IsThread(s: State, t: ThreadId) { t < |s.threads| }

  predicate IsCall(s: State, k: CallId) { k < |s.calls| }

  predicate Tracked(s: State, t: ThreadId) {
    && IsThread(s, t) && HasSlot(s.threads[t].pc)
    && s.threads[t].slot < |s.slots| && s.slots[s.threads[t].slot].value.Some?
  }

  function Mem(s: State, t: ThreadId): ThreadState
    requires Tracked(s, t)
  {
    s.slots[s.threads[t].slot].value.value
  }

  predicate Polling(s: State, t: ThreadId) {
    IsThread(s, t) && s.threads[t].pc.InPoll?
  }

  predicate IsHost(s: State, t: ThreadId) {
    Hosted(s.perf.pc) && s.perf.host == t
  }

  ghost predicate Init(s: State) {
    && ValidConfig(s.cfg)
    && s.epoch == EPOCH_ID_MIN + 2 && s.stale == {} && s.slots == []
    && (forall t | 0 <= t < |s.threads| :: s.threads[t] == Thread(Untracked, 0, [], 0))
    && !s.flag && s.num == 0 && s.info.None?
    && s.perf == Performer(Off, ResetToMin, 0, [], 0, 0, false, 0, false, false, false)
    && s.started == 0 && s.finished == 0
    && (forall k | 0 <= k < |s.calls| :: s.calls[k] == Call(Idle, 0, 0, false, map[], {}))
    && |s.held| == |s.threads| && (forall t | 0 <= t < |s.held| :: s.held[t] == {})
    && s.cells == [] && s.loose == {} && s.owned == {} && s.heap == {}
  }

  // ----- steps of the hooks -----

  /** Every access of a hook other than the allocation of a slot, its release, and the notification. */
  datatype Hook =
    | FenceAfterBusy | LoadAfterFence | StoreSeen | FenceBeforeNotify
    | BeginPoll | EndPoll | LoadAfterPoll | StoreAfterPoll | FenceAfterPoll
    | MarkParked | FenceAfterPark | MarkWaking
    | DrainStore

  /** The effect of one hook access on the thread `th` and on the memory `mem` of its slot. */
  predicate HookStep(h: Hook, epoch: nat, th: Thread, mem: ThreadState, th': Thread, mem': ThreadState) {
    match h
    // on_thread_unpark, and on_before_task_poll once the slot is allocated
    case FenceAfterBusy =>
      th.pc.Enter? && th.buf == [] && th' == th.(pc := EnterLoad) && mem' == mem
    case LoadAfterFence =>
      th.pc.EnterLoad? && th' == th.(pc := EnterStore(epoch)) && mem' == mem
    case StoreSeen =>
      && th.pc.EnterStore? && mem' == mem
      && th' == th.(pc := EnterFence, buf := th.buf + [ThreadState(th.pc.seen, true)])
    case FenceBeforeNotify =>
      th.pc.EnterFence? && th.buf == [] && th' == th.(pc := Notifying(LoadFlag, false, ToReady)) && mem' == mem
    // a task poll
    case BeginPoll =>
      th.pc.Ready? && th' == th.(pc := InPoll) && mem' == mem
    case EndPoll =>
      th.pc.InPoll? && th' == th.(pc := LeaveLoad, polls := th.polls + 1) && mem' == mem
    // on_after_task_poll
    case LoadAfterPoll =>
      th.pc.LeaveLoad? && th' == th.(pc := LeaveStore(epoch)) && mem' == mem
    case StoreAfterPoll =>
      && th.pc.LeaveStore? && mem' == mem
      && th' == th.(pc := if Latest(th, mem).epoch != th.pc.seen then LeaveFence else Ready,
                    buf := th.buf + [ThreadState(th.pc.seen, true)])
    case FenceAfterPoll =>
      th.pc.LeaveFence? && th.buf == [] && th' == th.(pc := Notifying(LoadFlag, false, ToReady)) && mem' == mem
    // on_thread_park
    case MarkParked =>
      th.pc.Ready? && th.buf == [] && th' == th.(pc := ParkFence) && mem' == mem.(busy := false)
    case FenceAfterPark =>
      th.pc.ParkFence? && th.buf == [] && th' == th.(pc := Notifying(LoadFlag, true, ToParked)) && mem' == mem
    // on_thread_unpark
    case MarkWaking =>
      && th.pc.Parked? && mem' == mem
      && th' == th.(pc := Enter, buf := th.buf + [ThreadState(0, true)])
    // the oldest buffered store reaches memory
    case DrainStore =>
      th.buf != [] && th' == th.(buf := th.buf[1..]) && mem' == th.buf[0]
  }

  /** A poll ends only when its read-side sections are over and it is not in the middle of polling the performer. */
  predicate DoHook(s: State, s': State, t: ThreadId, h: Hook, th': Thread, mem': ThreadState) {
    && Tracked(s, t)
    && HookStep(h, s.epoch, s.threads[t], Mem(s, t), th', mem')
    && (h.EndPoll? ==> t < |s.held| && s.held[t] == {} && !IsHost(s, t))
    && s' == s.(threads := s.threads[t := th'], slots := s.slots[s.threads[t].slot := Slot(Some(mem'), t)])
  }

  /** `on_before_task_poll` of a thread without a slot: it takes a vacant slot, or appends one. */
  predicate DoAllocate(s: State, s': State, t: ThreadId, i: nat) {
    && IsThread(s, t) && s.threads[t].pc.Untracked? && s.threads[t].buf == []
    && i <= |s.slots| && (i < |s.slots| ==> s.slots[i].value.None?)
    && var taken := Slot(Some(ThreadState(0, true)), t);
       s' == s.(threads := s.threads[t := s.threads[t].(pc := Enter, slot := i)],
                slots := if i == |s.slots| then s.slots + [taken] else s.slots[i := taken])
  }

  /** `on_thread_stop`: the slot becomes vacant under the lock of the slot array. */
  predicate DoRelease(s: State, s': State, t: ThreadId) {
    && Tracked(s, t) && s.threads[t].pc.Ready? && s.threads[t].buf == []
    && s' == s.(threads := s.threads[t := s.threads[t].(pc := StopFence)],
                slots := s.slots[s.threads[t].slot := Slot(None, t)])
  }

  predicate DoStopFence(s: State, s': State, t: ThreadId) {
    && IsThread(s, t) && s.threads[t].pc.StopFence? && s.threads[t].buf == []
    && s' == s.(threads := s.threads[t := s.threads[t].(pc := Notifying(LoadFlag, false, ToUntracked))])
  }

  // ----- steps of a notifier -----

  function Resume(next: Continuation): HookPc {
    match next
    case ToReady => Ready
    case ToParked => Parked
    case ToUntracked => Untracked
  }

  function MoveTo(s: State, t: ThreadId, pc: HookPc): seq<Thread>
    requires IsThread(s, t)
  {
    s.threads[t := s.threads[t].(pc := pc)]
  }

  /** The write lock of the subscriber info is held from taking the info to clearing the flag. */
  ghost predicate InfoUnlocked(threads: seq<Thread>) {
    forall t | 0 <= t < |threads| :: !(threads[t].pc.Notifying? && threads[t].pc.at.ClearFlag?)
  }

  predicate IsNotifier(s: State, t: ThreadId) {
    IsThread(s, t) && s.threads[t].pc.Notifying?
  }

  /** The notifier ignores the subscriber: there is none, or it is this very thread and it must be skipped. */
  predicate Ignores(s: State, t: ThreadId)
    requires IsNotifier(s, t)
  {
    s.info.None? || (s.threads[t].pc.skipSelf && s.info == Some(t))
  }

  ghost predicate DoNotify(s: State, s': State, t: ThreadId) {
    && IsNotifier(s, t)
    && var pc := s.threads[t].pc;
       match pc.at
       case LoadFlag =>
         s' == s.(threads := MoveTo(s, t, if s.flag then pc.(at := Increment) else Resume(pc.next)))
       case Increment =>
         s.threads[t].buf == [] && s' == s.(threads := MoveTo(s, t, pc.(at := ReadInfo)), num := s.num + 1)
       case ReadInfo =>
         InfoUnlocked(s.threads)
         && s' == s.(threads := MoveTo(s, t, if Ignores(s, t) then Resume(pc.next) else pc.(at := WriteInfo)))
       case WriteInfo =>
         InfoUnlocked(s.threads)
         && if Ignores(s, t)
            then s' == s.(threads := MoveTo(s, t, Resume(pc.next)))
            else s' == s.(threads := MoveTo(s, t, pc.(at := ClearFlag)), info := None, perf := s.perf.(woken := true))
       case ClearFlag =>
         s' == s.(threads := MoveTo(s, t, Resume(pc.next)), flag := false)
  }

  // ----- steps of the performer -----

  /** What one scanned slot contributes to the `all(..)` of the wait loop. */
  predicate SlotPasses(value: Option<ThreadState>, phase: Phase, skipped: bool) {
    skipped || value.None? || !value.value.busy || Seen(phase, value.value.epoch)
  }

  predicate HostDrained(s: State) {
    s.perf.buf == [] && IsThread(s, s.perf.host) && s.threads[s.perf.host].buf == []
  }

  function AfterDrop(p: Performer): Performer {
    if !p.passed then p.(pc := SetFlag)
    else if p.phase.ResetToMin? then p.(pc := SetEpoch, phase := ResetToNext, passed := false)
    else p.(pc := Settle)
  }

  /** synchronize_rcu_serialized up to the store of the new epoch id, and between the two stores of a reset. */
  predicate DoChooseEpoch(s: State, s': State) {
    var p := s.perf;
    match p.pc
    case LoadEpoch =>
      s' == s.(perf := p.(pc := SetEpoch, passed := false,
                          phase := if s.epoch == s.cfg.epochMax then ResetToMin else Bump(s.epoch + 2)))
    case SetEpoch =>
      s' == s.(perf := p.(pc := SetFlag, buf := p.buf + [EpochWrite(Target(p.phase))]))
    case _ => false
  }

  /** subscribe_to_epoch_id_notifications, and the fence behind it. */
  predicate DoSubscribe(s: State, s': State) {
    var p := s.perf;
    match p.pc
    case SetFlag =>
      s' == s.(perf := p.(pc := Snapshot, buf := p.buf + [FlagWrite(true)]))
    case Snapshot =>
      s' == s.(perf := p.(pc := Fence, snapshot := s.num, registered := false, consumed := false, woken := false))
    case Fence =>
      HostDrained(s) && s' == s.(perf := p.(pc := ScanLen))
    case _ => false
  }

  /** The scan of wait_for_running_threads_to_see_epoch_id; only the reset's first scan skips its own thread. */
  predicate DoScan(s: State, s': State) {
    var p := s.perf;
    match p.pc
    case ScanLen =>
      s' == s.(perf := p.(pc := ScanSlot, len := |s.slots|, idx := 0))
    case ScanSlot =>
      IsThread(s, p.host) &&
      if p.idx < p.len
      then
        p.idx < |s.slots| &&
        var skipped := p.phase.ResetToMin? && p.idx == s.threads[p.host].slot;
        s' == s.(perf := if SlotPasses(s.slots[p.idx].value, p.phase, skipped) then p.(idx := p.idx + 1)
                         else p.(pc := FirstCheck))
      else
        s' == s.(perf := p.(pc := DropFlag, passed := true), stale := if p.phase.ResetToMin? then s.stale else {})
    case _ => false
  }

  /** EpochIdNotificationsSubscriber::poll. A poll that finds its own info may still decide to renew it. */
  ghost predicate DoPollSubscriber(s: State, s': State) {
    var p := s.perf;
    match p.pc
    case FirstCheck =>
      s' == s.(perf := p.(pc := if s.num != p.snapshot then DropFlag else Register))
    case Register =>
      InfoUnlocked(s.threads) &&
      if !p.registered
      then s' == s.(perf := p.(pc := SecondCheck, registered := true), info := Some(p.host))
      else if s.info.None?
      then s' == s.(perf := p.(pc := DropFlag, consumed := true))
      else || (s.info == Some(p.host) && s' == s.(perf := p.(pc := SecondCheck)))
           || s' == s.(perf := p.(pc := UpdateInfo))
    case UpdateInfo =>
      InfoUnlocked(s.threads) &&
      if s.info.None?
      then s' == s.(perf := p.(pc := DropFlag, consumed := true))
      else s' == s.(perf := p.(pc := SecondCheck), info := Some(p.host))
    case SecondCheck =>
      s' == s.(perf := p.(pc := if s.num != p.snapshot then DropFlag else Asleep))
    case _ => false
  }

  /**
   EpochIdNotificationsSubscriber::drop, at the end of an iteration of the wait loop. `Settle` stands for the
   drain that comes with the release of the mutex after the last iteration.
   */
  ghost predicate DoDropSubscriber(s: State, s': State) {
    var p := s.perf;
    match p.pc
    case DropFlag =>
      s' == s.(perf := p.(pc := DropInfo, buf := if p.consumed then p.buf else p.buf + [FlagWrite(false)]))
    case DropInfo =>
      if p.registered
      then InfoUnlocked(s.threads) && HostDrained(s) && s' == s.(perf := AfterDrop(p), info := None)
      else s' == s.(perf := AfterDrop(p))
    case Settle =>
      HostDrained(s) && s' == s.(perf := p.(pc := Finished))
    case _ => false
  }

  ghost predicate DoPerform(s: State, s': State) {
    || DoChooseEpoch(s, s') || DoSubscribe(s, s') || DoScan(s, s')
    || DoPollSubscriber(s, s') || DoDropSubscriber(s, s')
  }

  /** The task of the sleeping performer is polled again, woken or not. */
  predicate DoResume(s: State, s': State, t: ThreadId) {
    && s.perf.pc.Asleep? && Polling(s, t)
    && s' == s.(perf := s.perf.(pc := FirstCheck, host := t, woken := false))
  }

  /** A store of the performer reaches memory, after the older stores of its host. */
  predicate DoDrainPerformer(s: State, s': State) {
    && s.perf.buf != [] && IsThread(s, s.perf.host) && s.threads[s.perf.host].buf == []
    && var rest := s.perf.(buf := s.perf.buf[1..]);
       match s.perf.buf[0]
       case EpochWrite(e) => s' == s.(perf := rest, stale := s.stale + {s.epoch}, epoch := e)
       case FlagWrite(on) => s' == s.(perf := rest, flag := on)
  }

  // ----- steps of a call -----

  /** Which poll every thread is inside of, for the threads that are inside one. */
  ghost function PollsInProgress(threads: seq<Thread>): map<ThreadId, nat> {
    map t | 0 <= t < |threads| && threads[t].pc.InPoll? :: threads[t].polls
  }

  function Goto(s: State, k: CallId, pc: CallPc): seq<Call>
    requires IsCall(s, k)
  {
    s.calls[k := s.calls[k].(pc := pc)]
  }

  function NotifyFollower(c: Call): Call {
    if c.pc.FollowRelease? || c.pc.FollowWait? then c.(notified := true) else c
  }

  function NotifyFollowers(calls: seq<Call>): (r: seq<Call>)
    ensures |r| == |calls|
    ensures forall j | 0 <= j < |calls| :: r[j] == NotifyFollower(calls[j])
  {
    seq(|calls|, j requires 0 <= j < |calls| => NotifyFollower(calls[j]))
  }

  ghost predicate NoWriter(calls: seq<Call>) {
    forall j | 0 <= j < |calls| :: !HoldsWrite(calls[j].pc)
  }

  ghost predicate NoReader(calls: seq<Call>) {
    forall j | 0 <= j < |calls| :: !HoldsRead(calls[j].pc)
  }

  ghost predicate MutexFree(calls: seq<Call>) {
    forall j | 0 <= j < |calls| :: !HoldsMutex(calls[j].pc)
  }

  /** Taking the read lock and an id. The leader of a reset is the call that moves the counter to its maximum. */
  ghost predicate DoTakeId(s: State, s': State, k: CallId) {
    && IsCall(s, k)
    && match s.calls[k].pc
       case WantRead =>
         NoWriter(s.calls) && s' == s.(calls := Goto(s, k, TryIncrement))
       case TryIncrement =>
         if s.started >= s.cfg.gpMax then s' == s.(calls := Goto(s, k, FollowSubscribe))
         else if s.started + 1 == s.cfg.gpMax
         then s' == s.(started := s.started + 1, calls := Goto(s, k, LeadRelease))
         else s' == s.(started := s.started + 1,
                       calls := s.calls[k := s.calls[k].(pc := WantMutex, id := s.started + 1,
                                                         snap := PollsInProgress(s.threads))])
       case _ => false
  }

  /** The leader of a counter reset. */
  ghost predicate DoLead(s: State, s': State, k: CallId) {
    && IsCall(s, k)
    && match s.calls[k].pc
       case LeadRelease =>
         s' == s.(calls := Goto(s, k, LeadWantWrite))
       case LeadWantWrite =>
         NoReader(s.calls) && NoWriter(s.calls) && s' == s.(calls := Goto(s, k, LeadResetStarted))
       case LeadResetStarted =>
         s' == s.(started := 0, calls := Goto(s, k, LeadResetFinished))
       case LeadResetFinished =>
         s' == s.(finished := 0, calls := Goto(s, k, LeadUnlock))
       case LeadUnlock =>
         s' == s.(calls := Goto(s, k, LeadNotify))
       case LeadNotify =>
         s' == s.(calls := NotifyFollowers(s.calls)[k := s.calls[k].(pc := WantRead)])
       case _ => false
  }

  /** A follower of a counter reset. */
  predicate DoFollow(s: State, s': State, k: CallId) {
    && IsCall(s, k)
    && match s.calls[k].pc
       case FollowSubscribe =>
         s' == s.(calls := s.calls[k := s.calls[k].(pc := FollowRelease, notified := false)])
       case FollowRelease =>
         s' == s.(calls := Goto(s, k, FollowWait))
       case FollowWait =>
         s.calls[k].notified && s' == s.(calls := Goto(s, k, WantRead))
       case _ => false
  }

  /** The part under the mutex; `t` is the thread that starts polling the performer. */
  ghost predicate DoSerialized(s: State, s': State, k: CallId, t: ThreadId) {
    && IsCall(s, k)
    && match s.calls[k].pc
       case WantMutex =>
         MutexFree(s.calls) && s' == s.(calls := Goto(s, k, CheckFinished))
       case CheckFinished =>
         s' == s.(calls := Goto(s, k, if s.finished >= s.calls[k].id then Unlock else LoadStarted))
       case LoadStarted =>
         s' == s.(calls := s.calls[k := s.calls[k].(pc := StartPerforming, sampled := s.started)])
       case StartPerforming =>
         Polling(s, t) && s' == s.(calls := Goto(s, k, Performing), perf := s.perf.(pc := LoadEpoch, host := t))
       case Performing =>
         s.perf.pc.Finished?
         && s' == s.(finished := s.calls[k].sampled, calls := Goto(s, k, Unlock), perf := s.perf.(pc := Off))
       case Unlock =>
         s' == s.(calls := Goto(s, k, Release))
       case _ => false
  }

  /** The call releases the read lock and returns, and `wait` turns the old data into its output. */
  predicate DoReturn(s: State, s': State, k: CallId) {
    && IsCall(s, k) && s.calls[k].pc.Release?
    && s' == s.(calls := s.calls[k := s.calls[k].(pc := Done, olds := {})], owned := s.owned + s.calls[k].olds)
  }

  /** `wait` on any number of old data values at once starts a call. */
  predicate DoBegin(s: State, s': State, k: CallId, olds: set<BoxId>) {
    && IsCall(s, k) && s.calls[k].pc.Idle? && olds <= s.loose
    && s' == s.(calls := s.calls[k := s.calls[k].(pc := WantRead, olds := olds)], loose := s.loose - olds)
  }

  // ----- steps of the users of RCU boxes -----

  datatype Client =
    | AllocateBox(b: BoxId) | FreeBox(b: BoxId)
    | NewCell(b: BoxId) | Swap(cell: nat, b: BoxId)
    | Read(t: ThreadId, cell: nat) | EndRead(t: ThreadId, b: BoxId)

  predicate DoClient(s: State, s': State, a: Client) {
    match a
    case AllocateBox(b) =>
      b !in s.heap && s' == s.(heap := s.heap + {b}, owned := s.owned + {b})
    case FreeBox(b) =>
      b in s.owned && s' == s.(heap := s.heap - {b}, owned := s.owned - {b})
    case NewCell(b) =>
      b in s.owned && s' == s.(cells := s.cells + [b], owned := s.owned - {b})
    case Swap(cell, b) =>
      && cell < |s.cells| && b in s.owned
      && s' == s.(cells := s.cells[cell := b], owned := s.owned - {b}, loose := s.loose + {s.cells[cell]})
    case Read(t, cell) =>
      && Polling(s, t) && t < |s.held| && cell < |s.cells|
      && s' == s.(held := s.held[t := s.held[t] + {s.cells[cell]}])
    case EndRead(t, b) =>
      t < |s.held| && s' == s.(held := s.held[t := s.held[t] - {b}])
  }

  // ----- runs -----

  datatype Step =
    | HookOf(t: ThreadId, h: Hook, th: Thread, mem: ThreadState)
    | AllocateOf(t: ThreadId, i: nat) | ReleaseOf(t: ThreadId) | StopFenceOf(t: ThreadId)
    | NotifyOf(t: ThreadId)
    | PerformOf | ResumeOf(t: ThreadId) | DrainPerformerOf
    | BeginOf(k: CallId, olds: set<BoxId>) | TakeIdOf(k: CallId) | LeadOf(k: CallId) | FollowOf(k: CallId)
    | SerializedOf(k: CallId, t: ThreadId) | ReturnOf(k: CallId)
    | ClientOf(a: Client)

  ghost predicate NextBy(s: State, s': State, step: Step) {
    match step
    case HookOf(t, h, th, mem) => DoHook(s, s', t, h, th, mem)
    case AllocateOf(t, i) => DoAllocate(s, s', t, i)
    case ReleaseOf(t) => DoRelease(s, s', t)
    case StopFenceOf(t) => DoStopFence(s, s', t)
    case NotifyOf(t) => DoNotify(s, s', t)
    case PerformOf => DoPerform(s, s')
    case ResumeOf(t) => DoResume(s, s', t)
    case DrainPerformerOf => DoDrainPerformer(s, s')
    case BeginOf(k, olds) => DoBegin(s, s', k, olds)
    case TakeIdOf(k) => DoTakeId(s, s', k)
    case LeadOf(k) => DoLead(s, s', k)
    case FollowOf(k) => DoFollow(s, s', k)
    case SerializedOf(k, t) => DoSerialized(s, s', k, t)
    case ReturnOf(k) => DoReturn(s, s', k)
    case ClientOf(a) => DoClient(s, s', a)
  }

  ghost predicate Next(s: State, s': State) {
    exists step :: NextBy(s, s', step)
  }

  ghost predicate IsRun(run: seq<State>) {
    && |run| > 0 && Init(run[0])
    && forall i :: 0 <= i < |run| - 1 ==> Next(run[i], run[i + 1])
  }

  ghost predicate Reachable(s: State) {
    exists run :: IsRun(run) && run[|run| - 1] == s
  }

  /** A step from a reachable state reaches its end state. */
  lemma Extend(s: State, s': State, step: Step)
    requires Reachable(s) && NextBy(s, s', step)
    ensures Reachable(s')
  {
    assert Next(s, s');
    hide Next, NextBy, Init;
    var run :| IsRun(run) && run[|run| - 1] == s;
    var longer := run + [s'];
    assert IsRun(longer);
    assert longer[|longer| - 1] == s';
  }
}
