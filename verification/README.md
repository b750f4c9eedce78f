# Verification of tokio_rcu

A Dafny model of the RCU algorithm of this crate, with proofs about every run of it: any number of threads, any
number of concurrent `synchronize_rcu` calls, any interleaving, any width of the epoch ids from three bits on and of
the grace-period counters, and across any number of overflows of both.

`dafny verify dfyconfig.toml` checks the whole project.

## What is modelled

**The grace-period protocol** (`Protocol.dfy`) is one step machine. It is a state machine over values because its
subject is interleaving: a step is one atomic access, and everything a thread has loaded and not stored yet is part
of its program counter.

- Every thread runs the five hooks. Its stores to its own slot go into a FIFO store buffer; a fence or a
  read-modify-write is enabled only when the buffer is empty. Stores to the global epoch id and to the hint flag go
  through the buffer of the thread that polls the performing call, behind the stores of that thread to its slot.
- The performing call chooses the epoch id (with both branches of the overflow), subscribes, fences, scans slot by
  slot, registers a waker, sleeps, is polled again on any thread, and drops its subscription, round after round.
- `synchronize_rcu` calls take ids under the reset lock, lead or follow a reset of the counters, queue on the mutex,
  find themselves covered, or perform. The reset lock, the mutex and the reset notification are primitives.
- Users allocate boxes, swap them in RCU cells, read them inside task polls, and wait for any number of old values
  with one call. A read-side section lies inside one task poll, as the guard's lifetime enforces in the crate.
- Three kinds of history variables carry the statements: the number of the poll a thread is in, the polls that were
  in progress when a call took its id, and the epoch ids superseded since the last grace period.

The invariant is split by subject (`ThreadInvariant`, `PerformerInvariant`, `CallInvariant`, `CoverInvariant`,
`ChannelInvariant`, `WakeInvariant`, `ClientInvariant`) and put together in `Invariant`. The results about all runs
are in `GracePeriods`, `Readers`, `Epochs`, `Resets`, `Wakeups`, `Subscriptions` and `Progress`.

**Runs that exist.** `HookRuns` shows that every hook call that is allowed where a thread is (`HookOrder`) is a run of
the protocol from its first access to its last. `GracePeriodRun` goes through a grace period step by step at any epoch
id, and `ExampleRun` puts it together, for every width of the counters: one grace period that serves all ids there
are, the leader of a reset after it, and a grace period across the overflow of the epoch ids. So the results about all
runs, those about both phases of the overflow included, speak of states that are reached.

**The hooks and the scan as code** (`Hooks.dfy`): methods over encoded slot words and a store buffer; every access
they make must be the next access of the protocol.

**The reset notification** (`notify.rs`): `WaiterLists` is the intrusive doubly linked list on the heap, with its
back pointers, panicking wakers and panicking waker clones. `Notifications` is the step machine of subscribing,
polling, dropping and notifying, with a counter that wraps at any modulus and with the same two kinds of panics;
`NotificationProofs` has its invariant and results, and `MissedNotification` says exactly when a notification is missed.

**The slot allocator** (`StorageSlots.dfy`): the growable buffer with its free stack, its effect on values, its
histories, the per-thread owners, and that allocation and release are steps of the protocol.

**The rest**: `ThreadStates` (the packed slot word), `RootFutures` (the hook calls of the main thread, each taken
through the protocol, and the polls of the inner future between them), `RcuBoxes` (boxes whose methods are steps of the
protocol, and the waiting future), `WrappingCounters` (remainders).

### Findings

- `finished <= started` does not hold in every reachable state: between the two stores of a reset
  (`src/rcu_core/mod.rs:167-168`) the started counter is 0 and the finished counter is not.
  `Resets.FinishedOvertakesOnlyInsideReset` gives the exact condition, `ExampleRun.FinishedCanOvertakeStarted` a run at
  every width, and `Resets.NobodyReadsCountersInsideReset` shows that no call can notice.
- A notification that was sent after the subscription can be missed. `MissedNotification.MissedExactlyAfterFullTurns`
  is the exact condition: the number of notifications since the subscription is a positive multiple of the counter's
  modulus. The documentation of `Notify::notified` limits this to the time before the first poll; in the code the
  window lasts until the second look of the first poll (`src/rcu_core/notify.rs:323-340`), and
  `MissedNotification.FullTurnsDuringPollAreMissed` is a run for every modulus.
- A waker that panics ends the drain (`src/rcu_core/notify.rs:142-147`), and the waiters still in the list miss the
  notification. `NotificationProofs.ListedSleeperMissesOnlyByPanic` says that nothing else makes a waiter in the list
  miss one, and `MissedNotification.PanicLosesNotification` is a run for every modulus.
- A waiter can complete although no notification was counted after its subscription: one whose notifier was past its
  increment already takes the new waiter out of the list as well (`src/rcu_core/notify.rs:107-148`).
  `MissedNotification.CompletesAtOnceExactlyIfCrowded` says that this happens exactly if such a notifier was at work
  when the waiter subscribed.

## The steps and their source

| step | source |
|---|---|
| `Protocol.HookStep` | src/rcu_core/mod.rs:524-738 |
| `Protocol.DoAllocate` | src/rcu_core/mod.rs:644-661 |
| `Protocol.DoRelease`, `DoStopFence` | src/rcu_core/mod.rs:504-522 |
| `Protocol.DoNotify` | src/rcu_core/epoch_id_update_notifications.rs:281-373 |
| `Protocol.DoChooseEpoch` | src/rcu_core/mod.rs:258-384 |
| `Protocol.DoSubscribe` | src/rcu_core/epoch_id_update_notifications.rs:69-88, src/rcu_core/mod.rs:422-432 |
| `Protocol.DoScan` | src/rcu_core/mod.rs:434-472 |
| `Protocol.DoPollSubscriber` | src/rcu_core/epoch_id_update_notifications.rs:142-254 |
| `Protocol.DoDropSubscriber` | src/rcu_core/epoch_id_update_notifications.rs:257-276 |
| `Protocol.DoTakeId` | src/rcu_core/mod.rs:130-151, 178-192 |
| `Protocol.DoLead` | src/rcu_core/mod.rs:149-177 |
| `Protocol.DoFollow` | src/rcu_core/mod.rs:183-202 |
| `Protocol.DoSerialized` | src/rcu_core/mod.rs:206-250 |
| `Protocol.DoReturn` | src/rcu_core/mod.rs:250-254, src/primitives/rcu_waitable.rs:104-128 |
| `Protocol.DoClient` | src/primitives/rcu_box.rs:80-132 |
| `Notifications.DoWaiter`, `DoUnwind` | src/rcu_core/notify.rs:219-340 |
| `Notifications.DoDrop` | src/rcu_core/notify.rs:346-415 |
| `Notifications.DoNotifier` | src/rcu_core/notify.rs:74-150 |

## Model

| member | source | states |
|---|---|---|
| GracePeriods.GracePeriodGuarantee | src/rcu_core/mod.rs:125-254 | on every run, every task poll that was in progress on any thread at some point before the call took its id has been left, in a step in between, when the call has returned |
| GracePeriods.ReturnedCallWaitedForPolls | src/rcu_core/mod.rs:209-254 | in every reachable state, a returned call, covered or performing, has outlived all polls recorded with its id |
| Readers.NoUseAfterReclaim | src/primitives/rcu_box.rs:96-132 | a pointer that a reader still holds points to a box that is allocated and not the user's, and the reader is inside a task poll |
| Readers.ReturnedBoxesAreUnread | src/primitives/rcu_waitable.rs:104-128 | when `wait` returns, none of its boxes, however many went into the one grace period, is held by any thread |
| Readers.EveryBoxIsInOnePlace | src/primitives/rcu_box.rs:43-53 | a box is allocated if and only if it is in a cell, loose, waited for or the user's, and it is in only one of these places |
| Epochs.FencePairing | src/rcu_core/mod.rs:609-619 | while the scan runs, an active thread is busy in memory, and any other that wakes up loads the new epoch id |
| Epochs.ActiveThreadsAreBusyInMemory | src/rcu_core/mod.rs:595-633 | whatever is in the store buffers, a thread past the fence of its wake-up is marked busy in memory |
| Epochs.NoStaleEpochBetweenGracePeriods | src/rcu_core/mod.rs:313-318 | between grace periods an active thread has published, and is about to publish, only 0 or the current epoch id |
| Epochs.BumpTestIsEquality | src/rcu_core/mod.rs:313-318 | for a busy slot the `>=` test of the normal path passes exactly on the new epoch id |
| Epochs.PassingIsFinal | src/rcu_core/mod.rs:434-472 | a thread that passes the test has nothing older in its buffer or in its hands |
| Epochs.FirstResetScanClearsOldGeneration | src/rcu_core/mod.rs:337-354 | after the first wait of an epoch overflow every other active thread holds only 0 or MIN |
| Epochs.ResetEpochsAreDistinguishable | src/rcu_core/mod.rs:356-380 | during the second wait the epoch ids around are 0, MAX, MIN and MIN+2, four different values |
| Epochs.SlotWordsAreValid | src/rcu_core/thread_state.rs:27-51 | epoch ids stay even and between MIN and MAX, and every slot word in memory or on its way encodes, fits and decodes back |
| Epochs.ParkingKeepsSlotLive | src/rcu_core/mod.rs:531-546 | the bare mask of parking clears the busy flag of a reachable slot word and never yields the vacant word |
| Epochs.AfterPollFindsBusySlot | src/rcu_core/mod.rs:725-728 | `on_after_task_poll` always finds its slot live and busy, with a valid epoch id |
| Resets.CoveredCallNeedsNoGracePeriod | src/rcu_core/mod.rs:209-221 | a call that returns early has an id at most the published one, and all its recorded polls have ended |
| Resets.PublishedIdsAreCovered | src/rcu_core/mod.rs:231-246 | a performer publishes at least its own id and no id that was not taken, and every live id up to it is covered |
| Resets.NewIdsAreNeverCovered | src/rcu_core/mod.rs:136-153 | a new id exceeds what is published and what the current performer will publish |
| Resets.LiveIdsAreDistinct | src/rcu_core/mod.rs:136-153 | no live id is the maximum, live ids are distinct, and only one call performs |
| Resets.FullCounterHasOneLeader | src/rcu_core/mod.rs:149-168 | the counter is at its maximum if and only if a leader has still to store to it, and there is only one such leader |
| Resets.ResetExcludesLiveIds | src/rcu_core/mod.rs:154-168 | while the counters are reset, no call holds an id or a lock on them, and nobody performs |
| Resets.FinishedOvertakesOnlyInsideReset | src/rcu_core/mod.rs:165-168 | `finished <= started` holds if and only if no reset is between its stores or nothing was published before |
| Resets.NobodyReadsCountersInsideReset | src/rcu_core/mod.rs:165-171 | while the counters are out of order, no call is where it reads one |
| Resets.FollowerHasLeader | src/rcu_core/mod.rs:183-202 | a follower that waits in vain so far has a live leader that is still to notify |
| Resets.FollowerWaitsForLeader | src/rcu_core/mod.rs:149-202 | on every run, a call that found the counter full goes on only after another call, a leader, has notified its followers in a step in between |
| Resets.CallsNeverDeadlock | src/rcu_core/mod.rs:129-254 | some unfinished call has a step in the protocol, even if waiting writers hold back new readers, or performs, or only lacks a thread inside a task poll to start performing |
| Progress.SystemProgresses | src/rcu_core/mod.rs:129-488 | from every reachable state with an unfinished call, the hooks of one thread lead to a state in which a call or the performer takes a step of its own, a sleeping performer only after it was woken |
| Progress.SleeperCanBeWoken | src/rcu_core/mod.rs:400-478 | whenever the performer sleeps unwoken there is a thread that wakes it by going through with its hook and its next task poll |
| Progress.GetsPolled | src/rcu_core/mod.rs:504-738 | from any point of its hooks every thread gets into a task poll |
| Wakeups.NoLostWakeup | src/rcu_core/mod.rs:400-478 | while the performer sleeps without a wake-up, a thread fails the scan or is between its slot store and the waker, also when that thread skips itself on parking |
| Wakeups.SkippingOwnParkIsHarmless | src/rcu_core/mod.rs:548-577 | when the thread that polled the performer last may park, its own slot passes the scan |
| Wakeups.WaitingSubscriberIsVisible | src/rcu_core/epoch_id_update_notifications.rs:301-320 | while a subscription waits untaken, the hint flag is up in memory |
| Wakeups.SubscriptionsAreIsolated | src/rcu_core/epoch_id_update_notifications.rs:257-276 | outside of a subscription there is no info, no notifier that will clear the flag, and the flag goes down |
| Wakeups.TakenInfoWakesPerformer | src/rcu_core/epoch_id_update_notifications.rs:345-372 | a taken info means a delivered wake-up, and at most one notifier is clearing the flag |
| Wakeups.PerformerNeverStuck | src/rcu_core/mod.rs:395-488 | unless it sleeps, the performer or a step it waits for can always go on |
| Subscriptions.PollIsReadyExactly | src/rcu_core/epoch_id_update_notifications.rs:142-254 | each look of the subscriber's poll ends it if and only if the counter moved since the subscription or its registered info was taken; otherwise it goes on to sleep, registered under the polling thread |
| Subscriptions.ReadyOnlyIfNotified | src/rcu_core/epoch_id_update_notifications.rs:142-254 | a subscription is answered ready only if a notification was counted since its snapshot or its registered info was taken |
| Subscriptions.RepollFallsAsleep | src/rcu_core/epoch_id_update_notifications.rs:142-254 | whichever way a poll goes that finds its info in place and the counter unmoved, it ends asleep, registered under the thread that polls now |
| Subscriptions.RepollRuns | src/rcu_core/epoch_id_update_notifications.rs:142-254 | and there is such a run from every such state |
| Subscriptions.InfoNamesLastPoller | src/rcu_core/epoch_id_update_notifications.rs:165-230 | an info that is there while the performer sleeps names the thread that polled it last |
| Subscriptions.SubscriptionEndsByNotification | src/rcu_core/epoch_id_update_notifications.rs:69-276 | on every run, a subscription stops being unnotified only in a step in which a notifier counts a notification or takes its info, or its scan passes |
| Subscriptions.DropSkipsOnlyNeedlessStore | src/rcu_core/epoch_id_update_notifications.rs:257-276 | the drop stores to the hint flag unless the info was seen taken, and then the flag is down in memory already |
| Subscriptions.NobodyToWake | src/rcu_core/epoch_id_update_notifications.rs:325-343 | a notifier gives up at its first look at the info if and only if there is none or it is its own and to be skipped |
| Subscriptions.SkipsOwnThread | src/rcu_core/epoch_id_update_notifications.rs:337-360 | a notifier that must skip its own thread leaves info, flag and performer alone while the info names that thread, and never gets to clearing the flag |
| Subscriptions.ParkingNeverWakesOwnTask | src/rcu_core/mod.rs:524-586 | however a thread gets from the mask of parking to sleep, the performer that it polled last keeps its info and stays unwoken |
| Invariant.NextKeepsInv | src/rcu_core/mod.rs:129-738 | every step of every thread, call, notifier, performer and user keeps the whole invariant |
| Invariant.ReachableImpliesInv | src/rcu_core/qs_read_mostly_data.rs:42-45 | the invariant holds in every reachable state |
| ThreadInvariant.HookKeepsFreshLocal | src/rcu_core/mod.rs:580-738 | no access of a hook lets a thread fall back to an older epoch id |
| PerformerInvariant.PassingThreadIsClean | src/rcu_core/mod.rs:437-471 | a slot that passes the test belongs to a thread without stale epoch ids |
| CoverInvariant.ScanKeepsBlocker | src/rcu_core/mod.rs:437-471 | the scan never moves past a thread that is still in a recorded poll |
| CoverInvariant.NewIdIsUncovered | src/rcu_core/mod.rs:136-153 | an id is taken together with the polls in progress, above all ids covered or being covered |
| WakeInvariant.FailingThreadNotifies | src/rcu_core/mod.rs:548-738 | a thread that stops failing the scan is on its way to notify, skipping itself only when it parks |
| GracePeriodRun.GracePeriodRuns | src/rcu_core/mod.rs:258-488 | from any epoch id, the largest one included, there is a run through a whole grace period that ends at the next epoch id |
| ExampleRun.OneGracePeriodServesAllCalls | src/rcu_core/mod.rs:206-254 | for all widths a run in which one grace period lets every call that can have an id return after the poll they interrupted |
| ExampleRun.FinishedCanOvertakeStarted | src/rcu_core/mod.rs:165-168 | for all widths a run into a state with `finished` one below the maximum and `started` at 0 |
| ExampleRun.OverflowRuns | src/rcu_core/mod.rs:322-384 | for all widths that leave enough ids a run through both waits of an epoch overflow to the return of its call |
| Hooks.ThreadSlot.OnThreadUnpark | src/rcu_core/mod.rs:580-642 | waking up makes the protocol's accesses in order and publishes the loaded epoch id, busy, with an empty buffer before the notification |
| Hooks.ThreadSlot.OnThreadPark | src/rcu_core/mod.rs:524-578 | parking clears the busy flag of the last stored state and fences before the notification that skips the own thread |
| Hooks.ThreadSlot.OnAfterTaskPoll | src/rcu_core/mod.rs:684-738 | the loaded epoch id is stored, and the waiters are notified if and only if it is a new one, after a fence |
| Hooks.ScanSlots | src/rcu_core/mod.rs:434-472 | the loop over the slots succeeds if and only if every slot passes the test of the protocol |
| ThreadStates.DecodeInvertsEncode | src/rcu_core/thread_state.rs:27-51 | decoding an encoded state gives it back, and it is never the vacant word |
| ThreadStates.EncodeInvertsDecode | src/rcu_core/thread_state.rs:27-51 | a word decodes to nothing if and only if it is vacant, and otherwise encodes the state it decodes to |
| ThreadStates.MaskParksExactlyPublishedStates | src/rcu_core/mod.rs:534-545 | the mask marks a state not busy if and only if an epoch id has been published; otherwise it would vacate the slot |
| WaiterLists.LinkedIsUnique | src/rcu_core/notify.rs:170-190 | a pointer structure represents only one sequence of waiters |
| WaiterLists.WithoutCutsOut | src/rcu_core/notify.rs:360-405 | removal takes out one occurrence and keeps the order of the rest |
| WaiterLists.Notify.Subscribe | src/rcu_core/notify.rs:219-236 | a new waiter is counted and not in the list, with the counter as its snapshot |
| WaiterLists.Notify.Register | src/rcu_core/notify.rs:255-320 | the lock section of a poll: ready, waker kept or replaced, or linked in front; a panicking clone changes nothing |
| WaiterLists.Notify.Poll | src/rcu_core/notify.rs:241-340 | the whole poll, with notifiers racing between its two looks at the counter; it writes no waker but its own |
| WaiterLists.Notify.NotifyHead | src/rcu_core/notify.rs:107-148 | one turn of the drain loop; the list is well formed when the waker is called |
| WaiterLists.Notify.NotifyWaiters | src/rcu_core/notify.rs:74-150 | all wakers are called once, in list order, up to one that panics, and the rest of the list stays well formed |
| WaiterLists.Notify.Drop | src/rcu_core/notify.rs:346-415 | dropping a waiter removes exactly its own slot wherever it is, and keeps the count of active waiters right |
| NotificationProofs.ActiveWaitersAreCounted | src/rcu_core/notify.rs:152-162 | the count is the length of the duplicate-free list plus the live waiters never registered, so it never underflows |
| NotificationProofs.FastPathSkipsNobody | src/rcu_core/notify.rs:76-95 | at zero every live waiter was registered and taken out already |
| NotificationProofs.CounterShowsNotifications | src/rcu_core/notify.rs:241-253 | a look at the counter shows the notifications since the snapshot if and only if their number is not a multiple of the modulus |
| NotificationProofs.NoLostWakeup | src/rcu_core/notify.rs:323-340 | outside of the list a sleeper's waker was called, panicked, or is about to be called, and only one of these; in the list nothing was sent since, or the drain is under way, or a panic cut it short |
| NotificationProofs.PollIsReadyExactly | src/rcu_core/notify.rs:241-340 | a step of a poll completes it if and only if the counter differs from the snapshot or the waiter was registered and taken out of the list |
| NotificationProofs.CompletionNeedsNotification | src/rcu_core/notify.rs:241-340 | a waiter is complete only if a notification was counted since its subscription, or one was past its increment and not done at its snapshot |
| NotificationProofs.FastPathWritesNothing | src/rcu_core/notify.rs:76-95 | the first look of a notify call changes neither counters nor list nor what a waiter does, and the call is over with it exactly if it finds no active waiter |
| NotificationProofs.DeliveredUnlessWrapped | src/rcu_core/notify.rs:51-66 | a notify call after the subscription leaves the waiter asleep in the list only after a positive multiple of the modulus |
| NotificationProofs.FewNotificationsArrive | src/rcu_core/notify.rs:51-66 | with fewer notifications than the modulus, a notify call that returned has reached every earlier subscriber |
| NotificationProofs.ListedSleeperMissesOnlyByPanic | src/rcu_core/notify.rs:139-149 | with all notifiers done, a sleeper in the list has missed a notification if and only if a panicking waker cut short the drain of one sent since it went to sleep |
| NotificationProofs.ReturningCallNotifiedEveryone | src/rcu_core/notify.rs:71-75 | in the state in which a notify call returns, all waiters that subscribed before it began are notified, below a full turn of the counter |
| MissedNotification.MissedExactlyAfterFullTurns | src/rcu_core/notify.rs:59-66 | for every modulus, `k` notifications since the subscription can be missed if and only if `k` is a positive multiple of it |
| MissedNotification.FullTurnsAreMissed | src/rcu_core/notify.rs:59-66 | for every modulus and multiple, a run in which the notifications come before the first poll |
| MissedNotification.FullTurnsDuringPollAreMissed | src/rcu_core/notify.rs:242-330 | for every modulus and multiple, a run in which they come between the first look of the first poll and its lock section |
| MissedNotification.PanicLosesNotification | src/rcu_core/notify.rs:139-149 | for every modulus, a run in which a sleeper in the list misses a notification because another waker panicked |
| MissedNotification.CompletesAtOnceExactlyIfCrowded | src/rcu_core/notify.rs:107-148 | for every modulus, a waiter can complete with nothing sent since its subscription if and only if a notifier was past its increment and not done when it subscribed |
| StorageSlots.AllocatedIsWellFormed | src/rcu_core/per_thread_storage/thread_storage_slots.rs:177-298 | an allocation makes one vacant or new slot live, grows only if no slot is vacant, and changes no other slot |
| StorageSlots.DeallocatedIsWellFormed | src/rcu_core/per_thread_storage/thread_storage_slots.rs:391-410 | freeing makes exactly that slot vacant and puts it on the free stack |
| StorageSlots.FreedSlotIsReused | src/rcu_core/per_thread_storage/thread_storage_slots.rs:183-205 | freeing and allocating again takes the same slot and restores the allocator |
| StorageSlots.LiveSlotsAreCounted | src/rcu_core/per_thread_storage/thread_storage_slots.rs:91-93 | the free ids are exactly the slots that are not live |
| StorageSlots.LengthIsPeakOfLiveSlots | src/rcu_core/per_thread_storage/thread_storage_slots.rs:183-205 | after every history the array is as long as the most slots ever live at once |
| StorageSlots.ThreadStorageSlots.Alloc | src/rcu_core/per_thread_storage/thread_storage_slots.rs:177-206 | all four branches: the chosen id, the new contents, which branch keeps the buffer, and exhaustion |
| StorageSlots.ThreadStorageSlots.AllocNoCurData | src/rcu_core/per_thread_storage/thread_storage_slots.rs:243-266 | the first allocation makes room for the processors and the main thread, and takes slot 0 |
| StorageSlots.ThreadStorageSlots.GrowCurData | src/rcu_core/per_thread_storage/thread_storage_slots.rs:305-382 | growth in place and by reallocation both append one slot and keep the others |
| StorageSlots.ThreadStorageSlots.Dealloc | src/rcu_core/per_thread_storage/thread_storage_slots.rs:391-410 | the slot is vacant and on top of the free stack, in the same buffer |
| StorageSlots.OwnedThreadStorageSlot.Alloc | src/rcu_core/per_thread_storage/mod.rs:69-76 | fails if and only if the thread has no slot, none is free and the array is full; otherwise the thread owns the slot the allocator picks, or the one it had, and the live slots stay owned by one thread each |
| StorageSlots.OwnedThreadStorageSlot.Dealloc | src/rcu_core/per_thread_storage/mod.rs:82-90 | frees the owned slot if there is one and says so, and no other thread loses its slot |
| StorageSlots.AllocationIsProtocolStep | src/rcu_core/mod.rs:658-661 | whatever slot the allocator picks, taking it is the allocation step of the protocol |
| StorageSlots.DeallocationIsProtocolStep | src/rcu_core/mod.rs:510-521 | the slot of a stopping thread is live, and freeing it is the release step of the protocol |
| HookOrder.ThreadStepsFollowTheHooks | src/rcu_core/mod.rs:504-738 | every step moves every thread along the order in which its hooks may be called |
| HookOrder.SlotlessHooksDoNothing | src/rcu_core/mod.rs:504-586 | a thread without a slot may park, unpark and stop in any order, which leaves it without one; only leaving a task poll is not allowed |
| HookRuns.AllowedCallRuns | src/rcu_core/mod.rs:504-738 | conversely, from every reachable state each hook call that is allowed where a thread rests is a run of that thread to the next rest |
| HookRuns.AllowedCallsRun | src/rcu_core/mod.rs:504-738 | so is every sequence of allowed hook calls |
| HookRuns.FinishNotify | src/rcu_core/epoch_id_update_notifications.rs:301-373 | a notifier gets through from any point with exactly its effect: info taken, flag cleared and performer woken, or all left alone if there is nobody or it must skip its own thread |
| HookRuns.Parks | src/rcu_core/mod.rs:524-586 | `on_thread_park` from its first access to its last, with the exact effect on the subscription: a performer polled last by this thread stays as it is |
| RootFutures.RcuRootFuture.Poll | src/tokio_ext.rs:124-168 | one poll calls exactly its hooks in order, each taken through the protocol, with one poll of the inner future directly between the two task-poll hooks, in first polls and later ones |
| RootFutures.RootCallsAreAllowed | src/tokio_ext.rs:124-168 | a root future pending any number of times calls only allowed hooks and leaves no slot |
| RootFutures.SessionsAreAllowed | src/tokio_ext.rs:61-71 | so does any sequence of root futures on one thread |
| RootFutures.SessionsRun | src/tokio_ext.rs:61-168 | any sequence of root futures, each pending any number of times, is a run of the protocol from every reachable state |
| RootFutures.RootPollsAreTaskPolls | src/tokio_ext.rs:124-168 | a root future pending any number of times polls its inner future once more than that, only the last time with ready, always directly between the two task-poll hooks, which are called for nothing else |
| RootFutures.SessionPollsAreTaskPolls | src/tokio_ext.rs:61-168 | so it is for any sequence of root futures |
| RootFutures.InnerPollsHappenInTaskPolls | src/tokio_ext.rs:142-154 | whenever an inner future is polled, the hook calls so far have put the thread into a task poll |
| RcuBoxes.RcuBox.Read | src/primitives/rcu_box.rs:96-110 | the value is the cell's current box, held by the reading thread from this step of the protocol on |
| RcuBoxes.RcuBox.Swap | src/primitives/rcu_box.rs:114-132 | the swap step of the protocol on this cell: the user's box goes in, and the previous one comes out as loose old data |
| RcuBoxes.RcuWaitableWait.Poll | src/primitives/rcu_waitable.rs:104-147 | the boxes come out once and in their places, in the first poll that finds the grace period over; polls before keep them, and a completed one again is an error |
| RcuBoxes.OutputComesOnce | src/primitives/rcu_waitable.rs:104-147 | however it is polled, the future hands out its tuple exactly once, at the first poll that finds the grace period over |

## Left out

- Cancellation: a started `synchronize_rcu` runs to completion, and `RcuBoxOldData` is never dropped.
- Memory orderings beyond one FIFO store buffer per thread. The stores that reset the counters and the flag store of
  a notifier are taken to be in memory at once, because the release of the lock around them drains them; the steps of
  a call outside of its grace period are not tied to a thread.
- tokio's mutex, reset lock and scheduler, and the locks of parking_lot, which are primitives; the scan and the hooks
  do not model the read lock of the slot array, since the array only ever grows.
- Protocol.DoLead: notifies all followers in one step; `NotificationProofs.ReturningCallNotifiedEveryone` has the state
  in which the real call returns, for fewer notifications than the counter has values and without a panicking waker.
- Protocol.DoPollSubscriber: does not model the identity of wakers, so a poll that finds its own info may renew it or not.
- Wrap-around of the notification counter of the epoch channel between subscribing and the first poll, a limit that
  the code declares.
- Termination of a grace period: a reader may stay in its poll forever. What is proved instead is that nobody misses
  a wake-up and nobody is stuck.
- `block_in_place`, nested executors, a panic in the root future, and thread-local destructors that free a slot
  without a notification.
- StorageSlots.ThreadStorageSlots.Alloc: the panic for too many threads is an error result, and the state that unwinding
  leaves behind is not modelled; the largest number of slots is a parameter, as index_type is not part of this model.
- WaiterLists.Notify.Poll: is one call at a time on the heap, with only counter increments racing; its interleavings are
  those of `Notifications`.
- Notifications.DoNotifier, Notifications.DoDrop: unlink a waiter and decrement the number of active waiters in one step,
  although the fast path reads that number without the lock.
- Hooks.ScanSlots: is one pass over slots that nobody changes meanwhile; the scan over changing slots is
  `Protocol.DoScan`, one slot a step.
- RootFutures.RcuRootFuture.Poll: other threads take no steps between two hook calls; `HookRuns.AllowedCallRuns` starts
  from every reachable state.
- The drop of an RCU box, which has exclusive access, and the loom and std shims, benches and examples.
