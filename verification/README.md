# Proofs about the timers, queues, threads and codecs of the Intel DPTF / IPF sources

The project models the concurrent and algorithmic core of the repository in Dafny and proves what it
is relied on for.

* **Timer manager** (`TimerSpec`, `TimerProofs`, `TimerRuns`, `TimerCallbacks`, `TimerEffects`,
  `TimerHandles`, `TimerOverlap`, `TimerExit`, `TimerWrap`, `TimerManager`). Every region under the
  manager's lock is one step, a user callback is a step that begins it and a step that ends it, and the
  OS may deliver any handle that was ever armed, late and repeatedly. One inductive invariant carries
  the safety theorems. The class `Manager` performs the same steps on objects updated in place and is
  proved equal to them.
* **Event, queue and joinable thread** (`TimedWaits`, `TimedWaitsBound`, `SetWakes`, `EventSteps`,
  `TimedEventWait`, `QueueProtocol`, `QueueOrder`, `QueueBound`, `WaitableThread`, `BlockingQueue`).
  State machines with a program counter per thread, any number of threads, and one lock, semaphore or
  shared-memory operation per step; the queue's machine contains the event's. `BlockingQueue` has the
  functions as methods on objects, the event's proved to do what the machine's steps of one undisturbed
  thread do.
* **Doubly linked list** (`LinkList`). Heap nodes with a ghost sequence of them; every operation is tied
  to a sequence operation.
* **SHA and Base64** (`ShaBytes`, `Sha1`, `Sha256`, `Sha512`, `ShaSpec`, `ShaBits`, `ShaConstants`,
  `ShaExample`, `Sha1Example`, `Sha256Example`, `Sha384Example`, `Sha512Example`, `Sha`, `Base64`).
  Buffers and bit arithmetic, proved against FIPS 180-4 and RFC 4648. The definitions themselves are
  pinned bit by bit, by the derivation of their constants and by the examples with every round checked.
* **Deferred work queue and glob matcher** (`DeferredQueue`, `DeferredRuns`, `DeferredEmptying`,
  `DeferredWorkItems`, `Glob`). The methods of the class `DeferredWorkItemQueue` are proved to do what
  their steps do in the runs.

`Base` holds shared types and `Tally` sums over threads.

## Findings

* `esif_link_list_insert_ordered` documents `ESIF_E_UNSPECIFIED` when no gap is accepted; the code
  returns `ESIF_E_ORDERED_INSERT`, and so does the model.
* The Base64 decoder's `strchr` also finds the terminator of its list of white space characters, so NUL
  counts as white space; a last group may end in '=' followed by a letter, and may have bits set that
  belong to no byte. So several texts decode to the same bytes (`Base64.AcceptedTexts`), and an accepted
  text need not be an encoding (`Base64.EncodingIffCanonical`).
* The deferred queue's timer is handed whole milliseconds and refuses 0, so a deadline less than a
  millisecond ahead makes `startTimer` throw (`DeferredQueue.TimerFailsIff`). The item then stays queued
  and the timer as it was, perhaps not set. A queue is safe from that if and only if it is given whole
  milliseconds only (`DeferredRuns.AlwaysArmedIff`). Thrown in `enqueue`, `dequeue` or `removeIfMatches`
  the exception reaches the caller and the system goes on; thrown in the timer callback (`First` or
  `Turn`) it leaves through a C function with no handler above it, which ends the process: the state
  `Escaped`.
* `makeEmpty` cancels the timer, which waits for its callback, with the mutex held that the callback
  needs. For any deadline there is a run in which it hangs; only a queue into which nothing is put, or
  which is never emptied, is safe (`DeferredEmptying.NeverHangsIff`). The destructor empties the queue,
  too.
* With 2^32 sets the callback handles come round: a superseded set can fire, and two callbacks of one
  timer can run at once. With fewer neither can (`TimerWrap.BoundIsExact`,
  `TimerWrap.CallbackBoundIsExact`).
* A timer's handle is chosen in one locked region and listed in another. Two timers can come to share a
  handle if 2^32 handles are tried while an init is in flight, and not before
  (`TimerOverlap.OverlapBoundIsExact`); two threads suffice (`TimerOverlap.Collision`).
* A timed wait can block for good with the event's lock held, or take the waiter count below zero. It
  cannot if nobody waits with a timeout; or if waiters are never released without a set, and nobody
  resets or at most one thread waits. In every other use of several threads it can
  (`TimedWaitsBound.TimedWaitsSafeIff`). So can the consumers of a queue with a timeout, as soon as
  there are two (`QueueBound.QueueSafeIff`).
* A token may go to a thread that entered after the set. When a set wakes all it finds waiting is
  `SetWakes.SetWakesIff`.
* `EsifTimedEventWait` lets a timer release an untimed wait. If the timer is faster than the thread, the
  wait has no timeout any more (`TimedEventWait.ReturnsIff`).

## Assumptions

Allocation succeeds, semaphores and locks are ideal, and the event's signal count does not wrap. The
timer handle counter does wrap, and the theorems about it cover that. All four hash types are compiled
in, and the machine is little-endian, as the source assumes. The list's node count wraps at 2^32.

## Model

| member | source | states |
|---|---|---|
| TimerRuns.OneCallbackAtATime | Common/esif_ccb_timer.c:478-524 | in every state of every run each timer has at most one callback running, and a timer with a running callback is listed, flagged as in its callback, and not freed |
| TimerRuns.KillIsFinal | Common/esif_ccb_timer.c:273-318 | after a kill that returned OK no callback of the timer it found ever begins again, whatever is pending or delivered later |
| TimerRuns.SetFiresAtMostOnce | Common/esif_ccb_timer.c:478-500 | a callback handle that has started a callback starts none again, however often the OS delivers it |
| TimerRuns.SupersededNeverFires | Common/esif_ccb_timer.c:368-380 | once a later set has reached the timer, delivering the handle of an earlier set starts nothing |
| TimerRuns.StartFacts | Common/esif_ccb_timer.c:486-500 | a callback starts only through the delivery of the timer's latest, unused handle, for a timer not killed and with no callback running |
| TimerEffects.DeliveryStartsIff | Common/esif_ccb_timer.c:478-508 | in every run a delivery starts the callback of a timer if and only if it is listed, anywhere in the list, was not killed and has no callback running, and the handle is its latest and unused; then exactly that callback and that handle are added to the records |
| TimerEffects.DeliveryOrNothing | Common/esif_ccb_timer.c:486-490 | a delivery that starts no callback changes nothing |
| TimerEffects.SetArms | Common/esif_ccb_timer.c:328-385 | a set of any listed timer that was not killed: outside its callback it returns OK if and only if the OS accepts, and then exactly one new handle is armed with the timeout given; inside it returns OK and arms nothing yet; the handle becomes the timer's latest |
| TimerEffects.SetFails | Common/esif_ccb_timer.c:335-366 | without a handle, with timeout 0, with an unknown handle or one of a killed timer a set returns the error for it and changes nothing |
| TimerEffects.KillWorks | Common/esif_ccb_timer.c:273-309 | a kill of any listed timer returns OK and records it as killed; outside its callback the timer is off the list and freed and the event set, inside it stays with the event behind those waiting and nothing is set |
| TimerEffects.KillMisses | Common/esif_ccb_timer.c:281-316 | a kill that finds no timer returns the error for it, sets its event and changes nothing else |
| TimerEffects.InitWorks | Common/esif_ccb_timer.c:202-238 | with fewer than 10000 timers listed an init succeeds unless the manager is closing, with a handle no listed timer has, and its second half lists the timer at the end |
| TimerRuns.RunInv | Common/esif_ccb_timer.c:257-524 | the inductive invariant of the manager holds in every state of every run with fewer than 2^32 sets |
| TimerRuns.RunGrows | Common/esif_ccb_timer.c:257-524 | killed and freed timers stay so, armed and used handles stay so, and a timer's latest handle only grows |
| TimerRuns.RunIssues | Common/esif_ccb_timer.c:363-374 | a set that reaches a timer issues a handle never issued before, and makes it the timer's latest |
| TimerWrap.BoundIsExact | Common/esif_ccb_timer.c:608-617 | no superseded set fires in any run with at most n sets, if and only if n is less than 2^32 |
| TimerWrap.WrapRevivesHandle | Common/esif_ccb_timer.c:608-617 | 2^32 sets of one timer, the last refused by the OS, bring the callback handle of the first set back; armed by that set alone, its late delivery starts a callback |
| TimerWrap.CallbackBoundIsExact | Common/esif_ccb_timer.c:478-524 | no two callbacks of one timer run at once in any run with at most n sets, if and only if n is less than 2^32 |
| TimerWrap.TwoCallbacksAtOnce | Common/esif_ccb_timer.c:608-617 | 2^32 sets of one timer, the last inside its callback, issue the first handle again, whose late delivery starts a second callback beside the running one |
| TimerProofs.ApplyInv | Common/esif_ccb_timer.c:273-524 | every locked region keeps the invariant: identities, the in-callback flag, the records of handles, pending sets, marks, and the events held |
| TimerProofs.KillInv | Common/esif_ccb_timer.c:273-318 | a kill keeps the invariant, whether it fails, destroys at once or defers |
| TimerProofs.SetInv | Common/esif_ccb_timer.c:328-385 | a set keeps the invariant, whether it arms at once, is kept pending or is refused by the OS |
| TimerProofs.BeginInv | Common/esif_ccb_timer.c:486-500 | starting a callback keeps the invariant for any handle ever armed |
| TimerProofs.EndInv | Common/esif_ccb_timer.c:511-522 | the end of a callback keeps the invariant: the timer is destroyed if it was marked, otherwise its pending set is armed |
| TimerProofs.CreateInv | Common/esif_ccb_timer.c:527-570 | creating a timer keeps the invariant |
| TimerProofs.ListInv | Common/esif_ccb_timer.c:229-238 | listing a created timer keeps the invariant |
| TimerProofs.KillNow | Common/esif_ccb_timer.c:298-309 | a kill outside the callback destroys the timer and sets exactly the event passed with it |
| TimerProofs.EndMarked | Common/esif_ccb_timer.c:513-518 | the return of the callback of a killed timer destroys it and sets the events it held |
| TimerCallbacks.LastSetWins | Common/esif_ccb_timer.c:376-380 | at the return of a callback exactly the last set made since it began is armed, with its handle and timeout, and nothing if there was none or the timer was killed; nothing was armed for it in between |
| TimerCallbacks.CallbackWindow | Common/esif_ccb_timer.c:502-513 | as long as a callback runs its timer stays listed, nothing is armed for it, and the pending timeout is that of the last set |
| TimerCallbacks.SetPlans | Common/esif_ccb_timer.c:793-804 | a set made during the callback replaces any earlier pending one and arms nothing |
| TimerCallbacks.ReturnEffect | Common/esif_ccb_timer.c:807-823 | what the end of a callback arms: the pending handle and timeout if there is one and the OS accepts, otherwise nothing |
| TimerCallbacks.EventsSetOnce | Common/esif_ccb_timer.c:693-731 | events passed to kill are those set plus those held by listed, killed timers in their callback; with no callback running all have been set, each as often as it was passed |
| TimerCallbacks.EventsAreSetAtTheEnd | Common/esif_ccb_timer.c:312-315 | a step sets events only as a failing kill, its own, or by destroying one killed timer whose callback is not running, then all that timer held |
| TimerHandles.NextHandleMeaning | Common/esif_ccb_timer.c:573-605 | allocation tries the successors of the counter in order and takes the first that is not in use |
| TimerHandles.FailsIff | Common/esif_ccb_timer.c:589-600 | allocation fails if and only if the next 10000 handles, counted with wrap-around, are all in use |
| TimerHandles.FewTimersSuffice | Common/esif_ccb_timer.c:573-605 | with fewer than 10000 listed timers allocation succeeds with a handle no listed timer uses, across the wrap too |
| TimerOverlap.ListedHandlesDistinct | Common/esif_ccb_timer.c:202-238 | in every run in which fewer than 2^32 handles are tried while an init is in flight, listed handles are pairwise distinct and each leads to its own timer |
| TimerOverlap.OverlapBoundIsExact | Common/esif_ccb_timer.c:573-605 | listed handles are distinct however inits overlap by at most n tried handles, if and only if n is less than 2^32 |
| TimerOverlap.AtomicInitsDoNotOverlap | Common/esif_ccb_timer.c:202-238 | where no init starts inside another none are tried while one is in flight, so the bound holds with n = 0 |
| TimerOverlap.Collision | Common/esif_ccb_timer.c:202-238 | two threads suffice at the bound: one is held up in its init while the other inits and kills timers until the counter has come round, and both list the same handle; never are there more than two timers |
| TimerExit.ExitDrains | Common/esif_ccb_timer.c:423-446 | the exit kills at most as many timers as were listed when it started, and ends with none listed, no callback running and every event passed to a kill set |
| TimerExit.ExitWaitsForCallback | Common/esif_ccb_timer.c:257-270 | the exiting thread is held up only by a running callback of a killed timer that holds its event, and the return of that callback sets it and shortens the list |
| TimerExit.CallShrinks | Common/esif_ccb_timer.c:404-407 | during the exit no other call adds a timer, and unless one is removed all stay where they are |
| TimerExit.ExitKill | Common/esif_ccb_timer.c:434-436 | the exit's kill of a listed timer either shortens the list or leaves the event with a timer in its callback |
| TimerManager.Manager.FindTimer | Common/esif_ccb_timer.c:620-642 | the loop finds the first listed timer with the handle |
| TimerManager.Manager.FindTimerByCb | Common/esif_ccb_timer.c:645-667 | the loop finds the first listed timer with the callback handle |
| TimerManager.Manager.GetNextHandle | Common/esif_ccb_timer.c:573-605 | the retry loop computes the specified next handle, counter and status |
| TimerManager.Manager.GetNextCbHandle | Common/esif_ccb_timer.c:608-617 | the next 32-bit callback handle, never 0 |
| TimerManager.Manager.CreateItem | Common/esif_ccb_timer.c:527-570 | creating a timer has exactly the specified effect on the manager's state, and fails in the same cases |
| TimerManager.Manager.ListItem | Common/esif_ccb_timer.c:229-238 | listing the timer has exactly the specified effect |
| TimerManager.Manager.DestroyAt | Common/esif_ccb_timer.c:670-708 | all waiting events are set one by one, the timer is freed and taken off the list, and nothing else changes |
| TimerManager.Manager.Mark | Common/esif_ccb_timer.c:300-303 | the timer is marked and the event put behind those already waiting |
| TimerManager.Manager.KillFound | Common/esif_ccb_timer.c:300-308 | the timer found is marked, and destroyed at once unless its callback runs, exactly as specified |
| TimerManager.Manager.KillWithEvent | Common/esif_ccb_timer.c:273-318 | the kill's effect on the whole state and its return code are those of the specification |
| TimerManager.Manager.SetPendingTimeout | Common/esif_ccb_timer.c:807-823 | the pending timeout is handed over at most once and cleared, also when the OS refuses it |
| TimerManager.Manager.SetMsec | Common/esif_ccb_timer.c:328-385 | the set's effect on the whole state and its return code are those of the specification, of which TimerEffects.SetArms and SetFails say what they are |
| TimerManager.Manager.CallbackBegin | Common/esif_ccb_timer.c:478-500 | the first locked region of the callback has exactly the specified effect, of which TimerEffects.DeliveryStartsIff says when it starts the callback |
| TimerManager.Manager.CallbackEnd | Common/esif_ccb_timer.c:511-523 | the second locked region of the callback has exactly the specified effect |
| QueueProtocol.NoLostWakeup | Common/esif_queue.c:128-255 | for consumers without a timeout or a single consumer with one: whenever the queue is unlocked and not empty the event is signaled, no waiter is counted and tokens equal the consumers still without one, so each that sleeps can go on |
| QueueProtocol.RunInv | Common/esif_queue.c:128-255 | the invariants of queue and event hold in those uses after any interleaving of any number of producers and consumers |
| QueueBound.QueueSafeIff | Common/esif_queue.c:232-255 | the exact condition, for any size and any number of threads and consumers: in every run the waiter count never underflows and no consumer blocks with the event's lock held, if and only if the consumers wait without a timeout or there is at most one |
| QueueBound.TwoConsumersStick | Common/esif_queue.c:201-255 | with a timeout and any two consumers, a run in which one puts an item, pulls it and pulls again leaves the other blocked for good with the event's lock held |
| QueueBound.StuckForever | Common/esif_queue.c:232-255 | from there no step of any thread leads out |
| QueueProtocol.EventMoves | Common/esif_queue.c:128-255 | a step of the queue is a step of the event's own machine, made by the same thread and of a kind the use allows, or leaves the event alone |
| TimedWaits.ApplyConserves | Common/esif_ccb_sem.h:113-232 | waiters plus tokens equal the threads counted and not yet served plus releases half done, after every step of a timed or untimed wait, set, reset or release |
| QueueProtocol.ApplyEventOk | Common/esif_ccb_sem.h:135-148 | a signaled event has no waiters except while the loop of a set releases them |
| QueueProtocol.ApplyAnnounced | Common/esif_queue.c:140-150 | an item in the queue has been announced by the event, or its producer still holds the queue's lock on the way to it |
| QueueProtocol.QueueContents | Common/esif_queue.c:128-255 | however the queue is used, the size is exact and within the maximum, what was accepted is what was delivered plus what is queued, and without requeueing the order is first in, first out |
| QueueOrder.RequeuedComesNext | Common/esif_queue.c:166-230 | in every run and use a requeued item is the next one delivered, unless another is requeued in between |
| QueueOrder.KeepsOrder | Common/esif_queue.c:128-230 | what is queued at one time stays together in its order: what was requeued since stands before it, what was enqueued since behind it, and it goes from its front |
| QueueOrder.PutDecides | Common/esif_queue.c:128-197 | a put is refused if and only if the maximum number of items is queued; otherwise the item goes to the back, or to the front when requeued |
| QueueOrder.GetDecides | Common/esif_queue.c:201-230 | a dequeue delivers the first item if there is one, and goes on to reset the event if and only if nothing is left |
| QueueProtocol.NoDeadlock | Common/esif_queue.c:128-255 | in those uses, unless every thread is idle or asleep without a token, some thread can take a step |
| TimedWaits.TimedWaitsSafe | Common/esif_ccb_sem.h:113-232 | in those uses, in every run: the waiter count never underflows and the second semaphore wait, taken under the lock, finds a token |
| TimedWaitsBound.TimedWaitsSafeIff | Common/esif_ccb_sem.h:113-232 | the exact condition, for any number of threads and any choice of those that wait with and without a timeout: every run is safe if and only if nobody waits with a timeout; or waiters are never released without a set, and nobody resets or at most one thread waits; or there is only one thread |
| TimedWaitsBound.TwoWaitersStick | Common/esif_ccb_sem.h:185-232 | with resets, any timed waiter and any second waiter of either kind a run leaves the timed waiter blocked with the lock held |
| TimedWaitsBound.ReleaseUnderflows | Common/esif_ccb_sem.h:160-177 | with a timed waiter and a second thread that releases the waiters without a set, a run takes the waiter count below zero |
| TimedWaits.SetOnlySafe | Common/esif_ccb_sem.h:204-227 | the safety follows from the invariant when the event is neither reset nor its waiters released |
| TimedWaits.SoleWaiterSafe | Common/esif_ccb_sem.h:204-227 | the safety follows from the invariant when only one thread waits, with or without a timeout, while others set and reset |
| TimedWaits.ApplyInv | Common/esif_ccb_sem.h:113-232 | every step of every thread keeps the invariant in each of the safe uses |
| TimedWaitsBound.StuckForever | Common/esif_ccb_sem.h:223-227 | from that state no step of any thread leads out |
| SetWakes.SetWakesIff | Common/esif_ccb_sem.h:113-232 | the exact condition, for both kinds of wait: in every run every set leaves a token for each thread that it finds waiting, if and only if waiters are released without a set only when nobody waits with a timeout, and nobody resets or at most one thread waits; or there is only one thread |
| SetWakes.SetWakesAll | Common/esif_ccb_sem.h:135-148 | in those uses, in every state outside the loop of a set, the threads waiting since before a set are no more than the tokens |
| SetWakes.LeftBehind | Common/esif_ccb_sem.h:113-157 | with resets and any two threads that wait, a run robs one of them of its token, which leaves it asleep although a set found it waiting |
| TimedEventWait.ReturnsIff | ESIF/Products/ESIF_UF/Sources/esif_uf_ccb_timedwait.h:28-58 | the race of EsifTimedEventWait with its own timer is over after at most 13 steps, and the wait has returned if and only if the thread got the event's lock before the timer's callback did |
| TimedEventWait.MayNeverReturn | ESIF/Products/ESIF_UF/Sources/esif_uf_ccb_timedwait.h:28-58 | a timer that is faster than its thread finds nobody to release, and the thread sleeps with no step left that could wake it |
| EventSteps.EnterAlone | Common/esif_ccb_sem.h:113-123 | the protocol's steps of one undisturbed thread that enters a wait note it as waiting exactly if the event is not signaled |
| EventSteps.SetAlone | Common/esif_ccb_sem.h:135-148 | the protocol's steps of one undisturbed set, release loop included, signal the event and turn every counted waiter into a token |
| EventSteps.ResetAlone | Common/esif_ccb_sem.h:152-157 | the protocol's steps of one undisturbed reset clear the signaled state and nothing else |
| EventSteps.SettleAlone | Common/esif_ccb_sem.h:206-229 | the protocol's steps of one undisturbed thread after a timed semaphore wait take it out of the count, or take the token meant for it |
| EventSteps.ReleaseAlone | Common/esif_ccb_sem.h:167-177 | the protocol's steps of one undisturbed release turn every counted waiter into a token and leave the signaled state |
| BlockingQueue.Event.constructor | Common/esif_ccb_sem.h:74-81 | a new event is not signaled and has neither waiters nor tokens |
| BlockingQueue.Event.EnterWait | Common/esif_ccb_sem.h:113-123 | the event and the caller end where the protocol's steps of one undisturbed thread lead in a wait of either kind: asleep and counted, or through |
| BlockingQueue.Event.Set | Common/esif_ccb_sem.h:135-148 | every counted waiter gets a token and the count goes to zero, which is where the protocol's steps of one undisturbed set lead |
| BlockingQueue.Event.Reset | Common/esif_ccb_sem.h:152-157 | only the signaled state is cleared, which is where the protocol's steps of one undisturbed reset lead |
| BlockingQueue.Event.SettleWait | Common/esif_ccb_sem.h:206-229 | the event and the caller end where the protocol's steps of one undisturbed thread lead after its timed semaphore wait, whether a set came in between or not |
| BlockingQueue.Event.ReleaseWaiters | Common/esif_ccb_sem.h:167-177 | every counted waiter gets a token and the signaled state stays, which is where the protocol's steps of one undisturbed release lead |
| BlockingQueue.Queue.constructor | Common/esif_queue.c:57-94 | a new queue is empty |
| BlockingQueue.Queue.Enqueue | Common/esif_queue.c:128-157 | the item goes to the back and all waiters get tokens; a full queue is left as it was |
| BlockingQueue.Queue.Requeue | Common/esif_queue.c:166-197 | the item goes to the front and all waiters get tokens; a full queue is left as it was |
| BlockingQueue.Queue.Dequeue | Common/esif_queue.c:201-230 | the front item comes out, NULL from an empty queue, and the event stays signaled only if items remain |
| BlockingQueue.Queue.Destroy | Common/esif_queue.c:98-124 | items are handed over in order up to the first NULL datum, where the loop stops |
| WaitableThread.JoinSafety | Common/esif_ccb_thread.h:87-102 | in every run the thread is joined at most once, at most one joiner leads, nobody returns before the join has ended, and waiters plus tokens account for followers and leaders |
| WaitableThread.JoinCompletes | Common/esif_ccb_thread.h:87-102 | every run is finite, and one that cannot go on has joined exactly once, released every joiner and left no token |
| WaitableThread.NoDeadlock | Common/esif_ccb_thread.h:87-102 | once the worker has ended some step is possible until every joiner has returned |
| WaitableThread.ApplyConserves | Common/esif_ccb_thread.h:90-99 | each atomic step conserves tokens and keeps exactly one leader while the count is positive |
| WaitableThread.ApplyJoinsOnce | Common/esif_ccb_thread.h:94-96 | each atomic step keeps the join unique and everyone behind it until it has ended |
| WaitableThread.ApplyDecreases | Common/esif_ccb_thread.h:87-102 | each step lowers a measure, so there are finitely many |
| LinkList.List.constructor | Common/esif_link_list.c:70-84 | a new list is empty |
| LinkList.List.NoCycle | Common/esif_link_list.c:112-160 | the links of a valid list admit no node twice |
| LinkList.List.AddNodeAtFront | Common/esif_link_list.c:215-237 | the node becomes the first, links both ways stay exact, a NULL node changes nothing |
| LinkList.List.AddNodeAtBack | Common/esif_link_list.c:279-298 | the node becomes the last, links both ways stay exact, a NULL node changes nothing |
| LinkList.List.AddAtFront | Common/esif_link_list.c:189-211 | a new node with the datum becomes the first |
| LinkList.List.AddAtBack | Common/esif_link_list.c:253-275 | a new node with the datum becomes the last |
| LinkList.List.AddAfter | Common/esif_link_list.c:302-343 | a new node with the datum follows the given node, or comes first after NULL |
| LinkList.List.NodeRemove | Common/esif_link_list.c:424-459 | the node is taken out at its place; a node of another list changes nothing at all |
| LinkList.List.FreeData | Common/esif_link_list.c:112-141 | every datum is handed to the destroy function exactly once, in order, and the list is empty |
| LinkList.List.Destroy | Common/esif_link_list.c:144-160 | the list is emptied and the data are left alone |
| LinkList.List.InsertOrdered | Common/esif_link_list.c:350-421 | the result and the new contents are those of the first gap that the callback does not turn down; otherwise nothing changes |
| LinkList.FirstGapMeaning | Common/esif_link_list.c:368-417 | the n+1 gaps are offered in order; the first that is accepted or refused with an error decides, and only if all are turned down is there no gap |
| LinkList.InsertKeepsSorted | Common/esif_link_list.c:350-421 | with the callback of a total preorder, insertion into a sorted list succeeds, keeps it sorted and adds exactly the datum |
| LinkList.InsertAllSorts | Common/esif_link_list.c:350-421 | inserting any data one by one leaves them sorted, none lost or invented |
| Base64.Encode | Common/esif_sdk_base64_enc.c:58-128 | the return code for every combination of sizes and NULL pointers, with the size macro in 64-bit size_t arithmetic, and on success the text is the encoding by section 4 of RFC 4648 with its terminator and nothing written behind it |
| Base64.SizeIsExactIff | Common/esif_sdk_base64.h:59 | the size macro gives the encoded length if and only if the length is below 3 * 2^62 - 2, where it wraps |
| Base64.AcceptedSizes | Common/esif_sdk_base64.h:59-60 | the limit lets exactly 34,603,023 bytes and no more be encoded, and 46,137,366 characters be decoded |
| Base64.ShiftsAreSextets | Common/esif_sdk_base64_enc.c:90-94 | the encoder's shifts and masks are the four 6-bit groups of the 24-bit group |
| Base64.RoundTrip | Common/esif_sdk_base64_dec.c:89-126 | decoding the encoding gives the bytes back, with any white space after the groups |
| Base64.EncodingDecodes | Common/esif_sdk_base64_enc.c:76-128 | every byte string is what its encoding decodes to |
| Base64.EncodingDigits | Common/esif_sdk_base64_enc.c:72-119 | every digit of an encoding is the character that table 1 of RFC 4648 has for the number its six bits make in the byte string, said by character arithmetic, and '=' stands where no bit is left |
| Base64.DigitIsLetter | Common/esif_sdk_base64_enc.c:62-73 | the encoder's table holds A to Z, a to z, 0 to 9, + and / in this order |
| Base64.ValueOfLetter | Common/esif_sdk_base64_dec.c:60 | the decoder's arithmetic gives each of these characters its number |
| Base64.GroupBits | Common/esif_sdk_base64_dec.c:104-110 | the three bytes of an accepted group have the values of its digits as their bits in sixes, and as many are kept as '=' leaves |
| Base64.Decode | Common/esif_sdk_base64_dec.c:63-131 | the return code and reported length for every input: success if and only if the buffer has exactly the reported size and the text has a meaning; then the bytes are that meaning, and nothing behind the buffer is written |
| Base64.DecodeGroups | Common/esif_sdk_base64_dec.c:96-126 | the loop succeeds if and only if the trimmed text has a meaning, and leaves its bytes |
| Base64.Trim | Common/esif_sdk_base64_dec.c:89-93 | the loop removes exactly the trailing white space, which does not change the meaning |
| Base64.MasksAreBytes | Common/esif_sdk_base64_dec.c:108-110 | the decoder's shifts and masks are the three bytes of the 24-bit group |
| Base64.MeaningIffLayout | Common/esif_sdk_base64_dec.c:97-125 | a text has a meaning exactly if it is whole groups with white space only after groups and '=' only in the last two places |
| Base64.EncodingIffCanonical | Common/esif_sdk_base64_dec.c:97-125 | an accepted text is the encoding of its bytes by section 4 of RFC 4648 if and only if it has no white space, no digit after '=' and zero in the bits of its last digit that belong to no byte |
| Base64.AcceptedTexts | Common/esif_sdk_base64_dec.c:97-118 | ABA=, ABB= and AB=C are all accepted and decode to the same two bytes, whose encoding is the first of them |
| Base64.LayoutLength | Common/esif_sdk_base64_dec.c:112-128 | the decoded length is three bytes a group less one for every '=' |
| Base64.DecodeAll | Common/esif_sdk_base64_dec.c:72-131 | asking for the size and decoding into a buffer of that size succeeds exactly for texts with a meaning and returns it |
| Base64.EncodeAndDecode | Common/esif_sdk_base64_enc.c:76-128 | any bytes within the size limit come back from encoding, asking for the size and decoding |
| Base64.DecodeSpread | Common/esif_sdk_base64_dec.c:120-125 | they also come back when white space was put after the groups |
| Sha.HashInPieces | Common/esif_sdk_sha.c:317-514 | for every message and every way of cutting it up, init, the updates and finish give the digest that FIPS 180-4 defines for the whole message |
| Sha1Example.DigestIs | Common/esif_sdk_sha.c:73-125 | the SHA-1 digest of abc, with every word of the schedule and every round checked |
| Sha256Example.DigestIs | Common/esif_sdk_sha.c:139-197 | the SHA-256 digest of abc, checked the same way |
| Sha512Example.DigestIs | Common/esif_sdk_sha.c:212-278 | the SHA-512 digest of abc, checked the same way |
| Sha384Example.DigestIs | Common/esif_sdk_sha.c:360-376 | the SHA-384 digest of abc, checked the same way |
| ShaSpec.HashStep | Common/esif_sdk_sha.c:405-415 | the hash value of a message and one more block is one step from that of the message |
| ShaBits.Sha1Rotated | Common/esif_sdk_sha.c:57 | each bit of a word rotated left by 1, 5 or 30 is the bit that many places below, around the end |
| ShaBits.Sha1ChBits | Common/esif_sdk_sha.c:101 | each bit of x chooses between those of y and z |
| ShaBits.Sha1MajBits | Common/esif_sdk_sha.c:107 | each bit is the one that at least two of the words have |
| ShaBits.Sha1ParityBits | Common/esif_sdk_sha.c:104 | each bit is the exclusive or of the three |
| ShaBits.Sha1RoundFunction | Common/esif_sdk_sha.c:99-113 | choice, parity, majority and parity serve twenty rounds each, in this order |
| ShaBits.Sha256BigSigma0Bits | Common/esif_sdk_sha.c:177 | each bit is the exclusive or of those 2, 13 and 22 places above, around the end |
| ShaBits.Sha256BigSigma1Bits | Common/esif_sdk_sha.c:174 | the same with 6, 11 and 25 |
| ShaBits.Sha256SmallSigma0Bits | Common/esif_sdk_sha.c:167 | the same with 7 and 18, and 3 without going around |
| ShaBits.Sha256SmallSigma1Bits | Common/esif_sdk_sha.c:168 | the same with 17 and 19, and 10 without going around |
| ShaBits.Sha256ChBits | Common/esif_sdk_sha.c:175 | each bit of x chooses between those of y and z |
| ShaBits.Sha256MajBits | Common/esif_sdk_sha.c:178 | each bit is the one that at least two of the words have |
| ShaBits.Sha512BigSigma0Bits | Common/esif_sdk_sha.c:255-271 | as for SHA-256, with 28, 34 and 39 in 64 bits |
| ShaBits.Sha512BigSigma1Bits | Common/esif_sdk_sha.c:255-271 | with 14, 18 and 41 |
| ShaBits.Sha512SmallSigma0Bits | Common/esif_sdk_sha.c:243-251 | with 1 and 8, and 7 without going around |
| ShaBits.Sha512SmallSigma1Bits | Common/esif_sdk_sha.c:243-251 | with 19 and 61, and 6 without going around |
| ShaBits.Sha512ChBits | Common/esif_sdk_sha.c:255-271 | each bit of x chooses between those of y and z |
| ShaBits.Sha512MajBits | Common/esif_sdk_sha.c:255-271 | each bit is the one that at least two of the words have |
| Sha.Context.Init | Common/esif_sdk_sha.c:317-396 | each type starts with its initial hash value; an unknown type leaves a context that takes no data |
| Sha.Context.Transform | Common/esif_sdk_sha.c:286-314 | the transform of the context's type processes the block in place as the definition says |
| Sha.Context.CompleteBlock | Common/esif_sdk_sha.c:405-415 | a completed block is hashed, the bit count carried and the block started anew |
| Sha.Context.CompleteBlocks | Common/esif_sdk_sha.c:405-415 | the loop hashes the data as far as it fills blocks |
| Sha.Context.Append | Common/esif_sdk_sha.c:416-417 | what is left over is kept in the block |
| Sha.Context.Update | Common/esif_sdk_sha.c:399-419 | any data extend the message hashed so far; NULL, no data or an idle context change nothing at all |
| Sha.Context.AddLength | Common/esif_sdk_sha.c:457-459 | the 128-bit bit count of the message, with the carry between its halves |
| Sha.Context.Terminate | Common/esif_sdk_sha.c:429-454 | the end mark and zeros fall as sections 5.1.1 and 5.1.2 of FIPS 180-4 prescribe, with a second block when the length does not fit |
| Sha.Context.AppendLength | Common/esif_sdk_sha.c:461-496 | the block ends with the message length in bits, in 8 or 16 bytes, most significant first |
| Sha.Context.SwapWords | Common/esif_sdk_sha.c:475-503 | the digest in memory is the hash value's words in big-endian order, cut to the digest size |
| Sha.Context.Finish | Common/esif_sdk_sha.c:422-514 | the context ends with the digest of the message and takes no more data; an idle context stays as it is |
| Sha1.Transform | Common/esif_sdk_sha.c:73-125 | the in-place SHA-1 transform equals section 6.1.2 of FIPS 180-4 for every block and state |
| Sha1.Schedule | Common/esif_sdk_sha.c:87-94 | the two loops compute the message schedule |
| Sha1.OneRound | Common/esif_sdk_sha.c:98-118 | one pass of the loop is one round of the definition |
| Sha256.Transform | Common/esif_sdk_sha.c:139-197 | the in-place SHA-256 transform equals section 6.2.2 of FIPS 180-4 for every block and state |
| Sha256.Schedule | Common/esif_sdk_sha.c:162-170 | the two loops compute the message schedule |
| Sha256.OneRound | Common/esif_sdk_sha.c:174-190 | one pass of the loop is one round of the definition |
| Sha512.Transform | Common/esif_sdk_sha.c:212-278 | the in-place SHA-512 transform equals section 6.4.2 of FIPS 180-4 for every block and state |
| Sha512.Schedule | Common/esif_sdk_sha.c:243-251 | the two loops compute the message schedule |
| Sha512.OneRound | Common/esif_sdk_sha.c:255-271 | one pass of the loop is one round of the definition |
| ShaSpec.GapIsLeast | Common/esif_sdk_sha.c:451-454 | the number of zero bytes is the least that completes the last block |
| ShaSpec.AddBits | Common/esif_sdk_sha.c:409-411 | adding to the low 64 bits with carry into the high ones counts modulo 2^128 |
| ShaSpec.LengthField | Common/esif_sdk_sha.c:471-496 | the two halves of the bit count, most significant first, are the length field |
| ShaBytes.BigEndianValue | Common/esif_sdk_sha.c:471-472 | the bytes of a length field have the value of the length, as far as it fits |
| ShaBytes.ReorderedInMemory | Common/esif_sdk_sha.c:60 | the shifts and masks of the macro leave any 64-bit number in memory with its most significant byte first |
| ShaBytes.ReorderedLoad32 | Common/esif_sdk_sha.c:59 | a byte-swapped machine word is the big-endian word of FIPS 180-4 |
| ShaBytes.ReorderedLoad64 | Common/esif_sdk_sha.c:60 | the same for 64-bit words |
| ShaBytes.WordOfBytes32 | Common/esif_sdk_sha.c:475-479 | writing a word as bytes and reading it back by the convention of FIPS 180-4 gives the word |
| ShaBytes.WordOfBytes64 | Common/esif_sdk_sha.c:499-503 | the same for 64-bit words |
| ShaBytes.Store32 | Common/esif_sdk_sha.c:80 | writing one word through a word view changes exactly its four bytes |
| ShaBytes.Store64 | Common/esif_sdk_sha.c:236 | writing one word through a word view changes exactly its eight bytes |
| ShaConstants.Sha256Constants | Common/esif_sdk_sha.c:141-150 | the round constants are the fractions of the cube roots of the first 64 primes |
| ShaConstants.Sha512Constants | Common/esif_sdk_sha.c:214-231 | the round constants are the fractions of the cube roots of the first 80 primes |
| ShaConstants.Sha1Constants | Common/esif_sdk_sha.c:75 | the round constants are the square roots of 2, 3, 5 and 10, times 2^30 |
| ShaConstants.Sha256Start | Common/esif_sdk_sha.c:345-352 | the initial value is the fractions of the square roots of the first eight primes |
| ShaConstants.Sha384Start | Common/esif_sdk_sha.c:364-371 | the initial value is the fractions of the square roots of the ninth to sixteenth prime |
| ShaConstants.Sha512Start | Common/esif_sdk_sha.c:381-388 | the initial value is the fractions of the square roots of the first eight primes, in 64 bits |
| Glob.StrMatch | Common/esif_ccb_string.h:66-79 | the matcher terminates and answers true exactly if the string is in the language of the pattern |
| Glob.Sound | Common/esif_ccb_string.h:66-79 | an accepted string can be cut up so that each pattern character allows its piece |
| Glob.Complete | Common/esif_ccb_string.h:66-79 | a string that can be cut up so is accepted |
| Glob.FoldsTogether | Common/esif_ccb_string.h:72 | two characters fold together if and only if they are the same or the two forms of one of the 26 letters |
| Glob.LiteralPattern | Common/esif_ccb_string.h:66-79 | a pattern without wildcards accepts exactly itself in upper and lower case |
| Glob.WildPattern | Common/esif_ccb_string.h:66-79 | question marks accept exactly the strings of their number, and with a star behind them all that are no shorter |
| DeferredRuns.QueueSafety | DPTF/Sources/Manager/DeferredWorkItemQueue.cpp:150-239 | in every run the queue is sorted by deadline with ties in arrival order, every item is in exactly one place, and what went to the immediate queue was found ready not before its deadline |
| DeferredRuns.AlwaysArmed | DPTF/Sources/Manager/DeferredWorkItemQueue.cpp:150-161 | with deadlines in whole milliseconds a queue with items always has the timer set for the first, or a callback just starting; and nothing is lost to an exception |
| DeferredRuns.AlwaysArmedIff | DPTF/Sources/Manager/EsifTimer.cpp:86-105 | the exact condition, for any set of deadlines: the timer is ready for the first item in every state of every run that enqueues only these, if and only if all of them are whole milliseconds |
| DeferredRuns.FractionStalls | DPTF/Sources/Manager/DeferredWorkItemQueue.cpp:40-55 | any other deadline, enqueued in the millisecond in which it is due, throws to the caller and stays queued with no timer set and no callback in flight |
| DeferredQueue.TimerFailsIff | DPTF/Sources/Manager/EsifTimer.cpp:86-105 | setting the timer throws if and only if the first deadline is less than a millisecond ahead; otherwise it is set for the first item |
| DeferredRuns.TimeoutIsExact | DPTF/Sources/Manager/EsifTimer.cpp:86-105 | in every run each step that sets the timer sets it for the first item then queued, with the greatest number of whole milliseconds that ends no later than its deadline, or 1 if that has come; a deadline on the clock is hit exactly |
| DeferredQueue.TimeoutMeaning | DPTF/Sources/Manager/EsifTimer.cpp:99-105 | the timeout handed over is the greatest number of whole milliseconds before a deadline that lies ahead, and 1 for any other |
| DeferredRuns.CallbackLeavesNothingReady | DPTF/Sources/Manager/DeferredWorkItemQueue.cpp:215-239 | when the callback finds nothing more, no item that was ready at its last look is left in the queue |
| DeferredEmptying.NeverHangsIff | DPTF/Sources/Manager/DeferredWorkItemQueue.cpp:68-80 | the exact condition, for any set of deadlines: makeEmpty hangs in no run of the queue if and only if nothing is ever enqueued or makeEmpty is never called |
| DeferredEmptying.EmptyingHangs | DPTF/Sources/Manager/DeferredWorkItemQueue.cpp:68-80 | for every deadline a run of an enqueue, the timer firing and makeEmpty ends with makeEmpty waiting and no step of any thread possible |
| DeferredRuns.ApplyOrdered | DPTF/Sources/Manager/DeferredWorkItemQueue.cpp:40-129 | every operation and callback step keeps the queue in order |
| DeferredRuns.ApplyCounts | DPTF/Sources/Manager/DeferredWorkItemQueue.cpp:40-239 | every operation and callback step accounts for every item |
| DeferredRuns.ApplyTimer | DPTF/Sources/Manager/DeferredWorkItemQueue.cpp:150-161 | every operation and callback step keeps the timer set for the first item |
| DeferredQueue.InsertedSorted | DPTF/Sources/Manager/DeferredWorkItemQueue.cpp:183-200 | insertion keeps the order, the new item behind those with the same deadline, and adds exactly it |
| DeferredQueue.RestSorted | DPTF/Sources/Manager/DeferredWorkItemQueue.cpp:102-129 | removal keeps the rest in order |
| DeferredQueue.PartsCount | DPTF/Sources/Manager/DeferredWorkItemQueue.cpp:109-122 | removal splits the queue into the matching items and the others |
| DeferredWorkItems.DeferredWorkItemQueue.SetTimer | DPTF/Sources/Manager/DeferredWorkItemQueue.cpp:150-161 | the timer is set for the first item with that timeout, left alone for an empty queue, and left as it was where the source throws, which is exactly when the deadline is less than a millisecond ahead |
| DeferredWorkItems.DeferredWorkItemQueue.InsertSorted | DPTF/Sources/Manager/DeferredWorkItemQueue.cpp:183-200 | the loop inserts before the first later deadline |
| DeferredWorkItems.DeferredWorkItemQueue.Enqueue | DPTF/Sources/Manager/DeferredWorkItemQueue.cpp:40-55 | the item is inserted, the maximum updated and the timer set; this is what its step does in the runs |
| DeferredWorkItems.DeferredWorkItemQueue.FirstReady | DPTF/Sources/Manager/DeferredWorkItemQueue.cpp:163-181 | the first item is taken if its deadline has come |
| DeferredWorkItems.DeferredWorkItemQueue.Dequeue | DPTF/Sources/Manager/DeferredWorkItemQueue.cpp:57-66 | the ready item is returned and the timer set for what remains; if that throws, the item is lost, and all that is what its step does in the runs |
| DeferredWorkItems.DeferredWorkItemQueue.RemoveIfMatches | DPTF/Sources/Manager/DeferredWorkItemQueue.cpp:102-129 | exactly the matching items are removed and counted, the others keep their order; this is what its step does in the runs |
| DeferredWorkItems.DeferredWorkItemQueue.MakeEmpty | DPTF/Sources/Manager/DeferredWorkItemQueue.cpp:68-80 | the timer is cancelled and every item signalled in order; this is what its step does in the runs |
| DeferredWorkItems.DeferredWorkItemQueue.TimerCallback | DPTF/Sources/Manager/DeferredWorkItemQueue.cpp:215-239 | items are taken from the front, each ready when it was taken, until the first is not ready or setting the timer throws; those that the immediate queue accepts are passed on in order, and the timer is set for the first item kept; it all is what the callback's steps do in the runs |

## Left out

* NULL receivers (`self == NULL`) and failed allocations, which the sources answer with an error code.
* OS timers, signals, threads, clocks and sleeps: environment steps, or parameters such as `osAccepts` and `now`.
* `esif_ccb_event_uninit`, queue destruction with threads inside, and `esif_ccb_wthread_uninit`: the sources demand that nobody waits then.
- TimerExit.ExitDrains: assumes that no init is in flight when the exit starts, as the source demands; that the exit comes to an end also needs every callback to return.
- TimerManager.Manager.DestroyAt: the timer list and a timer's list of events are sequences here, and the list is not freed when it becomes empty; their pointer form is `LinkList`.
- TimerManager.Manager.CallbackEnd: requires the timer to be listed, which `TimerRuns.OneCallbackAtATime` proves; the callback's own code is not modelled.
- DeferredRuns.AlwaysArmed: takes it that the timer manager refuses no timeout but 0.
- Sha.Context.Update: a byte count so large that adding it to `blockused` overflows `size_t` is not modelled.
- Base64.Encode: assumes that no object is larger than half the address space, 2^63 - 1 bytes.
- Base64.Decode: characters above 127 are taken as outside the alphabet.
- WaitableThread.JoinSafety: the join is a state machine and not a method, because what a call does depends on the interleaving of its atomic operations with those of other threads.
* The searches of the timer list that would loop for ever on a NULL datum, which is never listed.
* The list's and the queue's own creation flags, queue names, statistics (`getCount`, `getXml`) and logging.
* The immediate work queue's own order by priority; its refusal of duplicates is a parameter.
* `esif_ccb_strmemcpy`, `esif_sha_tostring` and `esif_hash_tostring`: one-branch copies and digit tables.
* Files, sockets, libraries, command handlers, arbitrators, data tables and configuration: foreign calls, plumbing or finite tables.
