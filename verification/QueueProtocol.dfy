/**
 * The bounded queue of Common/esif_queue.c and the event of Common/esif_ccb_sem.h that its consumers
 * sleep on, for any number of threads and every interleaving. The event is the state machine of
 * TimedWaits; a thread of the queue that is inside one of its functions takes the steps of that machine.
 * Each step is one lock operation, one semaphore operation or one access made under a lock.
 *
 * A queue is created with one timeout for all its consumers: either they all wait without one, or with.
 */
module QueueProtocol {
  import opened Base
  import opened Tally
  import E = TimedWaits

  /** What a thread may ask for. */
  datatype Op =
    | Enqueue(item: Address)
    | Requeue(item: Address)
    | Pull
    | Dequeue
    | SignalEvent

  /** Where a thread stands: what it does next. */
  datatype Pc =
    | Idle
    // esif_queue_enqueue and esif_queue_requeue
    | PutLock(item: Address, front: bool)
    | PutItem(item: Address, front: bool)
    | PutSet    // in esif_ccb_event_set, with the queue locked
    | PutUnlock
    // esif_queue_signal_event
    | Signal    // in esif_ccb_event_set
    // esif_queue_pull
    | Waiting   // in esif_ccb_event_wait or esif_ccb_event_try_wait
    // esif_queue_dequeue
    | GetLock
    | GetItem
    | GetReset  // in esif_ccb_event_reset, with the queue locked
    | GetUnlock

  datatype State = State(
    queueLock: Option<nat>, // the thread that holds self->lock
    items: seq<Address>,
    currentSize: int,
    maxSize: nat,
    timed: bool,            // ms_timeout is not ESIF_QUEUE_TIMEOUT_INFINITE
    event: E.State,
    threads: seq<Pc>,
    accepted: seq<Address>, // every item put in so far, at the back or at the front
    returned: bool,         // some item was put at the front
    delivered: seq<Address>) // every item taken out so far

  /** After esif_queue_create. */
  ghost predicate Initial(s: State) {
    && s.queueLock == None && s.items == [] && s.currentSize == 0
    && E.Initial(s.event) && |s.event.threads| == |s.threads|
    && s.accepted == [] && !s.returned && s.delivered == []
    && forall i :: 0 <= i < |s.threads| ==> s.threads[i] == Idle
  }

  /** `Expire` is a timed semaphore wait giving up. */
  datatype Step = Begin(thread: nat, op: Op) | Act(thread: nat) | Expire(thread: nat)

  predicate InEvent(pc: Pc) {
    pc.PutSet? || pc.Signal? || pc.Waiting? || pc.GetReset?
  }

  /** The step that the event's machine takes for a thread inside one of its functions. */
  function EventStep(step: Step): E.Step {
    if step.Expire? then E.Expire(step.thread) else E.Act(step.thread)
  }

  predicate Enabled(s: State, step: Step) {
    && step.thread < |s.threads|
    && match s.threads[step.thread]
       case Idle => step.Begin?
       case PutLock(_, _) => step.Act? && s.queueLock == None
       case GetLock => step.Act? && s.queueLock == None
       case pc => if InEvent(pc) then !step.Begin? && E.Enabled(s.event, EventStep(step)) else step.Act?
  }

  /** Calling a function of the event. */
  function Call(event: E.State, i: nat, op: E.Op): (t: E.State) {
    if E.Enabled(event, E.Begin(i, op)) then E.Apply(event, E.Begin(i, op)) else event
  }

  function Goto(s: State, i: nat, pc: Pc): State
    requires i < |s.threads|
  {
    s.(threads := s.threads[i := pc])
  }

  function Apply(s: State, step: Step): (t: State)
    requires Enabled(s, step)
  {
    var i := step.thread;
    if step.Begin? then Entered(s, i, step.op)
    else if InEvent(s.threads[i]) then InsideEvent(s, i, EventStep(step))
    else Outside(s, i)
  }

  function Entered(s: State, i: nat, op: Op): State
    requires i < |s.threads|
  {
    match op
    case Enqueue(x) => Goto(s, i, PutLock(x, false))
    case Requeue(x) => Goto(s, i, PutLock(x, true))
    case Pull => Goto(s, i, Waiting).(event := Call(s.event, i, if s.timed then E.TryWait else E.Wait))
    case Dequeue => Goto(s, i, GetLock)
    case SignalEvent => Goto(s, i, Signal).(event := Call(s.event, i, E.Set))
  }

  /** Where a thread goes when it comes back from the event. */
  function After(pc: Pc): Pc {
    match pc
    case PutSet => PutUnlock
    case Waiting => GetLock
    case GetReset => GetUnlock
    case _ => Idle
  }

  function InsideEvent(s: State, i: nat, step: E.Step): State
    requires i < |s.threads| && E.Enabled(s.event, step) && step.thread == i
  {
    var event := E.Apply(s.event, step);
    Goto(s, i, if event.threads[i] == E.Idle then After(s.threads[i]) else s.threads[i]).(event := event)
  }

  function SizeAfterGet(s: State): int {
    if s.items == [] then 0 else s.currentSize - 1
  }

  function Outside(s: State, i: nat): State
    requires i < |s.threads|
  {
    match s.threads[i]
    case PutLock(x, front) => Goto(s, i, PutItem(x, front)).(queueLock := Some(i))
    case PutItem(x, front) =>
      if s.currentSize >= s.maxSize then Goto(s, i, PutUnlock)
      else Goto(s, i, PutSet).(items := if front then [x] + s.items else s.items + [x],
                               currentSize := s.currentSize + 1,
                               accepted := s.accepted + [x],
                               returned := s.returned || front,
                               event := Call(s.event, i, E.Set))
    case PutUnlock => Goto(s, i, Idle).(queueLock := None)
    case GetLock => Goto(s, i, GetItem).(queueLock := Some(i))
    case GetItem =>
      var t := Taken(s);
      if SizeAfterGet(s) == 0 then Goto(t, i, GetReset).(event := Call(s.event, i, E.Reset))
      else Goto(t, i, GetUnlock)
    case GetUnlock => Goto(s, i, Idle).(queueLock := None)
    case _ => s
  }

  function Taken(s: State): (t: State)
    ensures t == s.(items := t.items, currentSize := t.currentSize, delivered := t.delivered)
  {
    if s.items == [] then s.(currentSize := 0)
    else s.(items := s.items[1..], currentSize := s.currentSize - 1, delivered := s.delivered + [s.items[0]])
  }

  // ----- what holds however the queue is used -----

  predicate HoldsQueue(pc: Pc) {
    pc.PutItem? || pc.PutSet? || pc.PutUnlock? || pc.GetItem? || pc.GetReset? || pc.GetUnlock?
  }

  /** Mutual exclusion: whoever stands inside the locked region is the lock's owner. */
  ghost predicate QueueLocked(s: State) {
    && (s.queueLock.Some? ==> s.queueLock.value < |s.threads|)
    && forall i :: 0 <= i < |s.threads| ==> (HoldsQueue(s.threads[i]) <==> s.queueLock == Some(i))
  }

  predicate Sets(pc: E.Pc) {
    pc.SetLock? || pc.SetMark? || pc.SetTest? || pc.SetUp? || pc.SetDown? || pc.SetUnlock?
  }

  predicate Resets(pc: E.Pc) {
    pc.ResetLock? || pc.ResetMark? || pc.ResetUnlock?
  }

  /** A thread stands in the function of the event that the queue has called. */
  predicate Fits(timed: bool, pc: Pc, inner: E.Pc) {
    match pc
    case PutSet | Signal => Sets(inner)
    case Waiting => if timed then E.Tries(inner) else E.Waits(inner)
    case GetReset => Resets(inner)
    case _ => inner == E.Idle
  }

  ghost predicate Linked(s: State) {
    && |s.event.threads| == |s.threads|
    && forall i :: 0 <= i < |s.threads| ==> Fits(s.timed, s.threads[i], s.event.threads[i])
  }

  ghost predicate SizeOk(s: State) {
    && s.currentSize == |s.items| <= s.maxSize
    && forall i :: 0 <= i < |s.threads| && s.threads[i] == GetReset ==> s.items == []
  }

  /** Nothing is lost or invented, and without requeueing the order is first in, first out. */
  ghost predicate Accounts(accepted: seq<Address>, delivered: seq<Address>, items: seq<Address>, returned: bool) {
    && multiset(accepted) == multiset(delivered) + multiset(items)
    && (!returned ==> accepted == delivered + items)
  }

  ghost predicate Delivered(s: State) {
    Accounts(s.accepted, s.delivered, s.items, s.returned)
  }

  ghost predicate BaseInv(s: State) {
    QueueLocked(s) && Linked(s) && SizeOk(s) && Delivered(s)
  }

  /** A step inside the event leaves the queue alone, and the thread inside or on its way out. */
  lemma InsideKeeps(s: State, step: Step)
    requires Enabled(s, step) && InEvent(s.threads[step.thread])
    ensures var i, pc, t := step.thread, s.threads[step.thread], Apply(s, step);
      t == s.(event := t.event, threads := s.threads[i := if t.event.threads[i] == E.Idle then After(pc) else pc])
  {
    hide E.Apply, E.Enabled;
  }

  lemma OutsideQueueLocked(s: State, i: nat)
    requires QueueLocked(s) && i < |s.threads| && !InEvent(s.threads[i]) && s.threads[i] != Idle
    requires s.threads[i].PutLock? || s.threads[i].GetLock? ==> s.queueLock == None
    ensures QueueLocked(Outside(s, i))
  {
    hide Call, Taken, SizeAfterGet;
  }

  lemma ApplyQueueLocked(s: State, step: Step)
    requires QueueLocked(s) && Enabled(s, step)
    ensures QueueLocked(Apply(s, step))
  {
    hide E.Apply, E.Enabled, Call, InsideEvent, Outside;
    if InEvent(s.threads[step.thread]) {
      InsideKeeps(s, step);
      hide Apply;
    } else if !step.Begin? {
      hide Entered;
      OutsideQueueLocked(s, step.thread);
    }
  }

  lemma OutsideSizeOk(s: State, i: nat)
    requires QueueLocked(s) && SizeOk(s) && i < |s.threads| && !InEvent(s.threads[i])
    ensures SizeOk(Outside(s, i))
  {
    assert HoldsQueue(s.threads[i]) ==> forall j :: 0 <= j < |s.threads| && s.threads[j] == GetReset ==> j == i;
    hide QueueLocked, Call;
  }

  lemma ApplySizeOk(s: State, step: Step)
    requires QueueLocked(s) && SizeOk(s) && Enabled(s, step)
    ensures SizeOk(Apply(s, step))
  {
    hide E.Apply, E.Enabled, Call, QueueLocked, InsideEvent, Outside;
    if InEvent(s.threads[step.thread]) {
      InsideKeeps(s, step);
      hide Apply;
    } else if !step.Begin? {
      OutsideSizeOk(s, step.thread);
    }
  }

  /** A function of the event is gone through to its end. */
  lemma KeepsKind(e: E.State, step: E.Step)
    requires E.Enabled(e, step) && !step.Begin?
    ensures var pc, next := e.threads[step.thread], E.Apply(e, step).threads[step.thread];
      && (Sets(pc) ==> Sets(next) || next == E.Idle)
      && (Resets(pc) ==> Resets(next) || next == E.Idle)
      && (E.Tries(pc) ==> E.Tries(next) || next == E.Idle)
      && (E.Waits(pc) ==> E.Waits(next) || next == E.Idle)
    ensures E.Apply(e, step).threads == e.threads[step.thread := E.Apply(e, step).threads[step.thread]]
  {
  }

  lemma CallKind(e: E.State, i: nat, op: E.Op)
    requires i < |e.threads| && e.threads[i] == E.Idle
    ensures Call(e, i, op) == E.Apply(e, E.Begin(i, op)) == e.(threads := e.threads[i := E.Entry(op)])
  {
  }

  /** Thread `i` moves in the queue and in the event as they fit together; no other thread moves. */
  ghost predicate Together(s: State, t: State, i: nat) {
    && i < |t.threads| == |t.event.threads| && t.timed == s.timed
    && |s.threads| == |s.event.threads| == |t.threads|
    && t.threads == s.threads[i := t.threads[i]] && t.event.threads == s.event.threads[i := t.event.threads[i]]
    && Fits(s.timed, t.threads[i], t.event.threads[i])
  }

  lemma InsideTogether(s: State, step: Step)
    requires Enabled(s, step) && InEvent(s.threads[step.thread]) && |s.event.threads| == |s.threads|
    requires Fits(s.timed, s.threads[step.thread], s.event.threads[step.thread])
    ensures Together(s, Apply(s, step), step.thread)
  {
    KeepsKind(s.event, EventStep(step));
    hide E.Apply, E.Enabled, Entered, Outside;
  }

  lemma EnteredTogether(s: State, i: nat, op: Op)
    requires i < |s.threads| == |s.event.threads| && s.event.threads[i] == E.Idle
    ensures Together(s, Entered(s, i, op), i)
  {
    CallKind(s.event, i, E.Set);
    CallKind(s.event, i, if s.timed then E.TryWait else E.Wait);
    hide E.Apply, E.Enabled, Call;
  }

  lemma OutsideTogether(s: State, i: nat)
    requires i < |s.threads| == |s.event.threads| && s.event.threads[i] == E.Idle && !InEvent(s.threads[i])
    ensures Together(s, Outside(s, i), i)
  {
    hide E.Apply, E.Enabled, Call, Taken, SizeAfterGet, E.Tries, E.Waits;
    if s.threads[i].PutItem? {
      CallKind(s.event, i, E.Set);
    } else if s.threads[i].GetItem? {
      CallKind(s.event, i, E.Reset);
    } else {
      assert Outside(s, i).event == s.event;
    }
  }

  lemma StaysLinked(s: State, t: State, i: nat)
    requires Linked(s) && Together(s, t, i)
    ensures Linked(t)
  {
    hide Fits;
  }

  lemma ApplyLinked(s: State, step: Step)
    requires Linked(s) && Enabled(s, step)
    ensures Linked(Apply(s, step))
  {
    var i := step.thread;
    assert Fits(s.timed, s.threads[i], s.event.threads[i]) && |s.event.threads| == |s.threads|;
    hide Linked, Together, Entered, Outside, InsideEvent;
    if InEvent(s.threads[i]) {
      InsideTogether(s, step);
    } else if step.Begin? {
      EnteredTogether(s, i, step.op);
    } else {
      OutsideTogether(s, i);
    }
    StaysLinked(s, Apply(s, step), i);
  }

  lemma PutAccounts(accepted: seq<Address>, delivered: seq<Address>, items: seq<Address>, returned: bool, x: Address)
    requires Accounts(accepted, delivered, items, returned)
    ensures Accounts(accepted + [x], delivered, [x] + items, true)
    ensures Accounts(accepted + [x], delivered, items + [x], returned)
  {
    assert delivered + (items + [x]) == delivered + items + [x];
  }

  lemma TakeAccounts(accepted: seq<Address>, delivered: seq<Address>, items: seq<Address>, returned: bool)
    requires Accounts(accepted, delivered, items, returned) && items != []
    ensures Accounts(accepted, delivered + [items[0]], items[1..], returned)
  {
    assert items == [items[0]] + items[1..];
    assert delivered + items == delivered + [items[0]] + items[1..];
  }

  lemma ApplyDelivered(s: State, step: Step)
    requires Delivered(s) && Enabled(s, step)
    ensures Delivered(Apply(s, step))
  {
    hide Accounts, SizeAfterGet, E.Apply, E.Enabled, Call;
    var pc := s.threads[step.thread];
    if pc.PutItem? {
      PutAccounts(s.accepted, s.delivered, s.items, s.returned, pc.item);
    } else if pc.GetItem? && s.items != [] {
      TakeAccounts(s.accepted, s.delivered, s.items, s.returned);
    }
  }

  lemma ApplyBaseInv(s: State, step: Step)
    requires BaseInv(s) && Enabled(s, step)
    ensures BaseInv(Apply(s, step))
  {
    hide QueueLocked, Linked, SizeOk, Delivered;
    ApplyQueueLocked(s, step);
    ApplyLinked(s, step);
    ApplySizeOk(s, step);
    ApplyDelivered(s, step);
  }

  // ----- what holds when at most one thread waits with a timeout -----

  /** Only these threads pull; everything else is free to all. */
  predicate Permits(pullers: set<nat>, step: Step) {
    step.Begin? && step.op.Pull? ==> step.thread in pullers
  }

  /** What that means for the event: it is set and reset at will. */
  function UseOf(timed: bool, pullers: set<nat>): E.Use {
    E.Use(true, false, if timed then pullers else {}, if timed then {} else pullers)
  }

  /** All consumers wait without a timeout, or at most one thread is a consumer, or there is one thread. */
  predicate SafeUse(timed: bool, n: nat, pullers: set<nat>) {
    !timed || |pullers| <= 1 || n <= 1
  }

  lemma SafeForTheEvent(timed: bool, n: nat, pullers: set<nat>)
    ensures SafeUse(timed, n, pullers) <==> E.SafeUse(n, UseOf(timed, pullers))
  {
    assert pullers + {} == pullers;
  }

  /** A step of the queue is a step of the event or leaves it alone. */
  lemma EventMoves(s: State, step: Step, pullers: set<nat>) returns (inner: Option<E.Step>)
    requires Linked(s) && Enabled(s, step) && Permits(pullers, step)
    ensures match inner
      case None => Apply(s, step).event == s.event
      case Some(e) =>
        && e.thread == step.thread && E.Enabled(s.event, e) && E.Permits(UseOf(s.timed, pullers), e)
        && Apply(s, step).event == E.Apply(s.event, e)
  {
    var i := step.thread;
    assert Fits(s.timed, s.threads[i], s.event.threads[i]);
    hide E.Apply, Linked, Taken;
    if InEvent(s.threads[i]) {
      inner := Some(EventStep(step));
    } else if step.Begin? && step.op.Pull? {
      inner := Some(E.Begin(i, if s.timed then E.TryWait else E.Wait));
    } else if (step.Begin? && step.op.SignalEvent?) || (s.threads[i].PutItem? && s.currentSize < s.maxSize) {
      inner := Some(E.Begin(i, E.Set));
    } else if s.threads[i].GetItem? && SizeAfterGet(s) == 0 {
      inner := Some(E.Begin(i, E.Reset));
    } else {
      inner := None;
    }
  }

  /** A signaled event has no waiters except while a set releases them, and a set in its loop has signaled it. */
  ghost predicate EventOk(e: E.State) {
    && (e.signaled && e.waiters > 0 ==> E.InSetLoop(E.Owner(e)))
    && forall i :: 0 <= i < |e.threads| && (E.InSetLoop(e.threads[i]) || e.threads[i].SetUnlock?) ==> e.signaled
  }

  lemma ApplyEventOk(e: E.State, step: E.Step)
    requires E.Locked(e) && E.LoopOk(e) && EventOk(e) && E.Enabled(e, step)
    ensures EventOk(E.Apply(e, step))
  {
  }

  predicate Awake(e: E.State) {
    e.signaled && e.waiters == 0
  }

  /** On the way from adding an item to having woken the waiters for it. */
  predicate IsWaking(inner: E.Pc) {
    inner.SetLock? || inner.SetMark? || E.InSetLoop(inner)
  }

  /** The event wakes up by a set that is through, and only a reset ends that. */
  lemma StaysAwake(e: E.State, step: E.Step)
    requires E.Locked(e) && E.LoopOk(e) && E.Safe(e) && EventOk(e) && E.Enabled(e, step)
    ensures Awake(e) && !Resets(e.threads[step.thread]) ==> Awake(E.Apply(e, step))
    ensures IsWaking(e.threads[step.thread]) ==>
      IsWaking(E.Apply(e, step).threads[step.thread]) || Awake(E.Apply(e, step))
    ensures E.Apply(e, step).threads == e.threads[step.thread := E.Apply(e, step).threads[step.thread]]
  {
  }

  ghost predicate OwnerWakes(s: State) {
    s.queueLock.Some? && s.queueLock.value < |s.threads| == |s.event.threads|
    && s.threads[s.queueLock.value] == PutSet && IsWaking(s.event.threads[s.queueLock.value])
  }

  /** An item in the queue has been announced, or is just being announced. */
  ghost predicate Announced(s: State) {
    s.items != [] ==> Awake(s.event) || OwnerWakes(s)
  }

  ghost predicate EventInv(s: State, pullers: set<nat>) {
    E.Inv(UseOf(s.timed, pullers), s.event) && EventOk(s.event) && Announced(s)
  }

  /** What a step of thread `i` may rely on. */
  ghost predicate Standing(s: State, i: nat) {
    && i < |s.threads| == |s.event.threads|
    && Fits(s.timed, s.threads[i], s.event.threads[i]) && (s.threads[i] == GetReset ==> s.items == [])
    && (HoldsQueue(s.threads[i]) <==> s.queueLock == Some(i))
  }

  lemma InsideAnnounced(s: State, step: Step)
    requires Enabled(s, step) && InEvent(s.threads[step.thread]) && Standing(s, step.thread) && Announced(s)
    requires E.Locked(s.event) && E.LoopOk(s.event) && E.Safe(s.event) && EventOk(s.event)
    ensures Announced(Apply(s, step))
  {
    StaysAwake(s.event, EventStep(step));
    InsideKeeps(s, step);
    hide E.Apply, E.Enabled, E.Locked, E.LoopOk, E.Safe, EventOk, Entered, Outside;
  }

  lemma EnteredAnnounced(s: State, i: nat, op: Op)
    requires Standing(s, i) && s.threads[i] == Idle && Announced(s)
    ensures Announced(Entered(s, i, op))
  {
    CallKind(s.event, i, E.Set);
    CallKind(s.event, i, if s.timed then E.TryWait else E.Wait);
    hide E.Apply, E.Enabled, Call, IsWaking;
  }

  lemma OutsideAnnounced(s: State, i: nat)
    requires Standing(s, i) && !InEvent(s.threads[i]) && Announced(s)
    requires s.threads[i].PutLock? || s.threads[i].GetLock? ==> s.queueLock == None
    ensures Announced(Outside(s, i))
  {
    if s.threads[i].PutItem? { CallKind(s.event, i, E.Set); }
    if s.threads[i].GetItem? { CallKind(s.event, i, E.Reset); }
    hide E.Apply, E.Enabled, Call;
  }

  lemma ApplyAnnounced(s: State, step: Step)
    requires QueueLocked(s) && Linked(s) && SizeOk(s) && Announced(s) && Enabled(s, step)
    requires E.Locked(s.event) && E.LoopOk(s.event) && E.Safe(s.event) && EventOk(s.event)
    ensures Announced(Apply(s, step))
  {
    var i := step.thread;
    assert Standing(s, i);
    hide E.Apply, E.Enabled, E.Locked, E.LoopOk, E.Safe, EventOk, Standing, QueueLocked, Linked, SizeOk, Announced;
    hide Entered, Outside;
    if InEvent(s.threads[i]) {
      InsideAnnounced(s, step);
    } else if step.Begin? {
      EnteredAnnounced(s, i, step.op);
    } else {
      OutsideAnnounced(s, i);
    }
  }

  lemma ApplyEventInv(s: State, step: Step, pullers: set<nat>)
    requires BaseInv(s) && EventInv(s, pullers) && Enabled(s, step) && Permits(pullers, step)
    requires SafeUse(s.timed, |s.threads|, pullers)
    ensures EventInv(Apply(s, step), pullers) && Apply(s, step).timed == s.timed
  {
    var use := UseOf(s.timed, pullers);
    E.InvSafe(use, s.event);
    SafeForTheEvent(s.timed, |s.threads|, pullers);
    ApplyAnnounced(s, step);
    var inner := EventMoves(s, step, pullers);
    SameQueue(s, step);
    hide Apply, Enabled, E.Apply, E.Enabled, E.UseOk, E.SafeUse, SafeUse, Announced, EventOk, E.Safe, UseOf;
    if inner.Some? {
      E.ApplyInv(use, s.event, inner.value);
      ApplyEventOk(s.event, inner.value);
    }
  }

  lemma SameQueue(s: State, step: Step)
    requires Enabled(s, step)
    ensures var t := Apply(s, step);
      t.timed == s.timed && t.maxSize == s.maxSize && |t.threads| == |s.threads|
  {
    hide E.Apply, E.Enabled, Call, Taken, SizeAfterGet, InsideEvent;
    if InEvent(s.threads[step.thread]) {
      InsideKeeps(s, step);
      hide Apply;
    } else if step.Begin? {
      hide Outside;
    } else {
      hide Entered;
    }
  }

  // ----- over whole runs -----

  ghost predicate Follows(pullers: set<nat>, s: State, t: State) {
    exists step :: Enabled(s, step) && Permits(pullers, step) && t == Apply(s, step)
  }

  ghost predicate IsRun(pullers: set<nat>, run: seq<State>) {
    && run != [] && Initial(run[0])
    && forall k :: 0 < k < |run| ==> Follows(pullers, run[k - 1], run[k])
  }

  lemma {:induction false} RunBaseInv(pullers: set<nat>, run: seq<State>, k: nat)
    requires IsRun(pullers, run) && k < |run|
    ensures BaseInv(run[k])
    ensures run[k].timed == run[0].timed && |run[k].threads| == |run[0].threads|
    decreases k
  {
    if k > 0 {
      hide BaseInv, Apply, Enabled, Permits;
      RunBaseInv(pullers, run, k - 1);
      assert Follows(pullers, run[k - 1], run[k]);
      var step :| Enabled(run[k - 1], step) && Permits(pullers, step) && run[k] == Apply(run[k - 1], step);
      ApplyBaseInv(run[k - 1], step);
      SameQueue(run[k - 1], step);
    }
  }

  lemma {:induction false} RunInv(pullers: set<nat>, run: seq<State>, k: nat)
    requires IsRun(pullers, run) && k < |run| && SafeUse(run[0].timed, |run[0].threads|, pullers)
    ensures BaseInv(run[k]) && EventInv(run[k], pullers)
    decreases k
  {
    hide BaseInv, Apply, Enabled, Permits, EventInv, SafeUse;
    RunBaseInv(pullers, run, k);
    if k == 0 {
      InitialEventInv(run[0], pullers);
    } else {
      RunInv(pullers, run, k - 1);
      RunBaseInv(pullers, run, k - 1);
      assert Follows(pullers, run[k - 1], run[k]);
      var step :| Enabled(run[k - 1], step) && Permits(pullers, step) && run[k] == Apply(run[k - 1], step);
      ApplyEventInv(run[k - 1], step, pullers);
    }
  }

  lemma InitialEventInv(s: State, pullers: set<nat>)
    requires Initial(s)
    ensures EventInv(s, pullers)
  {
    E.InitialInv(UseOf(s.timed, pullers), s.event);
  }

  /** The thread has been counted as waiting and sleeps on the semaphore. */
  predicate Asleep(s: State, i: nat) {
    i < |s.event.threads| && (s.event.threads[i].Sleep? || s.event.threads[i].TryDown?)
  }

  /**
   * No lost wakeup, for consumers without a timeout or a single consumer with one: whenever the queue is
   * not locked and holds an item, the event is signaled, no consumer is counted as waiting, there are as
   * many tokens as consumers without one, and each that sleeps can go on.
   */
  lemma NoLostWakeup(pullers: set<nat>, run: seq<State>, k: nat)
    requires IsRun(pullers, run) && k < |run| && SafeUse(run[0].timed, |run[0].threads|, pullers)
    requires run[k].queueLock == None && run[k].items != []
    ensures var s := run[k];
      && s.event.signaled && s.event.waiters == 0 && s.event.tokens == E.Pending(s.event) + E.InWindow(s.event)
      && forall i: nat :: Asleep(s, i) ==> i < |s.threads| && Enabled(s, Act(i))
  {
    RunInv(pullers, run, k);
    var s := run[k];
    hide IsRun, SafeUse;
    SumNonNegative(E.IsInWindow, s.event.threads);
    forall i: nat | Asleep(s, i)
      ensures i < |s.threads| && Enabled(s, Act(i))
    {
      assert Fits(s.timed, s.threads[i], s.event.threads[i]);
      SumAtLeast(E.IsPending, s.event.threads, i);
    }
  }

  /**
   * However the queue is used: the size is exact and bounded, and what was put in is what came out plus
   * what is still there.
   */
  lemma QueueContents(pullers: set<nat>, run: seq<State>, k: nat)
    requires IsRun(pullers, run) && k < |run|
    ensures var s := run[k];
      && s.currentSize == |s.items| <= s.maxSize
      && multiset(s.accepted) == multiset(s.delivered) + multiset(s.items)
      && (!s.returned ==> s.accepted == s.delivered + s.items)
  {
    RunBaseInv(pullers, run, k);
  }

  /** A thread inside the event can go on, or sleeps without a token, or waits for the owner of the event's lock. */
  lemma InsideGoesOn(s: State, j: nat) returns (step: Step)
    requires Linked(s) && E.Locked(s.event) && E.Safe(s.event) && j < |s.threads| && InEvent(s.threads[j])
    requires s.event.threads[j].Sleep? ==> s.event.tokens > 0
    ensures !step.Begin? && Enabled(s, step)
  {
    assert Fits(s.timed, s.threads[j], s.event.threads[j]);
    if E.Enabled(s.event, E.Act(j)) {
      step := Act(j);
    } else if s.event.threads[j].TryDown? {
      step := Expire(j);
    } else {
      var o := s.event.lock.value;
      assert E.HoldsLock(s.event.threads[o]);
      assert E.Enabled(s.event, E.Act(o));
      assert Fits(s.timed, s.threads[o], s.event.threads[o]);
      step := Act(o);
    }
  }

  /**
   * No deadlock in those uses: as long as some thread is inside one of the operations and not asleep
   * without a token, one of the threads can take a step.
   */
  lemma NoDeadlock(pullers: set<nat>, s: State, i: nat) returns (step: Step)
    requires BaseInv(s) && EventInv(s, pullers) && i < |s.threads| && s.threads[i] != Idle
    requires |s.event.threads| == |s.threads| && (s.event.threads[i].Sleep? ==> s.event.tokens > 0)
    ensures !step.Begin? && Enabled(s, step)
  {
    E.InvSafe(UseOf(s.timed, pullers), s.event);
    var j := if (s.threads[i].PutLock? || s.threads[i].GetLock?) && s.queueLock.Some? then s.queueLock.value else i;
    assert j < |s.threads| && (HoldsQueue(s.threads[j]) <==> s.queueLock == Some(j));
    assert Fits(s.timed, s.threads[j], s.event.threads[j]);
    hide QueueLocked, Linked, SizeOk, Delivered, EventOk, Announced, E.Safe, E.Locked;
    if InEvent(s.threads[j]) {
      step := InsideGoesOn(s, j);
    } else {
      step := Act(j);
    }
  }
}
