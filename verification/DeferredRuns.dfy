/**
 * The deferred work queue over whole runs: any interleaving of its operations, the firing of its
 * timer and the two locked regions of the timer callback.
 *
 * Every step reads the clock as it pleases, in whole milliseconds; the clock may even be set back.
 * The timer may fire at any time after it was set, as timeouts are the OS's business, but while its
 * callback runs a new timeout is only kept pending, which is what the timer manager guarantees.
 *
 * An exception in enqueue, dequeue or removeIfMatches reaches the caller, and the queue goes on. One
 * that leaves the timer callback goes through a C function with no handler above it, which ends the
 * process: after `Escaped` no step is possible.
 */
module DeferredRuns {
  import opened Base
  import opened DeferredQueue

  datatype Callback =
    | NoCallback
    | Started                      // before the dequeue outside the lock
    | Unlocked(held: Option<Work>) // after it
    | Locked(held: Option<Work>)   // in the loop, holding the mutex
    | Escaped                      // an exception left the callback

  datatype State = State(
    queue: seq<Work>,
    timer: Option<Armed>,
    callback: Callback,
    emptying: bool,              // a thread in makeEmpty holds the mutex and waits for the timer's end
    enqueued: seq<Work>,
    taken: seq<(Work, int)>,     // items taken out as ready, with the time at which they were found ready
    moved: multiset<Work>,       // put into the immediate queue
    refused: multiset<Work>,     // refused by the immediate queue, and dropped
    returned: multiset<Work>,    // given to a caller of dequeue
    removed: multiset<Work>,     // by removeIfMatches and makeEmpty
    lost: multiset<Work>)        // taken out when an exception struck

  ghost predicate Initial(s: State) {
    && s.queue == [] && s.timer == None && s.callback == NoCallback && !s.emptying
    && s.enqueued == [] && s.taken == []
    && s.moved == s.refused == s.returned == s.removed == s.lost == multiset{}
  }

  datatype Step =
    | Enqueue(deadline: int, now: int)
    | Dequeue(now: int, later: int)
    | RemoveIfMatches(matches: Work -> bool, now: int)
    | EmptyBegin
    | EmptyEnd
    | Fire
    | First(now: int, later: int)
    | Lock
    | Turn(accepted: bool, now: int, later: int) // one turn of the loop, or its end

  predicate MutexFree(s: State) {
    !s.emptying && !s.callback.Locked?
  }

  predicate OnTheClock(time: int) {
    time % MICROSECONDS_PER_MILLISECOND == 0
  }

  predicate Enabled(s: State, step: Step) {
    s.callback != Escaped &&
    match step
    case Enqueue(_, now) => MutexFree(s) && OnTheClock(now)
    case Dequeue(now, later) => MutexFree(s) && OnTheClock(now) && OnTheClock(later)
    case RemoveIfMatches(_, now) => MutexFree(s) && OnTheClock(now)
    case EmptyBegin => MutexFree(s)
    case EmptyEnd => s.emptying && s.callback == NoCallback
    case Fire => s.timer.Some? && s.callback == NoCallback
    case First(now, later) => MutexFree(s) && s.callback == Started && OnTheClock(now) && OnTheClock(later)
    case Lock => MutexFree(s) && s.callback.Unlocked?
    case Turn(_, now, later) => s.callback.Locked? && OnTheClock(now) && OnTheClock(later)
  }

  function Bag(w: Option<Work>): multiset<Work> {
    if w.Some? then multiset{w.value} else multiset{}
  }

  /** setTimer: whether it threw, and the state after it. */
  function WithTimer(s: State, now: int): (State, bool) {
    var timer := TimerSet(s.queue, s.timer, now);
    if timer.Some? then (s.(timer := timer.value), true) else (s, false)
  }

  /** The body of dequeue up to setTimer. */
  function Taking(s: State, now: int): State {
    var w := Ready(s.queue, now);
    s.(queue := AfterReady(s.queue, now), taken := s.taken + if w.Some? then [(w.value, now)] else [])
  }

  /** What a turn of the loop does with the item in hand. */
  function Passed(s: State, accepted: bool): State
    requires s.callback.Locked?
  {
    if accepted then s.(moved := s.moved + Bag(s.callback.held), callback := Locked(None))
    else s.(refused := s.refused + Bag(s.callback.held), callback := Locked(None))
  }

  function Apply(s: State, step: Step): State
    requires Enabled(s, step)
  {
    match step
    case Enqueue(deadline, now) =>
      var w := Work(|s.enqueued|, deadline);
      WithTimer(s.(queue := Inserted(s.queue, w), enqueued := s.enqueued + [w]), now).0
    case Dequeue(now, later) =>
      var w, (t, ok) := Ready(s.queue, now), WithTimer(Taking(s, now), later);
      if ok then t.(returned := t.returned + Bag(w)) else t.(lost := t.lost + Bag(w))
    case RemoveIfMatches(matches, now) =>
      WithTimer(s.(queue := NotMatching(s.queue, matches),
                   removed := s.removed + multiset(Matching(s.queue, matches))), now).0
    case EmptyBegin => s.(emptying := true, timer := None)
    case EmptyEnd => s.(emptying := false, queue := [], removed := s.removed + multiset(s.queue))
    case Fire => s.(timer := None, callback := Started)
    case First(now, later) =>
      var w, (t, ok) := Ready(s.queue, now), WithTimer(Taking(s, now), later);
      if ok then t.(callback := Unlocked(w)) else t.(callback := Escaped, lost := t.lost + Bag(w))
    case Lock => s.(callback := Locked(s.callback.held))
    case Turn(accepted, now, later) =>
      if s.callback.held == None then s.(callback := NoCallback)
      else
        var u := Passed(s, accepted);
        var w, (t, ok) := Ready(u.queue, now), WithTimer(Taking(u, now), later);
        if ok then t.(callback := Locked(w)) else t.(callback := Escaped, lost := t.lost + Bag(w))
  }

  // ----- invariants -----

  /** In order, with arrival numbers given out so far. */
  ghost predicate Ordered(queue: seq<Work>, arrivals: nat) {
    Sorted(queue) && forall x :: x in queue ==> x.arrival < arrivals
  }

  function Held(c: Callback): multiset<Work> {
    if c.Unlocked? || c.Locked? then Bag(c.held) else multiset{}
  }

  /** How often an item was taken out of the queue as ready and not put anywhere else than here. */
  function Out(s: State, w: Work): nat {
    Held(s.callback)[w] + s.moved[w] + s.refused[w] + s.returned[w] + s.lost[w]
  }

  /** Every item ever enqueued is in exactly one place. */
  ghost predicate Conserved(s: State, w: Work) {
    multiset(s.enqueued)[w] == multiset(s.queue)[w] + s.removed[w] + Out(s, w)
  }

  function Items(taken: seq<(Work, int)>): multiset<Work> {
    if taken == [] then multiset{} else multiset{taken[0].0} + Items(taken[1..])
  }

  ghost predicate InTime(taken: seq<(Work, int)>) {
    forall p :: p in taken ==> p.0.deadline <= p.1
  }

  /** What was moved, refused, returned or lost, or is on the way, was taken, and not before its deadline. */
  ghost predicate NotEarly(s: State, w: Work) {
    InTime(s.taken) && Items(s.taken)[w] == Out(s, w)
  }

  ghost predicate Inv(s: State) {
    Ordered(s.queue, |s.enqueued|) && forall w :: Conserved(s, w) && NotEarly(s, w)
  }

  lemma EnqueueOrdered(queue: seq<Work>, w: Work)
    requires Ordered(queue, w.arrival)
    ensures Ordered(Inserted(queue, w), w.arrival + 1)
  {
    hide Before;
    InsertedSorted(queue, w);
    hide Sorted, Inserted;
    forall x | x in Inserted(queue, w)
      ensures x.arrival < w.arrival + 1
    {
      assert x in multiset(Inserted(queue, w));
    }
  }

  lemma RemoveOrdered(queue: seq<Work>, matches: Work -> bool, n: nat)
    requires Ordered(queue, n)
    ensures Ordered(NotMatching(queue, matches), n)
  {
    RestSorted(queue, matches);
    PartsMembers(queue, matches);
    hide Sorted;
  }

  lemma TakeOrdered(queue: seq<Work>, now: int, n: nat)
    requires Ordered(queue, n)
    ensures Ordered(AfterReady(queue, now), n)
  {
    hide Before;
  }

  lemma TimerOnly(s: State, now: int)
    ensures WithTimer(s, now).0 == s.(timer := WithTimer(s, now).0.timer)
  {
  }

  lemma ApplyOrdered(s: State, step: Step)
    requires Ordered(s.queue, |s.enqueued|) && Enabled(s, step)
    ensures Ordered(Apply(s, step).queue, |Apply(s, step).enqueued|)
  {
    var n := |s.enqueued|;
    assert Ordered([], n);
    hide Ordered, WithTimer, Inserted, NotMatching, Matching, AfterReady, Ready, Bag;
    match step
    case Enqueue(deadline, now) =>
      var w := Work(n, deadline);
      TimerOnly(s.(queue := Inserted(s.queue, w), enqueued := s.enqueued + [w]), now);
      EnqueueOrdered(s.queue, w);
    case Dequeue(now, later) =>
      TimerOnly(Taking(s, now), later);
      TakeOrdered(s.queue, now, n);
    case RemoveIfMatches(matches, now) =>
      TimerOnly(s.(queue := NotMatching(s.queue, matches),
                   removed := s.removed + multiset(Matching(s.queue, matches))), now);
      RemoveOrdered(s.queue, matches, n);
    case First(now, later) =>
      TimerOnly(Taking(s, now), later);
      TakeOrdered(s.queue, now, n);
    case Turn(accepted, now, later) =>
      if s.callback.held.Some? {
        TimerOnly(Taking(Passed(s, accepted), now), later);
        TakeOrdered(s.queue, now, n);
      }
    case _ =>
  }

  lemma TakingCounts(s: State, now: int)
    ensures var t := Taking(s, now);
      && multiset(s.queue) == multiset(t.queue) + Bag(Ready(s.queue, now))
      && Items(t.taken) == Items(s.taken) + Bag(Ready(s.queue, now))
  {
    var w := Ready(s.queue, now);
    if w.Some? {
      assert s.queue == [s.queue[0]] + s.queue[1..];
      ItemsAppend(s.taken, (w.value, now));
    } else {
      assert s.taken + [] == s.taken;
    }
  }

  lemma {:induction false} ItemsAppend(taken: seq<(Work, int)>, p: (Work, int))
    ensures Items(taken + [p]) == Items(taken) + multiset{p.0}
  {
    if taken == [] {
      assert [p][1..] == [];
    } else {
      assert (taken + [p])[1..] == taken[1..] + [p];
      ItemsAppend(taken[1..], p);
    }
  }

  lemma DequeueCounts(s: State, now: int, later: int, w: Work)
    requires Enabled(s, Dequeue(now, later))
    ensures Conserved(s, w) ==> Conserved(Apply(s, Dequeue(now, later)), w)
    ensures NotEarly(s, w) ==> NotEarly(Apply(s, Dequeue(now, later)), w)
  {
    hide WithTimer, AfterReady, Ready, Items, Bag, InTime;
    TimerOnly(Taking(s, now), later);
    TakingCounts(s, now);
    TakingInTime(s, now);
  }

  lemma FirstCounts(s: State, now: int, later: int, w: Work)
    requires Enabled(s, First(now, later))
    ensures Conserved(s, w) ==> Conserved(Apply(s, First(now, later)), w)
    ensures NotEarly(s, w) ==> NotEarly(Apply(s, First(now, later)), w)
  {
    hide WithTimer, Taking, Conserved, NotEarly;
    NextCounts(s, Unlocked(Ready(s.queue, now)), now, later, w);
  }

  lemma TurnCounts(s: State, accepted: bool, now: int, later: int, w: Work)
    requires Enabled(s, Turn(accepted, now, later))
    ensures Conserved(s, w) ==> Conserved(Apply(s, Turn(accepted, now, later)), w)
    ensures NotEarly(s, w) ==> NotEarly(Apply(s, Turn(accepted, now, later)), w)
  {
    hide WithTimer, Taking, Passed, Conserved, NotEarly;
    if s.callback.held.Some? {
      PassedCounts(s, accepted, w);
      var u := Passed(s, accepted);
      NextCounts(u, Locked(Ready(u.queue, now)), now, later, w);
    } else {
      EndCounts(s, w);
    }
  }

  /** Another dequeue of the callback, with nothing in hand before. */
  lemma NextCounts(u: State, c: Callback, now: int, later: int, w: Work)
    requires u.callback == Started || u.callback == Locked(None)
    requires c == Unlocked(Ready(u.queue, now)) || c == Locked(Ready(u.queue, now))
    ensures var x, (t, ok) := Ready(u.queue, now), WithTimer(Taking(u, now), later);
      var next := if ok then t.(callback := c) else t.(callback := Escaped, lost := t.lost + Bag(x));
      && (Conserved(u, w) ==> Conserved(next, w)) && (NotEarly(u, w) ==> NotEarly(next, w))
  {
    hide Taking, WithTimer, Conserved, NotEarly, Bag, Ready;
    if WithTimer(Taking(u, now), later).1 {
      NextFound(u, c, now, later, w);
    } else {
      NextThrows(u, now, later, w);
    }
  }

  lemma NextFound(u: State, c: Callback, now: int, later: int, w: Work)
    requires u.callback == Started || u.callback == Locked(None)
    requires c == Unlocked(Ready(u.queue, now)) || c == Locked(Ready(u.queue, now))
    ensures var next := WithTimer(Taking(u, now), later).0.(callback := c);
      (Conserved(u, w) ==> Conserved(next, w)) && (NotEarly(u, w) ==> NotEarly(next, w))
  {
    NothingInHand(u);
    var next := WithTimer(Taking(u, now), later).0.(callback := c);
    assert Held(c) == Bag(Ready(u.queue, now));
    TakesOnly(u, c, now, later);
    TakingCounts(u, now);
    TakingInTime(u, now);
    hide WithTimer, Taking, Ready, Items, Bag, InTime, Held;
    assert Out(next, w) == Out(u, w) + Bag(Ready(u.queue, now))[w];
    hide Out;
  }

  /** Another dequeue changes the queue, the log of what was taken, the timer and the callback. */
  lemma TakesOnly(u: State, c: Callback, now: int, later: int)
    ensures var next, t := WithTimer(Taking(u, now), later).0.(callback := c), Taking(u, now);
      next == u.(queue := t.queue, taken := t.taken, timer := next.timer, callback := c)
  {
    hide AfterReady, Ready;
    TimerOnly(Taking(u, now), later);
  }

  lemma NextThrows(u: State, now: int, later: int, w: Work)
    requires u.callback == Started || u.callback == Locked(None)
    ensures var t := WithTimer(Taking(u, now), later).0;
      var next := t.(callback := Escaped, lost := t.lost + Bag(Ready(u.queue, now)));
      (Conserved(u, w) ==> Conserved(next, w)) && (NotEarly(u, w) ==> NotEarly(next, w))
  {
    var x := Ready(u.queue, now);
    var v := WithTimer(Taking(u, now), later).0.(callback := Unlocked(x));
    hide WithTimer, Taking, Ready, Conserved, NotEarly;
    NextFound(u, Unlocked(x), now, later, w);
    LostCounts(v, w);
  }

  /** An exception loses what the callback had in hand. */
  lemma LostCounts(v: State, w: Work)
    requires v.callback.Unlocked?
    ensures var next := v.(callback := Escaped, lost := v.lost + Bag(v.callback.held));
      (Conserved(v, w) ==> Conserved(next, w)) && (NotEarly(v, w) ==> NotEarly(next, w))
  {
    hide Items, InTime, Bag;
  }

  lemma NothingInHand(u: State)
    requires u.callback == Started || u.callback == Locked(None)
    ensures Held(u.callback) == multiset{}
  {
  }

  lemma EndCounts(s: State, w: Work)
    requires s.callback == Locked(None)
    ensures Conserved(s, w) ==> Conserved(s.(callback := NoCallback), w)
    ensures NotEarly(s, w) ==> NotEarly(s.(callback := NoCallback), w)
  {
    hide InTime, Items;
  }

  lemma PassedCounts(s: State, accepted: bool, w: Work)
    requires s.callback.Locked?
    ensures Conserved(s, w) ==> Conserved(Passed(s, accepted), w)
    ensures NotEarly(s, w) ==> NotEarly(Passed(s, accepted), w)
    ensures Passed(s, accepted).callback == Locked(None)
  {
    hide InTime, Items;
  }

  lemma TakingInTime(s: State, now: int)
    ensures InTime(s.taken) ==> InTime(Taking(s, now).taken)
  {
  }

  lemma EnqueueCounts(s: State, deadline: int, now: int, w: Work)
    requires Ordered(s.queue, |s.enqueued|) && Enabled(s, Enqueue(deadline, now))
    ensures Conserved(s, w) ==> Conserved(Apply(s, Enqueue(deadline, now)), w)
    ensures NotEarly(s, w) ==> NotEarly(Apply(s, Enqueue(deadline, now)), w)
  {
    hide WithTimer, Inserted, Items, InTime, Before;
    var x := Work(|s.enqueued|, deadline);
    TimerOnly(s.(queue := Inserted(s.queue, x), enqueued := s.enqueued + [x]), now);
    InsertedSorted(s.queue, x);
  }

  lemma RemoveCounts(s: State, matches: Work -> bool, now: int, w: Work)
    requires Enabled(s, RemoveIfMatches(matches, now))
    ensures Conserved(s, w) ==> Conserved(Apply(s, RemoveIfMatches(matches, now)), w)
    ensures NotEarly(s, w) ==> NotEarly(Apply(s, RemoveIfMatches(matches, now)), w)
  {
    hide WithTimer, Matching, NotMatching, Items, InTime;
    PartsCount(s.queue, matches);
    TimerOnly(s.(queue := NotMatching(s.queue, matches),
                 removed := s.removed + multiset(Matching(s.queue, matches))), now);
  }

  lemma OthersCount(s: State, step: Step, w: Work)
    requires Enabled(s, step) && (step.EmptyBegin? || step.Fire? || step.Lock?)
    ensures Conserved(s, w) ==> Conserved(Apply(s, step), w)
    ensures NotEarly(s, w) ==> NotEarly(Apply(s, step), w)
  {
    hide WithTimer, Items, InTime;
  }

  lemma EmptyEndCounts(s: State, w: Work)
    requires Enabled(s, EmptyEnd)
    ensures Conserved(s, w) ==> Conserved(Apply(s, EmptyEnd), w)
    ensures NotEarly(s, w) ==> NotEarly(Apply(s, EmptyEnd), w)
  {
    hide WithTimer, Items, InTime;
  }

  lemma ApplyCounts(s: State, step: Step, w: Work)
    requires Ordered(s.queue, |s.enqueued|) && Enabled(s, step) && Conserved(s, w) && NotEarly(s, w)
    ensures Conserved(Apply(s, step), w) && NotEarly(Apply(s, step), w)
  {
    hide Apply, Conserved, NotEarly, Ordered;
    match step
    case Enqueue(deadline, now) => EnqueueCounts(s, deadline, now, w);
    case Dequeue(now, later) => DequeueCounts(s, now, later, w);
    case RemoveIfMatches(matches, now) => RemoveCounts(s, matches, now, w);
    case First(now, later) => FirstCounts(s, now, later, w);
    case Turn(accepted, now, later) => TurnCounts(s, accepted, now, later, w);
    case EmptyEnd => EmptyEndCounts(s, w);
    case _ => OthersCount(s, step, w);
  }

  // ----- the timer -----

  /** A queue with items in it has the timer set for the first of them, or something is about to see to it. */
  ghost predicate TimerReady(s: State) {
    s.queue != [] && !s.emptying && s.callback != Started ==>
      s.timer.Some? && s.timer.value.deadline == s.queue[0].deadline
  }

  ghost predicate WholeMilliseconds(queue: seq<Work>) {
    forall x :: x in queue ==> OnTheClock(x.deadline)
  }

  /** Deadlines are whole milliseconds wherever they enter. */
  predicate KeepsWholeMilliseconds(step: Step) {
    step.Enqueue? ==> OnTheClock(step.deadline)
  }

  ghost predicate TimerInv(s: State) {
    && TimerReady(s) && WholeMilliseconds(s.queue)
    && (s.callback.Locked? ==> !s.emptying)
    && s.lost == multiset{}
  }

  lemma TimerSetReady(s: State, now: int)
    requires WholeMilliseconds(s.queue) && OnTheClock(now)
    ensures var (t, ok) := WithTimer(s, now);
      ok && t == s.(timer := t.timer) && TimerReady(t)
  {
    if s.queue != [] {
      assert s.queue[0] in s.queue;
      TimerFailsIff(s.queue, s.timer, now);
    }
  }

  lemma TakingWhole(queue: seq<Work>, now: int)
    requires WholeMilliseconds(queue)
    ensures WholeMilliseconds(AfterReady(queue, now))
  {
  }

  lemma EnqueueWhole(queue: seq<Work>, w: Work)
    requires WholeMilliseconds(queue) && OnTheClock(w.deadline)
    ensures WholeMilliseconds(Inserted(queue, w))
  {
    hide InsertedAt, OnTheClock;
  }

  lemma RemoveWhole(queue: seq<Work>, matches: Work -> bool)
    requires WholeMilliseconds(queue)
    ensures WholeMilliseconds(NotMatching(queue, matches))
  {
    PartsMembers(queue, matches);
  }

  lemma ApplyTimer(s: State, step: Step)
    requires TimerInv(s) && Enabled(s, step) && KeepsWholeMilliseconds(step)
    ensures TimerInv(Apply(s, step))
  {
    assert WholeMilliseconds([]);
    hide OnTheClock, WithTimer, Inserted, NotMatching, Matching, AfterReady, WholeMilliseconds, Ready;
    match step
    case Enqueue(deadline, now) =>
      var w := Work(|s.enqueued|, deadline);
      EnqueueWhole(s.queue, w);
      TimerSetReady(s.(queue := Inserted(s.queue, w), enqueued := s.enqueued + [w]), now);
    case Dequeue(now, later) =>
      TakingWhole(s.queue, now);
      TimerSetReady(Taking(s, now), later);
    case RemoveIfMatches(matches, now) =>
      RemoveWhole(s.queue, matches);
      TimerSetReady(s.(queue := NotMatching(s.queue, matches),
                       removed := s.removed + multiset(Matching(s.queue, matches))), now);
    case First(now, later) =>
      TakingWhole(s.queue, now);
      TimerSetReady(Taking(s, now), later);
    case Turn(accepted, now, later) =>
      if s.callback.held.Some? {
        TakingWhole(s.queue, now);
        TimerSetReady(Taking(Passed(s, accepted), now), later);
      }
    case _ =>
  }

  // ----- over runs -----

  ghost predicate Follows(s: State, step: Step, t: State) {
    Enabled(s, step) && t == Apply(s, step)
  }

  ghost predicate IsRun(run: seq<State>, steps: seq<Step>) {
    && |run| == |steps| + 1 && Initial(run[0])
    && forall k :: 0 <= k < |steps| ==> Follows(run[k], steps[k], run[k + 1])
  }

  lemma ApplyInv(s: State, step: Step)
    requires Inv(s) && Enabled(s, step)
    ensures Inv(Apply(s, step))
  {
    hide Ordered, Conserved, NotEarly, Apply, Enabled;
    ApplyOrdered(s, step);
    forall w
      ensures Conserved(Apply(s, step), w) && NotEarly(Apply(s, step), w)
    {
      assert Conserved(s, w) && NotEarly(s, w);
      ApplyCounts(s, step, w);
    }
  }

  lemma InitialInv(s: State)
    requires Initial(s)
    ensures Inv(s)
  {
  }

  lemma {:induction false} RunInv(run: seq<State>, steps: seq<Step>, k: nat)
    requires IsRun(run, steps) && k < |run|
    ensures Inv(run[k])
    decreases k
  {
    hide Inv, Apply, Enabled, Initial;
    if k == 0 {
      InitialInv(run[0]);
    } else {
      RunInv(run, steps, k - 1);
      assert Follows(run[k - 1], steps[k - 1], run[k]);
      ApplyInv(run[k - 1], steps[k - 1]);
    }
  }

  /**
   * In every run, whatever the deadlines: the queue is sorted by deadline with ties in the order of
   * arrival; nothing is lost track of; and an item that went into the immediate queue was found
   * ready at a time not before its deadline.
   */
  lemma QueueSafety(run: seq<State>, steps: seq<Step>, k: nat, w: Work)
    requires IsRun(run, steps) && k < |run|
    ensures var s := run[k];
      && Sorted(s.queue)
      && multiset(s.enqueued)[w] == multiset(s.queue)[w] + Held(s.callback)[w] + s.moved[w] + s.refused[w]
                                    + s.returned[w] + s.removed[w] + s.lost[w]
      && (w in s.moved ==> exists now :: (w, now) in s.taken && w.deadline <= now)
  {
    RunInv(run, steps, k);
    var s := run[k];
    assert Conserved(s, w) && NotEarly(s, w);
    if w in s.moved {
      var p := TakenItem(s.taken, w);
      assert (w, p.1) in s.taken;
    }
  }

  lemma {:induction false} TakenItem(taken: seq<(Work, int)>, w: Work) returns (p: (Work, int))
    requires w in Items(taken)
    ensures p in taken && p.0 == w
  {
    if taken[0].0 == w {
      p := taken[0];
    } else {
      p := TakenItem(taken[1..], w);
    }
  }

  /**
   * If all deadlines are whole milliseconds, then in every run a queue with items in it has its
   * timer set for the first one, unless a callback is just starting or the queue is being emptied;
   * and no operation throws, so nothing is lost.
   */
  lemma {:induction false} AlwaysArmed(run: seq<State>, steps: seq<Step>, k: nat)
    requires IsRun(run, steps) && k < |run|
    requires forall j :: 0 <= j < |steps| ==> KeepsWholeMilliseconds(steps[j])
    ensures TimerInv(run[k])
    decreases k
  {
    hide Apply, Enabled, KeepsWholeMilliseconds;
    if k > 0 {
      AlwaysArmed(run, steps, k - 1);
      assert Follows(run[k - 1], steps[k - 1], run[k]);
      ApplyTimer(run[k - 1], steps[k - 1]);
    }
  }

  /** When the callback ends as it should, no item that was ready at the last look is left behind. */
  lemma CallbackLeavesNothingReady(s: State, now: int, later: int, step: Step)
    requires Sorted(s.queue)
    requires step == First(now, later) || exists a :: step == Turn(a, now, later)
    requires Enabled(s, step) && (s.callback.Locked? ==> s.callback.held.Some?)
    ensures var t := Apply(s, step);
      (t.callback == Unlocked(None) || t.callback == Locked(None)) ==> forall x :: x in t.queue ==> x.deadline > now
  {
    hide WithTimer;
    TimerOnly(Taking(s, now), later);
    if step.Turn? { TimerOnly(Taking(Passed(s, step.accepted), now), later); }
    if Ready(s.queue, now) == None { FirstIsLeast(s.queue, now); }
  }

  lemma FirstIsLeast(queue: seq<Work>, now: int)
    requires Sorted(queue) && Ready(queue, now) == None
    ensures forall x :: x in queue ==> x.deadline > now
  {
    forall x | x in queue
      ensures x.deadline > now
    {
      var j :| 0 <= j < |queue| && queue[j] == x;
      assert j == 0 || Before(queue[0], x);
    }
  }

  // ----- the timeout -----

  /** The step ends with setting the timer, at this reading of the clock. */
  function Reading(s: State, step: Step): Option<int> {
    match step
    case Enqueue(_, now) => Some(now)
    case Dequeue(_, later) => Some(later)
    case RemoveIfMatches(_, now) => Some(now)
    case First(_, later) => Some(later)
    case Turn(_, _, later) => if s.callback.Locked? && s.callback.held.Some? then Some(later) else None
    case _ => None
  }

  /** The timer that setTimer leaves. */
  function TimerAfter(queue: seq<Work>, timer: Option<Armed>, now: int): Option<Armed> {
    if TimerSet(queue, timer, now).Some? then TimerSet(queue, timer, now).value else timer
  }

  lemma WithTimerSets(s: State, now: int)
    ensures WithTimer(s, now).0 == s.(timer := TimerAfter(s.queue, s.timer, now))
  {
    hide TimerSet;
  }

  lemma TakesAndSets(s: State, now: int, later: int)
    ensures var t := WithTimer(Taking(s, now), later).0;
      t.timer == TimerAfter(t.queue, s.timer, later)
  {
    WithTimerSets(Taking(s, now), later);
    hide WithTimer, TimerAfter, Ready, AfterReady;
  }

  lemma SetTimerAt(s: State, step: Step)
    requires Enabled(s, step) && Reading(s, step).Some?
    ensures var t := Apply(s, step); t.timer == TimerAfter(t.queue, s.timer, Reading(s, step).value)
  {
    hide WithTimer, TimerAfter, Taking, Inserted, NotMatching, Matching;
    match step
    case Enqueue(deadline, now) =>
      var w := Work(|s.enqueued|, deadline);
      WithTimerSets(s.(queue := Inserted(s.queue, w), enqueued := s.enqueued + [w]), now);
    case RemoveIfMatches(matches, now) =>
      WithTimerSets(s.(queue := NotMatching(s.queue, matches),
                       removed := s.removed + multiset(Matching(s.queue, matches))), now);
    case Dequeue(now, later) => TakesAndSets(s, now, later);
    case First(now, later) => TakesAndSets(s, now, later);
    case Turn(accepted, now, later) => TakesAndSets(Passed(s, accepted), now, later);
    case _ =>
  }

  lemma TimerAfterMeans(queue: seq<Work>, timer: Option<Armed>, now: int)
    requires OnTheClock(now)
    ensures var after := TimerAfter(queue, timer, now);
      if queue == [] || 0 < queue[0].deadline - now < 1000 then after == timer
      else
        var deadline := queue[0].deadline;
        && after.Some? && after.value.deadline == deadline && IsTimeout(after.value.msec, deadline, now)
        && (deadline % 1000 == 0 && deadline > now ==> now + 1000 * after.value.msec == deadline)
  {
    if queue != [] {
      TimerFailsIff(queue, timer, now);
      if TimerSet(queue, timer, now).Some? { TimeoutMeaning(queue, timer, now); }
    }
  }

  /**
   * In every run, a step that sets the timer sets it for the first item then in the queue, with the greatest
   * number of whole milliseconds that ends before the deadline, or one if that has come; only if the deadline
   * is less than a millisecond ahead, or nothing is queued, the timer stays as it was. A deadline on the clock
   * is hit exactly.
   */
  lemma TimeoutIsExact(run: seq<State>, steps: seq<Step>, k: nat)
    requires IsRun(run, steps) && k < |steps| && Reading(run[k], steps[k]).Some?
    ensures var s, t, now := run[k], run[k + 1], Reading(run[k], steps[k]).value;
      if t.queue == [] || 0 < t.queue[0].deadline - now < 1000 then t.timer == s.timer
      else
        var deadline := t.queue[0].deadline;
        && t.timer.Some? && t.timer.value.deadline == deadline && IsTimeout(t.timer.value.msec, deadline, now)
        && (deadline % 1000 == 0 && deadline > now ==> now + 1000 * t.timer.value.msec == deadline)
  {
    var s, t, now := run[k], run[k + 1], Reading(run[k], steps[k]).value;
    assert Follows(s, steps[k], t);
    assert OnTheClock(now);
    hide Apply, IsRun;
    SetTimerAt(s, steps[k]);
    hide Enabled, Reading, TimerAfter;
    TimerAfterMeans(t.queue, s.timer, now);
  }

  // ----- where the code falls short -----

  /** One enqueue of an item not due at a whole millisecond, in the millisecond in which it is due. */
  lemma FractionStalls(d: int) returns (run: seq<State>, steps: seq<Step>)
    requires !OnTheClock(d)
    ensures IsRun(run, steps) && steps == [Enqueue(d, d - d % MICROSECONDS_PER_MILLISECOND)]
    ensures run[1].queue == [Work(0, d)] && run[1].timer == None && run[1].callback == NoCallback
    ensures !TimerReady(run[1])
  {
    var none := multiset{};
    var s := State([], None, NoCallback, false, [], [], none, none, none, none, none);
    steps := [Enqueue(d, d - d % MICROSECONDS_PER_MILLISECOND)];
    var t := Apply(s, steps[0]);
    assert t.queue == [Work(0, d)];
    run := [s, t];
  }

  /** Every deadline enqueued is one of these. */
  ghost predicate DeadlinesIn(steps: seq<Step>, deadlines: iset<int>) {
    forall j :: 0 <= j < |steps| && steps[j].Enqueue? ==> steps[j].deadline in deadlines
  }

  /**
   * The exact condition: a queue that is only given deadlines of some set has its timer always set for
   * the first item, in every run, if and only if all deadlines of the set are whole milliseconds.
   */
  lemma AlwaysArmedIff(deadlines: iset<int>)
    ensures (forall run, steps, k: nat :: IsRun(run, steps) && DeadlinesIn(steps, deadlines) && k < |run|
               ==> TimerReady(run[k]))
       <==> (forall d :: d in deadlines ==> OnTheClock(d))
  {
    hide IsRun, TimerReady, OnTheClock;
    if forall d :: d in deadlines ==> OnTheClock(d) {
      forall run, steps, k: nat | IsRun(run, steps) && DeadlinesIn(steps, deadlines) && k < |run|
        ensures TimerReady(run[k])
      {
        AlwaysArmed(run, steps, k);
      }
    } else {
      var d :| d in deadlines && !OnTheClock(d);
      var run, steps := FractionStalls(d);
      assert DeadlinesIn(steps, deadlines);
    }
  }
}
