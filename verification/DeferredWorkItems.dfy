/**
 * DeferredWorkItemQueue.cpp as a class whose methods update its fields. Each method is proved to do what
 * its steps do in the state machine of DeferredRuns when no other thread interferes, so the theorems
 * about runs are about this code.
 */
module DeferredWorkItems {
  import opened Base
  import opened DeferredQueue
  import opened DeferredRuns

  // ----- steps of one thread -----

  /** The state after the given steps, if each of them is possible when its turn comes. */
  function Execute(s: State, steps: seq<Step>): Option<State> {
    if steps == [] then Some(s)
    else
      var n := |steps| - 1;
      var t := Execute(s, steps[..n]);
      if t.Some? && Enabled(t.value, steps[n]) then Some(Apply(t.value, steps[n])) else None
  }

  predicate InCallback(step: Step) {
    step.First? || step.Lock? || step.Turn?
  }

  /** The timer's callback has just begun, and nobody holds the mutex. */
  ghost predicate Starting(s: State, clock: nat -> int) {
    s.callback == Started && !s.emptying && forall k :: OnTheClock(clock(k))
  }

  /** The steps lead from `s` to this queue, timer and callback, and to these items moved. */
  ghost predicate Lands(s: State, steps: seq<Step>, queue: seq<Work>, timer: Option<Armed>, callback: Callback,
                        moved: seq<Work>) {
    var t := Execute(s, steps);
    && t.Some? && !t.value.emptying
    && t.value.queue == queue && t.value.timer == timer && t.value.callback == callback
    && t.value.moved == s.moved + multiset(moved)
  }

  /** They do so from every state with the given queue and timer in which the callback has just begun. */
  ghost predicate AllLand(clock: nat -> int, queue: seq<Work>, timer: Option<Armed>, steps: seq<Step>,
                          newQueue: seq<Work>, newTimer: Option<Armed>, callback: Callback, moved: seq<Work>) {
    forall s: State :: s.queue == queue && s.timer == timer && Starting(s, clock) ==>
      Lands(s, steps, newQueue, newTimer, callback, moved)
  }

  lemma OneMoreStep(s: State, steps: seq<Step>, step: Step)
    requires Execute(s, steps).Some? && Enabled(Execute(s, steps).value, step)
    ensures Execute(s, steps + [step]) == Some(Apply(Execute(s, steps).value, step))
  {
    assert (steps + [step])[..|steps|] == steps;
  }

  lemma FirstLands(clock: nat -> int, queue: seq<Work>, timer: Option<Armed>)
    ensures var later := TimerSet(AfterReady(queue, clock(0)), timer, clock(1));
      AllLand(clock, queue, timer, [First(clock(0), clock(1))], AfterReady(queue, clock(0)),
              if later.Some? then later.value else timer,
              if later.Some? then Unlocked(Ready(queue, clock(0))) else Escaped, [])
  {
    hide TimerSet, Ready, AfterReady;
    forall s: State | s.queue == queue && s.timer == timer && Starting(s, clock)
      ensures Execute(s, [First(clock(0), clock(1))]) == Some(Apply(s, First(clock(0), clock(1))))
    {
      assert [First(clock(0), clock(1))] == [] + [First(clock(0), clock(1))];
      OneMoreStep(s, [], First(clock(0), clock(1)));
    }
  }

  lemma LockLands(clock: nat -> int, queue: seq<Work>, timer: Option<Armed>, steps: seq<Step>,
                  nowQueue: seq<Work>, nowTimer: Option<Armed>, w: Option<Work>)
    requires AllLand(clock, queue, timer, steps, nowQueue, nowTimer, Unlocked(w), [])
    ensures AllLand(clock, queue, timer, steps + [Lock], nowQueue, nowTimer, Locked(w), [])
  {
    hide Execute;
    forall s: State | s.queue == queue && s.timer == timer && Starting(s, clock)
      ensures Lands(s, steps + [Lock], nowQueue, nowTimer, Locked(w), [])
    {
      assert Lands(s, steps, nowQueue, nowTimer, Unlocked(w), []);
      OneMoreStep(s, steps, Lock);
    }
  }

  lemma TurnLands(clock: nat -> int, queue: seq<Work>, timer: Option<Armed>, steps: seq<Step>,
                  nowQueue: seq<Work>, nowTimer: Option<Armed>, w: Work, moved: seq<Work>, accepted: bool, k: nat)
    requires AllLand(clock, queue, timer, steps, nowQueue, nowTimer, Locked(Some(w)), moved)
    ensures var later := TimerSet(AfterReady(nowQueue, clock(k)), nowTimer, clock(k + 1));
      AllLand(clock, queue, timer, steps + [Turn(accepted, clock(k), clock(k + 1))],
              AfterReady(nowQueue, clock(k)), if later.Some? then later.value else nowTimer,
              if later.Some? then Locked(Ready(nowQueue, clock(k))) else Escaped,
              if accepted then moved + [w] else moved)
  {
    hide Lands, TimerSet, Ready, AfterReady;
    forall s: State | s.queue == queue && s.timer == timer && Starting(s, clock)
      ensures var later := TimerSet(AfterReady(nowQueue, clock(k)), nowTimer, clock(k + 1));
        Lands(s, steps + [Turn(accepted, clock(k), clock(k + 1))],
              AfterReady(nowQueue, clock(k)), if later.Some? then later.value else nowTimer,
              if later.Some? then Locked(Ready(nowQueue, clock(k))) else Escaped,
              if accepted then moved + [w] else moved)
    {
      OneTurnLands(s, steps, nowQueue, nowTimer, w, moved, Turn(accepted, clock(k), clock(k + 1)));
    }
  }

  lemma OneTurnLands(s: State, steps: seq<Step>, queue: seq<Work>, timer: Option<Armed>, w: Work, moved: seq<Work>,
                     turn: Step)
    requires Lands(s, steps, queue, timer, Locked(Some(w)), moved)
    requires turn.Turn? && OnTheClock(turn.now) && OnTheClock(turn.later)
    ensures var later := TimerSet(AfterReady(queue, turn.now), timer, turn.later);
      Lands(s, steps + [turn], AfterReady(queue, turn.now),
            if later.Some? then later.value else timer,
            if later.Some? then Locked(Ready(queue, turn.now)) else Escaped,
            if turn.accepted then moved + [w] else moved)
  {
    hide Execute, TimerSet, Ready, AfterReady;
    OneMoreStep(s, steps, turn);
  }

  lemma EndLands(clock: nat -> int, queue: seq<Work>, timer: Option<Armed>, steps: seq<Step>,
                 nowQueue: seq<Work>, nowTimer: Option<Armed>, moved: seq<Work>)
    requires AllLand(clock, queue, timer, steps, nowQueue, nowTimer, Locked(None), moved)
    ensures AllLand(clock, queue, timer, steps + [Turn(false, 0, 0)], nowQueue, nowTimer, NoCallback, moved)
  {
    hide Execute;
    forall s: State | s.queue == queue && s.timer == timer && Starting(s, clock)
      ensures Lands(s, steps + [Turn(false, 0, 0)], nowQueue, nowTimer, NoCallback, moved)
    {
      assert Lands(s, steps, nowQueue, nowTimer, Locked(None), moved);
      OneMoreStep(s, steps, Turn(false, 0, 0));
    }
  }

  // ----- the class -----

  class DeferredWorkItemQueue {
    var queue: seq<Work>
    var maxCount: nat
    var timer: Option<Armed>

    /** The queue and the timer are those of this state. */
    ghost predicate Shows(s: State)
      reads this
    {
      s.queue == queue && s.timer == timer
    }

    constructor ()
      ensures queue == [] && maxCount == 0 && timer == None
      ensures forall s :: Initial(s) ==> Shows(s)
    {
      queue, maxCount, timer := [], 0, None;
    }

    /** Returns false where the source throws: the timer then stays as it is. */
    method SetTimer(now: int) returns (ok: bool)
      modifies this`timer
      ensures ok == TimerSet(queue, old(timer), now).Some?
      ensures timer == if ok then TimerSet(queue, old(timer), now).value else old(timer)
      ensures ok == (queue == [] || !(0 < queue[0].deadline - now < 1000))
      ensures ok && queue != [] ==>
        timer.Some? && timer.value.deadline == queue[0].deadline && IsTimeout(timer.value.msec, queue[0].deadline, now)
    {
      ok := true;
      if queue != [] {
        var first := queue[0];
        var msec := if first.deadline > now then (first.deadline - now) / MICROSECONDS_PER_MILLISECOND else 1;
        if msec == 0 {
          return false;
        }
        timer := Some(Armed(first.deadline, msec));
      }
    }

    method InsertSorted(w: Work)
      modifies this`queue
      ensures queue == Inserted(old(queue), w)
    {
      var it := 0;
      while it < |queue|
        invariant it <= |queue| && queue == old(queue)
        invariant forall j :: 0 <= j < it ==> queue[j].deadline <= w.deadline
      {
        if queue[it].deadline > w.deadline {
          queue := queue[..it] + [w] + queue[it..];
          return;
        }
        it := it + 1;
      }
      queue := queue + [w];
    }

    method Enqueue(w: Work, now: int) returns (ok: bool)
      modifies this
      ensures queue == Inserted(old(queue), w)
      ensures maxCount == if |queue| > old(maxCount) then |queue| else old(maxCount)
      ensures ok == TimerSet(queue, old(timer), now).Some?
      ensures timer == if ok then TimerSet(queue, old(timer), now).value else old(timer)
      ensures forall s: State ::
        old(Shows(s)) && Enabled(s, Step.Enqueue(w.deadline, now)) && w.arrival == |s.enqueued| ==>
          Shows(Apply(s, Step.Enqueue(w.deadline, now)))
    {
      hide Inserted, TimerSet;
      InsertSorted(w);
      if |queue| > maxCount {
        maxCount := |queue|;
      }
      ok := SetTimer(now);
    }

    method FirstReady(now: int) returns (w: Option<Work>)
      modifies this`queue
      ensures w == Ready(old(queue), now) && queue == AfterReady(old(queue), now)
    {
      w := None;
      if queue != [] {
        w := Some(queue[0]);
        if queue[0].deadline <= now {
          queue := queue[1..];
        } else {
          w := None;
        }
      }
    }

    /** On an exception the item it took out is lost. */
    method Dequeue(now: int, later: int) returns (ok: bool, w: Option<Work>)
      modifies this`queue, this`timer
      ensures queue == AfterReady(old(queue), now)
      ensures ok == TimerSet(queue, old(timer), later).Some?
      ensures timer == if ok then TimerSet(queue, old(timer), later).value else old(timer)
      ensures w == if ok then Ready(old(queue), now) else None
      ensures forall s: State :: old(Shows(s)) && Enabled(s, Step.Dequeue(now, later)) ==>
        var t := Apply(s, Step.Dequeue(now, later));
        Shows(t) && t.returned == s.returned + Bag(w)
    {
      hide AfterReady, Ready, TimerSet;
      w := FirstReady(now);
      ok := SetTimer(later);
      if !ok {
        w := None;
      }
    }

    /** `removed` logs the items that were signalled and erased. */
    method RemoveIfMatches(matches: Work -> bool, now: int)
        returns (ok: bool, numRemoved: nat, ghost removed: seq<Work>)
      modifies this`queue, this`timer
      ensures queue == NotMatching(old(queue), matches)
      ensures removed == Matching(old(queue), matches) && numRemoved == |removed|
      ensures ok == TimerSet(queue, old(timer), now).Some?
      ensures timer == if ok then TimerSet(queue, old(timer), now).value else old(timer)
      ensures forall s: State :: old(Shows(s)) && Enabled(s, Step.RemoveIfMatches(matches, now)) ==>
        var t := Apply(s, Step.RemoveIfMatches(matches, now));
        Shows(t) && t.removed == s.removed + multiset(removed)
    {
      hide TimerSet, Matching, NotMatching, Parted;
      numRemoved, removed := 0, [];
      ghost var all := queue;
      PartedStart(all, matches);
      var it := 0;
      while it < |queue|
        invariant it <= |queue| && numRemoved == |removed| && timer == old(timer)
        invariant Parted(all, matches, removed, queue[..it], queue[it..])
        decreases |queue| - it
      {
        PartedStep(all, matches, removed, queue[..it], queue[it..]);
        assert queue[it..][1..] == queue[it + 1..];
        if matches(queue[it]) {
          removed := removed + [queue[it]];
          ghost var kept, rest := queue[..it], queue[it + 1..];
          queue := queue[..it] + queue[it + 1..];
          assert queue[..it] == kept && queue[it..] == rest;
          numRemoved := numRemoved + 1;
        } else {
          assert queue[..it] + [queue[it]] == queue[..it + 1];
          it := it + 1;
        }
      }
      assert queue[..it] == queue && queue[it..] == [];
      PartedEnd(all, matches, removed, queue);
      ok := SetTimer(now);
    }

    /** The part of makeEmpty after the timer was cancelled; `emptied` logs the signalled items. */
    method Drain() returns (ghost emptied: seq<Work>)
      modifies this`queue
      ensures queue == [] && emptied == old(queue)
    {
      emptied := [];
      while queue != []
        invariant emptied + queue == old(queue)
        decreases |queue|
      {
        emptied := emptied + [queue[0]];
        queue := queue[1..];
      }
    }

    method MakeEmpty() returns (ghost emptied: seq<Work>)
      modifies this`queue, this`timer
      ensures queue == [] && timer == None && emptied == old(queue)
      ensures forall s: State :: old(Shows(s)) && Enabled(s, EmptyBegin) && Enabled(Apply(s, EmptyBegin), EmptyEnd) ==>
        var t := Apply(Apply(s, EmptyBegin), EmptyEnd);
        Shows(t) && t.removed == s.removed + multiset(emptied)
    {
      timer := None;
      emptied := Drain();
    }

    /**
     * The timer callback when no other thread interferes: it takes items from the front, each of them
     * ready when it is taken, until the first is not ready, and passes on those which the immediate
     * queue accepts. `ok` is false if a dequeue throws: the exception leaves the callback, and what that
     * dequeue took out is lost.
     *
     * `clock(k)` is the k-th reading of the clock; the n-th dequeue reads it at 2 n and 2 n + 1.
     */
    method TimerCallback(clock: nat -> int, accepts: Work -> bool)
        returns (ok: bool, immediate: seq<Work>, ghost taken: seq<Work>, ghost dequeues: nat, ghost steps: seq<Step>)
      modifies this`queue, this`timer
      ensures taken + queue == old(queue)
      ensures 1 <= dequeues && dequeues - 1 <= |taken| <= dequeues
      ensures TakenReady(taken, clock)
      ensures immediate == Matching(taken[..dequeues - 1], accepts)
      ensures ok ==> |taken| == dequeues - 1 && Ready(queue, clock(2 * (dequeues - 1))) == None
      ensures ok == TimerSet(queue, old(timer), clock(2 * dequeues - 1)).Some?
      ensures ok && queue != [] ==> timer == TimerSet(queue, old(timer), clock(2 * dequeues - 1)).value
      ensures forall k :: 0 <= k < |steps| ==> InCallback(steps[k])
      ensures AllLand(clock, old(queue), old(timer), steps, queue, timer, if ok then NoCallback else Escaped, immediate)
    {
      NothingTaken(queue, clock, accepts);
      hide TimerSet, Matching, Ready, AfterReady, Taken, Progress, AllLand;
      immediate, taken, dequeues, steps := [], [], 1, [First(clock(0), clock(1))];
      ghost var all := queue;
      ghost var found := Ready(queue, clock(0));
      TakeNext(all, [], queue, clock, 0);
      var w;
      ok, w := Dequeue(clock(0), clock(1));
      taken := Taken([], all, clock(0));
      ProgressMeans(all, taken, queue, clock, 1, found);
      FirstLands(clock, all, old(timer));
      if ok {
        LockLands(clock, all, old(timer), steps, queue, timer, w);
        steps := steps + [Lock];
      }
      var k := 2;
      while ok && w.Some?
        invariant k == 2 * dequeues && (ok ==> w == found)
        invariant Progress(all, taken, queue, clock, dequeues, found) && 1 <= dequeues <= |taken| + 1
        invariant immediate == Matching(taken[..dequeues - 1], accepts)
        invariant ok == TimerSet(queue, old(timer), clock(k - 1)).Some?
        invariant ok && queue != [] ==> timer == TimerSet(queue, old(timer), clock(k - 1)).value
        invariant forall j :: 0 <= j < |steps| ==> InCallback(steps[j])
        invariant AllLand(clock, all, old(timer), steps, queue, timer, if ok then Locked(w) else Escaped, immediate)
        decreases |queue|, ok && w.Some?
      {
        ProgressMeans(all, taken, queue, clock, dequeues, found);
        MatchingLast(taken, accepts);
        ghost var turn := Turn(accepts(w.value), clock(k), clock(k + 1));
        TurnLands(clock, all, old(timer), steps, queue, timer, w.value, immediate, accepts(w.value), k);
        if accepts(w.value) {
          immediate := immediate + [w.value];
        }
        TakeNext(all, taken, queue, clock, dequeues);
        ghost var rest := queue;
        found := Ready(queue, clock(k));
        SameTimer(AfterReady(queue, clock(k)), timer, old(timer), clock(k + 1));
        ok, w := Dequeue(clock(k), clock(k + 1));
        taken := Taken(taken, rest, clock(k));
        steps := steps + [turn];
        k, dequeues := k + 2, dequeues + 1;
        ProgressMeans(all, taken, queue, clock, dequeues, found);
      }
      ProgressMeans(all, taken, queue, clock, dequeues, found);
      if ok {
        EndLands(clock, all, old(timer), steps, queue, timer, immediate);
        steps := steps + [Turn(false, 0, 0)];
      }
    }
  }
}
