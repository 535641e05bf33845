/**
 * makeEmpty of DeferredWorkItemQueue.cpp cancels the timer, and so waits for the timer's callback, while
 * it holds the mutex which that callback needs. In which uses of the queue does that hang?
 */
module DeferredEmptying {
  import opened Base
  import opened DeferredQueue
  import opened DeferredRuns

  /** Which deadlines are ever enqueued, and whether makeEmpty is ever called. The rest is free to all. */
  datatype Use = Use(deadlines: iset<int>, empties: bool)

  ghost predicate Permits(use: Use, step: Step) {
    match step
    case Enqueue(deadline, _) => deadline in use.deadlines
    case EmptyBegin => use.empties
    case _ => true
  }

  ghost predicate NeverFilled(use: Use) {
    forall d :: d !in use.deadlines
  }

  ghost predicate PermittedRun(use: Use, run: seq<State>, steps: seq<Step>) {
    IsRun(run, steps) && forall j :: 0 <= j < |steps| ==> Permits(use, steps[j])
  }

  /** makeEmpty has begun, and no thread can do anything any more. */
  ghost predicate Hangs(s: State) {
    s.emptying && forall step :: !Enabled(s, step)
  }

  /** For any deadline: a callback begins, and makeEmpty takes the mutex before it does. */
  lemma EmptyingHangs(d: int) returns (run: seq<State>, steps: seq<Step>)
    ensures IsRun(run, steps)
    ensures exists now :: OnTheClock(now) && now <= d && steps == [Enqueue(d, now), Fire, EmptyBegin]
    ensures |run| == 4 && Hangs(run[3])
  {
    var none := multiset{};
    var now := d - d % MICROSECONDS_PER_MILLISECOND - MICROSECONDS_PER_MILLISECOND;
    assert OnTheClock(now);
    var s := State([], None, NoCallback, false, [], [], none, none, none, none, none);
    steps := [Enqueue(d, now), Fire, EmptyBegin];
    EnqueueArms(s, d, now);
    hide WithTimer, Inserted;
    var t := Apply(s, steps[0]);
    var u := Apply(t, Fire);
    run := [s, t, u, Apply(u, EmptyBegin)];
    assert Follows(s, steps[0], t) && Follows(t, Fire, u);
  }

  lemma EnqueueArms(s: State, d: int, now: int)
    requires Initial(s) && OnTheClock(now) && now + MICROSECONDS_PER_MILLISECOND <= d
    ensures var t := Apply(s, Enqueue(d, now)); t.timer.Some? && t.callback == NoCallback && !t.emptying
  {
    assert Inserted([], Work(|s.enqueued|, d)) == [Work(|s.enqueued|, d)];
  }

  /** Nothing in the queue, no timer set and no callback on its way. */
  ghost predicate Quiet(s: State) {
    s.queue == [] && s.timer == None && s.callback == NoCallback
  }

  /** Without an enqueue nothing ever happens to the timer. */
  lemma {:induction false} NothingEnqueued(use: Use, run: seq<State>, steps: seq<Step>, k: nat)
    requires PermittedRun(use, run, steps) && NeverFilled(use) && k < |run|
    ensures Quiet(run[k])
    decreases k
  {
    if k > 0 {
      hide Apply, Enabled;
      NothingEnqueued(use, run, steps, k - 1);
      assert Follows(run[k - 1], steps[k - 1], run[k]) && Permits(use, steps[k - 1]);
      StaysQuiet(run[k - 1], steps[k - 1]);
    }
  }

  lemma StaysQuiet(s: State, step: Step)
    requires Quiet(s) && Enabled(s, step) && !step.Enqueue?
    ensures Quiet(Apply(s, step))
  {
    hide Inserted;
  }

  lemma {:induction false} NeverEmptied(use: Use, run: seq<State>, steps: seq<Step>, k: nat)
    requires PermittedRun(use, run, steps) && !use.empties && k < |run|
    ensures !run[k].emptying
    decreases k
  {
    if k > 0 {
      hide Inserted, Matching, NotMatching, Ready, AfterReady;
      NeverEmptied(use, run, steps, k - 1);
      assert Follows(run[k - 1], steps[k - 1], run[k]) && Permits(use, steps[k - 1]);
    }
  }

  /**
   * The exact condition: makeEmpty hangs in no run of a use if and only if nothing is ever enqueued, or
   * makeEmpty never called. No choice of deadlines, whole milliseconds or not, makes it safe.
   */
  lemma NeverHangsIff(use: Use)
    ensures (forall run: seq<State>, steps, k: nat :: PermittedRun(use, run, steps) && k < |run| ==> !Hangs(run[k]))
       <==> (NeverFilled(use) || !use.empties)
  {
    hide IsRun;
    if NeverFilled(use) || !use.empties {
      forall run: seq<State>, steps, k: nat | PermittedRun(use, run, steps) && k < |run|
        ensures !Hangs(run[k])
      {
        if use.empties {
          NothingEnqueued(use, run, steps, k);
          assert run[k].emptying ==> Enabled(run[k], EmptyEnd);
        } else {
          NeverEmptied(use, run, steps, k);
        }
      }
    } else {
      var d :| d in use.deadlines;
      var run, steps := EmptyingHangs(d);
      assert PermittedRun(use, run, steps);
    }
  }
}
